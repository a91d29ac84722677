/**
 * The static reference catalog of tracked CAC 40 companies
 * (`define_entreprises`), keyed by Yahoo Finance ticker. The Python
 * dictionary keeps insertion order, so the catalog is a sequence.
 */
module Catalog {

  datatype Instrument = Instrument(
    ticker: string,
    nomComplet: string,
    secteur: string,
    sousSecteur: string,
    pays: string,
    couleur: string,
    poidsCac40: real,
    description: string)

  /** The fifteen companies of the catalog, in declaration order. */
  function Entreprises(): seq<Instrument> {
    [ Instrument("MC.PA", "LVMH Moët Hennessy Louis Vuitton", "Luxe", "Articles de luxe", "France", "#8B4513", 12.5, "Leader mondial du luxe"),
      Instrument("TTE.PA", "TotalEnergies", "Énergie", "Pétrole & Gaz", "France", "#FF6B00", 8.2, "Major énergétique intégré"),
      Instrument("SAN.PA", "Sanofi", "Santé", "Pharmaceutique", "France", "#0066CC", 7.8, "Groupe pharmaceutique mondial"),
      Instrument("AIR.PA", "Airbus", "Industrie", "Aérospatial", "France", "#003366", 6.5, "Constructeur aéronautique"),
      Instrument("OR.PA", "L'Oréal", "Consommation", "Cosmétiques", "France", "#FF69B4", 5.9, "Leader mondial des cosmétiques"),
      Instrument("BNP.PA", "BNP Paribas", "Finance", "Banque", "France", "#004B87", 5.2, "Groupe bancaire international"),
      Instrument("AI.PA", "Air Liquide", "Chimie", "Gaz industriels", "France", "#00A3E0", 4.8, "Leader des gaz industriels"),
      Instrument("STM.PA", "STMicroelectronics", "Technologie", "Semi-conducteurs", "France", "#660099", 4.3, "Fabricant de semi-conducteurs"),
      Instrument("DG.PA", "Vinci", "Industrie", "BTP & Concessions", "France", "#FFCC00", 4.1, "Groupe de construction et concessions"),
      Instrument("RI.PA", "Pernod Ricard", "Consommation", "Spiritueux", "France", "#8B0000", 3.9, "Leader mondial des vins et spiritueux"),
      Instrument("SU.PA", "Schneider Electric", "Industrie", "Équipements électriques", "France", "#00A3E0", 3.7, "Spécialiste de la gestion d'énergie"),
      Instrument("CAP.PA", "Capgemini", "Technologie", "Services informatiques", "France", "#F26522", 3.5, "Services conseil en technologies"),
      Instrument("ACA.PA", "Crédit Agricole", "Finance", "Banque", "France", "#004B87", 3.3, "Groupe bancaire coopératif"),
      Instrument("ML.PA", "Michelin", "Industrie", "Pneumatiques", "France", "#FF0000", 3.1, "Manufacturier de pneumatiques"),
      Instrument("ENGI.PA", "Engie", "Énergie", "Électricité & Gaz", "France", "#00A3E0", 2.9, "Fournisseur d'énergie") ]
  }

  /** Tickers are dictionary keys, hence pairwise distinct. */
  ghost predicate TickersDistinct(cat: seq<Instrument>) {
    forall i, j :: 0 <= i < j < |cat| ==> cat[i].ticker != cat[j].ticker
  }

  /** Whether `t` is the ticker of some catalog entry. */
  predicate HasTicker(cat: seq<Instrument>, t: string) {
    exists i :: 0 <= i < |cat| && cat[i].ticker == t
  }

  /** The distinct sectors named by the catalog's entries. */
  function SectorsOf(cat: seq<Instrument>): set<string> {
    set i | 0 <= i < |cat| :: cat[i].secteur
  }

  /** Sum of the catalog weights of the companies in sector `s`. */
  function SumWeights(cat: seq<Instrument>, s: string): real
    decreases |cat|
  {
    if cat == [] then 0.0
    else SumWeights(cat[..|cat| - 1], s) + (if cat[|cat| - 1].secteur == s then cat[|cat| - 1].poidsCac40 else 0.0)
  }

  /** Number of catalog companies in sector `s`. */
  function CountSector(cat: seq<Instrument>, s: string): nat
    decreases |cat|
  {
    if cat == [] then 0
    else CountSector(cat[..|cat| - 1], s) + (if cat[|cat| - 1].secteur == s then 1 else 0)
  }

  /** Total index weight of the catalog. */
  function TotalWeight(cat: seq<Instrument>): real
    decreases |cat|
  {
    if cat == [] then 0.0 else TotalWeight(cat[..|cat| - 1]) + cat[|cat| - 1].poidsCac40
  }

  /** The count is the number of positions holding a company of the sector. */
  lemma {:induction false} CountSectorIsCardinality(cat: seq<Instrument>, s: string)
    ensures CountSector(cat, s) == |set i | 0 <= i < |cat| && cat[i].secteur == s|
    decreases |cat|
  {
    var n := |cat|;
    if n > 0 {
      var init := cat[..n - 1];
      CountSectorIsCardinality(init, s);
      var before := set i | 0 <= i < n - 1 && init[i].secteur == s;
      var all := set i | 0 <= i < n && cat[i].secteur == s;
      var last := if cat[n - 1].secteur == s then {n - 1} else {};
      forall i ensures i in all <==> i in before + last {
        if 0 <= i < n - 1 { assert init[i] == cat[i]; }
      }
      assert all == before + last;
      assert n - 1 !in before;
    }
  }

  /** A sector holds members exactly when it is one of the catalog's sectors. */
  lemma {:induction false} CountSectorPositive(cat: seq<Instrument>, s: string)
    ensures CountSector(cat, s) > 0 <==> s in SectorsOf(cat)
    decreases |cat|
  {
    var n := |cat|;
    if n > 0 {
      CountSectorPositive(cat[..n - 1], s);
      assert SectorsOf(cat) == SectorsOf(cat[..n - 1]) + {cat[n - 1].secteur};
    }
  }

  /** Sum over a list of sectors of a per-sector count. */
  function SumCounts(cat: seq<Instrument>, ss: seq<string>): nat
    decreases |ss|
  {
    if ss == [] then 0 else SumCounts(cat, ss[..|ss| - 1]) + CountSector(cat, ss[|ss| - 1])
  }

  /** Sum over a list of sectors of the per-sector weight. */
  function SumSectorWeights(cat: seq<Instrument>, ss: seq<string>): real
    decreases |ss|
  {
    if ss == [] then 0.0 else SumSectorWeights(cat, ss[..|ss| - 1]) + SumWeights(cat, ss[|ss| - 1])
  }

  /** How many entries of `ss` equal `s`. */
  function Occurrences(ss: seq<string>, s: string): nat
    decreases |ss|
  {
    if ss == [] then 0 else Occurrences(ss[..|ss| - 1], s) + (if ss[|ss| - 1] == s then 1 else 0)
  }

  lemma {:induction false} OccurrencesOnce(ss: seq<string>, s: string)
    requires forall j, k :: 0 <= j < k < |ss| ==> ss[j] != ss[k]
    ensures Occurrences(ss, s) == if s in ss then 1 else 0
    decreases |ss|
  {
    var n := |ss|;
    if n > 0 {
      var init := ss[..n - 1];
      OccurrencesOnce(init, s);
      assert ss == init + [ss[n - 1]];
    }
  }

  /** Splitting off the last company of the catalog from each per-sector count. */
  lemma {:induction false} SumCountsSnoc(cat: seq<Instrument>, ss: seq<string>)
    requires |cat| > 0
    ensures SumCounts(cat, ss) == SumCounts(cat[..|cat| - 1], ss) + Occurrences(ss, cat[|cat| - 1].secteur)
    decreases |ss|
  {
    if ss != [] { SumCountsSnoc(cat, ss[..|ss| - 1]); }
  }

  lemma {:induction false} SumSectorWeightsSnoc(cat: seq<Instrument>, ss: seq<string>)
    requires |cat| > 0
    ensures SumSectorWeights(cat, ss)
         == SumSectorWeights(cat[..|cat| - 1], ss) + (Occurrences(ss, cat[|cat| - 1].secteur) as real) * cat[|cat| - 1].poidsCac40
    decreases |ss|
  {
    if ss != [] { SumSectorWeightsSnoc(cat, ss[..|ss| - 1]); }
  }

  /**
   * A list naming every sector of the catalog exactly once partitions it:
   * the per-sector counts add up to the size of the catalog and the
   * per-sector weights to its total weight.
   */
  lemma {:induction false} SectorsPartitionCatalog(cat: seq<Instrument>, ss: seq<string>)
    requires forall j, k :: 0 <= j < k < |ss| ==> ss[j] != ss[k]
    requires forall i :: 0 <= i < |cat| ==> cat[i].secteur in ss
    ensures SumCounts(cat, ss) == |cat|
    ensures SumSectorWeights(cat, ss) == TotalWeight(cat)
    decreases |cat|
  {
    var n := |cat|;
    if n == 0 {
      ZeroCounts(ss);
    } else {
      var init := cat[..n - 1];
      assert forall i :: 0 <= i < |init| ==> init[i] == cat[i];
      SectorsPartitionCatalog(init, ss);
      SumCountsSnoc(cat, ss);
      SumSectorWeightsSnoc(cat, ss);
      OccurrencesOnce(ss, cat[n - 1].secteur);
    }
  }

  lemma {:induction false} ZeroCounts(ss: seq<string>)
    ensures SumCounts([], ss) == 0 && SumSectorWeights([], ss) == 0.0
    decreases |ss|
  {
    if ss != [] { ZeroCounts(ss[..|ss| - 1]); }
  }

  lemma CatalogTickersDistinct()
    ensures TickersDistinct(Entreprises())
  {
    var c := Entreprises();
    forall i, j | 0 <= i < j < |c| ensures c[i].ticker != c[j].ticker {
      assert c[i].ticker[0] != c[j].ticker[0] || c[i].ticker[1] != c[j].ticker[1] || |c[i].ticker| != |c[j].ticker|;
    }
  }

  lemma CatalogSectors()
    ensures SectorsOf(Entreprises())
         == {"Luxe", "Énergie", "Santé", "Industrie", "Consommation", "Finance", "Chimie", "Technologie"}
  {
    var c := Entreprises();
    var expected := {"Luxe", "Énergie", "Santé", "Industrie", "Consommation", "Finance", "Chimie", "Technologie"};
    forall i | 0 <= i < |c| ensures c[i].secteur in expected {
    }
    assert c[0].secteur == "Luxe" && c[1].secteur == "Énergie" && c[2].secteur == "Santé" && c[3].secteur == "Industrie";
    assert c[4].secteur == "Consommation" && c[5].secteur == "Finance" && c[6].secteur == "Chimie" && c[7].secteur == "Technologie";
  }

  /** The catalog has four companies in the "Industrie" sector. */
  lemma CatalogIndustrieCount()
    ensures CountSector(Entreprises(), "Industrie") == 4
  {
    CatalogIndustrieCountUpto15();
    assert Entreprises()[..15] == Entreprises();
  }

  lemma CatalogIndustrieCountUpto5()
    ensures CountSector(Entreprises()[..5], "Industrie") == 1
  {
    var c := Entreprises();
    assert c[..1][..0] == c[..0];
    assert CountSector(c[..1], "Industrie") == 0;
    assert c[..2][..1] == c[..1];
    assert CountSector(c[..2], "Industrie") == 0;
    assert c[..3][..2] == c[..2];
    assert CountSector(c[..3], "Industrie") == 0;
    assert c[..4][..3] == c[..3];
    assert CountSector(c[..4], "Industrie") == 1;
    assert c[..5][..4] == c[..4];
    assert CountSector(c[..5], "Industrie") == 1;
  }

  lemma CatalogIndustrieCountUpto10()
    ensures CountSector(Entreprises()[..10], "Industrie") == 2
  {
    var c := Entreprises();
    CatalogIndustrieCountUpto5();
    assert c[..6][..5] == c[..5];
    assert CountSector(c[..6], "Industrie") == 1;
    assert c[..7][..6] == c[..6];
    assert CountSector(c[..7], "Industrie") == 1;
    assert c[..8][..7] == c[..7];
    assert CountSector(c[..8], "Industrie") == 1;
    assert c[..9][..8] == c[..8];
    assert CountSector(c[..9], "Industrie") == 2;
    assert c[..10][..9] == c[..9];
    assert CountSector(c[..10], "Industrie") == 2;
  }

  lemma CatalogIndustrieCountUpto15()
    ensures CountSector(Entreprises()[..15], "Industrie") == 4
  {
    var c := Entreprises();
    CatalogIndustrieCountUpto10();
    assert c[..11][..10] == c[..10];
    assert CountSector(c[..11], "Industrie") == 3;
    assert c[..12][..11] == c[..11];
    assert CountSector(c[..12], "Industrie") == 3;
    assert c[..13][..12] == c[..12];
    assert CountSector(c[..13], "Industrie") == 3;
    assert c[..14][..13] == c[..13];
    assert CountSector(c[..14], "Industrie") == 4;
    assert c[..15][..14] == c[..14];
    assert CountSector(c[..15], "Industrie") == 4;
  }

  /** Their weights add up to 17.4. */
  lemma CatalogIndustrieWeight()
    ensures SumWeights(Entreprises(), "Industrie") == 17.4
  {
    CatalogIndustrieWeightUpto15();
    assert Entreprises()[..15] == Entreprises();
  }

  lemma CatalogIndustrieWeightUpto5()
    ensures SumWeights(Entreprises()[..5], "Industrie") == 6.5
  {
    var c := Entreprises();
    assert c[..1][..0] == c[..0];
    assert SumWeights(c[..1], "Industrie") == 0.0;
    assert c[..2][..1] == c[..1];
    assert SumWeights(c[..2], "Industrie") == 0.0;
    assert c[..3][..2] == c[..2];
    assert SumWeights(c[..3], "Industrie") == 0.0;
    assert c[..4][..3] == c[..3];
    assert SumWeights(c[..4], "Industrie") == 6.5;
    assert c[..5][..4] == c[..4];
    assert SumWeights(c[..5], "Industrie") == 6.5;
  }

  lemma CatalogIndustrieWeightUpto10()
    ensures SumWeights(Entreprises()[..10], "Industrie") == 10.6
  {
    var c := Entreprises();
    CatalogIndustrieWeightUpto5();
    assert c[..6][..5] == c[..5];
    assert SumWeights(c[..6], "Industrie") == 6.5;
    assert c[..7][..6] == c[..6];
    assert SumWeights(c[..7], "Industrie") == 6.5;
    assert c[..8][..7] == c[..7];
    assert SumWeights(c[..8], "Industrie") == 6.5;
    assert c[..9][..8] == c[..8];
    assert SumWeights(c[..9], "Industrie") == 10.6;
    assert c[..10][..9] == c[..9];
    assert SumWeights(c[..10], "Industrie") == 10.6;
  }

  lemma CatalogIndustrieWeightUpto15()
    ensures SumWeights(Entreprises()[..15], "Industrie") == 17.4
  {
    var c := Entreprises();
    CatalogIndustrieWeightUpto10();
    assert c[..11][..10] == c[..10];
    assert SumWeights(c[..11], "Industrie") == 14.3;
    assert c[..12][..11] == c[..11];
    assert SumWeights(c[..12], "Industrie") == 14.3;
    assert c[..13][..12] == c[..12];
    assert SumWeights(c[..13], "Industrie") == 14.3;
    assert c[..14][..13] == c[..13];
    assert SumWeights(c[..14], "Industrie") == 17.4;
    assert c[..15][..14] == c[..14];
    assert SumWeights(c[..15], "Industrie") == 17.4;
  }

  /** The catalog covers 79.7 % of the index. */
  lemma CatalogTotalWeight()
    ensures TotalWeight(Entreprises()) == 79.7
  {
    CatalogTotalWeightUpto15();
    assert Entreprises()[..15] == Entreprises();
  }

  lemma CatalogTotalWeightUpto5()
    ensures TotalWeight(Entreprises()[..5]) == 40.9
  {
    var c := Entreprises();
    assert c[..1][..0] == c[..0];
    assert TotalWeight(c[..1]) == 12.5;
    assert c[..2][..1] == c[..1];
    assert TotalWeight(c[..2]) == 20.7;
    assert c[..3][..2] == c[..2];
    assert TotalWeight(c[..3]) == 28.5;
    assert c[..4][..3] == c[..3];
    assert TotalWeight(c[..4]) == 35.0;
    assert c[..5][..4] == c[..4];
    assert TotalWeight(c[..5]) == 40.9;
  }

  lemma CatalogTotalWeightUpto10()
    ensures TotalWeight(Entreprises()[..10]) == 63.2
  {
    var c := Entreprises();
    CatalogTotalWeightUpto5();
    assert c[..6][..5] == c[..5];
    assert TotalWeight(c[..6]) == 46.1;
    assert c[..7][..6] == c[..6];
    assert TotalWeight(c[..7]) == 50.9;
    assert c[..8][..7] == c[..7];
    assert TotalWeight(c[..8]) == 55.2;
    assert c[..9][..8] == c[..8];
    assert TotalWeight(c[..9]) == 59.3;
    assert c[..10][..9] == c[..9];
    assert TotalWeight(c[..10]) == 63.2;
  }

  lemma CatalogTotalWeightUpto15()
    ensures TotalWeight(Entreprises()[..15]) == 79.7
  {
    var c := Entreprises();
    CatalogTotalWeightUpto10();
    assert c[..11][..10] == c[..10];
    assert TotalWeight(c[..11]) == 66.9;
    assert c[..12][..11] == c[..11];
    assert TotalWeight(c[..12]) == 70.4;
    assert c[..13][..12] == c[..12];
    assert TotalWeight(c[..13]) == 73.7;
    assert c[..14][..13] == c[..13];
    assert TotalWeight(c[..14]) == 76.8;
    assert c[..15][..14] == c[..14];
    assert TotalWeight(c[..15]) == 79.7;
  }
}
