/**
 * The query engine of the "Entreprises en temps réel" view
 * (`create_entreprises_live`): the filter-and-sort chain of the price
 * table, the screener, the colour class of a change badge and the count
 * of rising companies shown among the key metrics.
 */
module Queries {
  import opened Sequences
  import opened Market

  /** The choices of the "Performance" select box. */
  datatype PerformanceFiltre = Tous | EnHausse | EnBaisse | Stable

  /** The choices of the "Trier par" select box. */
  datatype Tri = ParVariation | ParVolume | ParCapitalisation | ParPoids

  /** The sector select box offers "Tous" before the sector names. */
  const TousLesSecteurs: string := "Tous"

  predicate MatchesSector(r: Snapshot, secteurFiltre: string) {
    secteurFiltre == TousLesSecteurs || r.secteur == secteurFiltre
  }

  /** 'En hausse' keeps changes > 0, 'En baisse' < 0, 'Stable' exactly 0. */
  predicate MatchesPerformance(v: real, f: PerformanceFiltre) {
    match f
    case Tous => true
    case EnHausse => v > 0.0
    case EnBaisse => v < 0.0
    case Stable => v == 0.0
  }

  predicate KeepsRow(r: Snapshot, secteurFiltre: string, f: PerformanceFiltre) {
    MatchesSector(r, secteurFiltre) && MatchesPerformance(r.variationPct, f)
  }

  /** The column a `Tri` sorts on. */
  function SortKey(tri: Tri): Snapshot -> real {
    match tri
    case ParVariation => (r: Snapshot) => r.variationPct
    case ParVolume => (r: Snapshot) => r.volume as real
    case ParCapitalisation => (r: Snapshot) => r.marketCap
    case ParPoids => (r: Snapshot) => r.poidsCac40
  }

  /** The rows of the price table before sorting: both masks in one. */
  function FilteredTable(rows: seq<Snapshot>, secteurFiltre: string, f: PerformanceFiltre): seq<Snapshot> {
    Filter(rows, (r: Snapshot) => KeepsRow(r, secteurFiltre, f))
  }

  /** The sector mask of the price table: rows of exactly that sector. */
  function SectorMask(secteurFiltre: string): Snapshot -> bool {
    (r: Snapshot) => r.secteur == secteurFiltre
  }

  /** The mask on `variation_pct` that a performance choice other than 'Tous' applies. */
  function PerformanceMask(f: PerformanceFiltre): Snapshot -> bool {
    (r: Snapshot) => MatchesPerformance(r.variationPct, f)
  }

  /**
   * Applying the sector mask (unless 'Tous') and then the performance mask
   * (unless 'Tous') one after the other keeps exactly the rows of the
   * price table, in their order.
   */
  lemma PriceTableMasks(rows: seq<Snapshot>, secteurFiltre: string, f: PerformanceFiltre)
    ensures (var bySector := if secteurFiltre != TousLesSecteurs then Filter(rows, SectorMask(secteurFiltre)) else rows;
             if f != Tous then Filter(bySector, PerformanceMask(f)) else bySector)
         == FilteredTable(rows, secteurFiltre, f)
  {
    var sectorOk := (r: Snapshot) => MatchesSector(r, secteurFiltre);
    var keeps := (r: Snapshot) => KeepsRow(r, secteurFiltre, f);
    if secteurFiltre != TousLesSecteurs {
      FilterExt(rows, SectorMask(secteurFiltre), sectorOk);
    } else {
      FilterAll(rows, sectorOk);
    }
    if f != Tous {
      FilterCompose(rows, sectorOk, PerformanceMask(f), keeps);
    } else {
      FilterExt(rows, sectorOk, keeps);
    }
  }

  /** Filtering a table that is already filtered with the same choices returns it unchanged. */
  lemma FilteredTableIdempotent(rows: seq<Snapshot>, secteurFiltre: string, f: PerformanceFiltre)
    ensures FilteredTable(FilteredTable(rows, secteurFiltre, f), secteurFiltre, f) == FilteredTable(rows, secteurFiltre, f)
  {
    FilterIdempotent(rows, (r: Snapshot) => KeepsRow(r, secteurFiltre, f));
  }

  /** The screener's inputs; `maxVolatilite` is read from its widget and never used. */
  datatype Criteres = Criteres(
    minMarketCap: int,       // billions of euros
    minDividende: real,      // percent
    maxVolatilite: int,      // percent
    secteurs: seq<string>,   // the multiselect; empty means every sector
    minPerformance: real)    // percent

  /** The conjunction of the screener's masks. */
  predicate PassesScreener(r: Snapshot, c: Criteres) {
    && r.marketCap >= (c.minMarketCap as real) * 1000000000.0
    && r.dividendeYield >= c.minDividende
    && r.variationPct >= c.minPerformance
    && (c.secteurs == [] || r.secteur in c.secteurs)
  }

  function ScreenerTable(rows: seq<Snapshot>, c: Criteres): seq<Snapshot> {
    Filter(rows, (r: Snapshot) => PassesScreener(r, c))
  }

  function CapMask(c: Criteres): Snapshot -> bool {
    (r: Snapshot) => r.marketCap >= (c.minMarketCap as real) * 1000000000.0
  }

  function DividendMask(c: Criteres): Snapshot -> bool {
    (r: Snapshot) => r.dividendeYield >= c.minDividende
  }

  function PerformanceFloorMask(c: Criteres): Snapshot -> bool {
    (r: Snapshot) => r.variationPct >= c.minPerformance
  }

  /** The screener's sector mask: rows whose sector is one of the selected ones. */
  function SectorsMask(c: Criteres): Snapshot -> bool {
    (r: Snapshot) => r.secteur in c.secteurs
  }

  /**
   * The screener's four masks applied one after the other, the sector one
   * only when sectors are selected, keep exactly the rows that pass every
   * criterion, in their order.
   */
  lemma ScreenerMasks(rows: seq<Snapshot>, c: Criteres)
    ensures (var thresholds := Filter(Filter(Filter(rows, CapMask(c)), DividendMask(c)), PerformanceFloorMask(c));
             if c.secteurs != [] then Filter(thresholds, SectorsMask(c)) else thresholds)
         == ScreenerTable(rows, c)
  {
    var capDiv := (r: Snapshot) => CapMask(c)(r) && DividendMask(c)(r);
    var thresholds := (r: Snapshot) => capDiv(r) && PerformanceFloorMask(c)(r);
    FilterCompose(rows, CapMask(c), DividendMask(c), capDiv);
    FilterCompose(rows, capDiv, PerformanceFloorMask(c), thresholds);
    if c.secteurs != [] {
      FilterCompose(rows, thresholds, SectorsMask(c), (r: Snapshot) => PassesScreener(r, c));
    } else {
      FilterExt(rows, thresholds, (r: Snapshot) => PassesScreener(r, c));
    }
  }

  /** Screening the screener's own result again changes nothing. */
  lemma ScreenerIdempotent(rows: seq<Snapshot>, c: Criteres)
    ensures ScreenerTable(ScreenerTable(rows, c), c) == ScreenerTable(rows, c)
  {
    FilterIdempotent(rows, (r: Snapshot) => PassesScreener(r, c));
  }

  /** The maximum-volatility input has no effect on the result. */
  lemma ScreenerIgnoresVolatility(rows: seq<Snapshot>, c: Criteres, v: int)
    ensures ScreenerTable(rows, c.(maxVolatilite := v)) == ScreenerTable(rows, c)
  {
    var c' := c.(maxVolatilite := v);
    forall r | r in rows ensures PassesScreener(r, c') == PassesScreener(r, c) {
    }
    FilterExt(rows, (r: Snapshot) => PassesScreener(r, c'), (r: Snapshot) => PassesScreener(r, c));
  }

  /** With every threshold at its loosest, the screener keeps every row. */
  lemma ScreenerLoosest(rows: seq<Snapshot>, c: Criteres)
    requires c.minMarketCap <= 0 && c.secteurs == []
    requires forall k :: 0 <= k < |rows| ==>
               rows[k].marketCap >= 0.0 && rows[k].dividendeYield >= c.minDividende && rows[k].variationPct >= c.minPerformance
    ensures ScreenerTable(rows, c) == rows
  {
    forall r | r in rows ensures PassesScreener(r, c) {
      var k :| 0 <= k < |rows| && rows[k] == r;
    }
    FilterAll(rows, (r: Snapshot) => PassesScreener(r, c));
  }

  /** The CSS class of a row's change badge. */
  function ChangeClass(v: real): string {
    if v > 0.0 then "positive" else if v < 0.0 then "negative" else "neutral"
  }

  /** The badge colour and the performance filter classify a change the same way. */
  lemma ChangeClassAgreesWithFilter(v: real)
    ensures ChangeClass(v) == "positive" <==> MatchesPerformance(v, EnHausse)
    ensures ChangeClass(v) == "negative" <==> MatchesPerformance(v, EnBaisse)
    ensures ChangeClass(v) == "neutral" <==> MatchesPerformance(v, Stable)
  {
  }

  /** The number of rows whose change is strictly positive. */
  function HausseCount(rows: seq<Snapshot>): nat {
    |Filter(rows, (r: Snapshot) => r.variationPct > 0.0)|
  }

  /** The "vs baisse" delta: rising companies minus all the others. */
  function HausseBalance(rows: seq<Snapshot>): int {
    HausseCount(rows) - (|rows| - HausseCount(rows))
  }

  /**
   * Every row is rising, falling or stable, and only one of these: the
   * three performance filters partition the table.
   */
  lemma PerformancePartition(rows: seq<Snapshot>)
    ensures |FilteredTable(rows, TousLesSecteurs, EnHausse)| + |FilteredTable(rows, TousLesSecteurs, EnBaisse)|
          + |FilteredTable(rows, TousLesSecteurs, Stable)| == |rows|
  {
    FilterPartitionThree(rows, (r: Snapshot) => KeepsRow(r, TousLesSecteurs, EnHausse),
                         (r: Snapshot) => KeepsRow(r, TousLesSecteurs, EnBaisse),
                         (r: Snapshot) => KeepsRow(r, TousLesSecteurs, Stable));
  }

  /** The rising count is the size of the 'En hausse' view of the whole table. */
  lemma HausseCountIsRisingView(rows: seq<Snapshot>)
    ensures HausseCount(rows) == |FilteredTable(rows, TousLesSecteurs, EnHausse)|
  {
    FilterExt(rows, (r: Snapshot) => r.variationPct > 0.0, (r: Snapshot) => KeepsRow(r, TousLesSecteurs, EnHausse));
  }

  /** The delta shown beside the rising count is rising minus falling minus stable. */
  lemma HausseBalanceCounts(rows: seq<Snapshot>)
    ensures HausseBalance(rows) == |FilteredTable(rows, TousLesSecteurs, EnHausse)|
                                 - |FilteredTable(rows, TousLesSecteurs, EnBaisse)|
                                 - |FilteredTable(rows, TousLesSecteurs, Stable)|
  {
    HausseCountIsRisingView(rows);
    PerformancePartition(rows);
  }

  /**
   * Three rows at +2 %, +5 % and -1 % sorted on the change come out as the
   * +5 % row, the +2 % row, then the -1 % row, whatever their other columns.
   */
  lemma SortFixture(a: Snapshot, b: Snapshot, c: Snapshot)
    requires a.variationPct == 2.0 && b.variationPct == 5.0 && c.variationPct == -1.0
    ensures SortDesc([a, b, c], SortKey(ParVariation)) == [b, a, c]
  {
    var key := SortKey(ParVariation);
    ThreeRowsOrdered(a, b, c, SortDesc([a, b, c], key), key);
  }

  /** Any descending arrangement of three rows with distinct keys b > a > c is b, a, c. */
  lemma ThreeRowsOrdered<T>(a: T, b: T, c: T, sorted: seq<T>, key: T -> real)
    requires key(b) > key(a) > key(c)
    requires multiset(sorted) == multiset([a, b, c]) && SortedDesc(sorted, key)
    ensures sorted == [b, a, c]
  {
    assert multiset([b, a, c]) == multiset([a, b, c]);
    OnlyTheThree(a, b, c, sorted);
    assert SortedDesc([b, a, c], key);
    SortedPermutationsAgree(sorted, [b, a, c], key);
  }

  lemma OnlyTheThree<T>(a: T, b: T, c: T, sorted: seq<T>)
    requires multiset(sorted) == multiset([a, b, c])
    ensures forall i :: 0 <= i < |sorted| ==> sorted[i] == a || sorted[i] == b || sorted[i] == c
  {
    forall i | 0 <= i < |sorted| ensures sorted[i] == a || sorted[i] == b || sorted[i] == c {
      assert sorted[i] in multiset([a, b, c]);
    }
  }
}
