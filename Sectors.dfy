/**
 * The sector aggregator (`initialize_sector_data`): per sector of the
 * catalog, its index weight and member count (from the catalog) and its
 * total market cap and mean performance (from the current-data rows).
 */
module Sectors {
  import opened Catalog
  import opened Market

  datatype SectorSummary = SectorSummary(
    secteur: string,
    poidsCac40: real,
    marketCapTotal: real,
    nombreEntreprises: nat,
    performanceMoyenne: real)

  /** The total market capitalisation of the rows whose symbol is `t`. */
  function CapOfSymbol(rows: seq<Snapshot>, t: string): real
    decreases |rows|
  {
    if rows == [] then 0.0
    else CapOfSymbol(rows[..|rows| - 1], t) + (if rows[|rows| - 1].symbole == t then rows[|rows| - 1].marketCap else 0.0)
  }

  /**
   * The sector's market-cap total, summed per catalog ticker of the
   * sector (not per row), as the source does.
   */
  function SectorCap(cat: seq<Instrument>, rows: seq<Snapshot>, s: string): real
    decreases |cat|
  {
    if cat == [] then 0.0
    else SectorCap(cat[..|cat| - 1], rows, s) + (if cat[|cat| - 1].secteur == s then CapOfSymbol(rows, cat[|cat| - 1].ticker) else 0.0)
  }

  /** Sum of the market caps of the rows of sector `s`: the reference definition of a sector total. */
  function LiveSectorCap(rows: seq<Snapshot>, s: string): real
    decreases |rows|
  {
    if rows == [] then 0.0
    else LiveSectorCap(rows[..|rows| - 1], s) + (if rows[|rows| - 1].secteur == s then rows[|rows| - 1].marketCap else 0.0)
  }

  /** Number of rows of sector `s`. */
  function CountRows(rows: seq<Snapshot>, s: string): nat
    decreases |rows|
  {
    if rows == [] then 0
    else CountRows(rows[..|rows| - 1], s) + (if rows[|rows| - 1].secteur == s then 1 else 0)
  }

  /** Sum of the percentage changes of the rows of sector `s`. */
  function SumPerformance(rows: seq<Snapshot>, s: string): real
    decreases |rows|
  {
    if rows == [] then 0.0
    else SumPerformance(rows[..|rows| - 1], s) + (if rows[|rows| - 1].secteur == s then rows[|rows| - 1].variationPct else 0.0)
  }

  /** The mean change of the sector's rows, or 0 when the sector has no row. */
  function MeanPerformance(rows: seq<Snapshot>, s: string): real {
    if CountRows(rows, s) == 0 then 0.0 else SumPerformance(rows, s) / (CountRows(rows, s) as real)
  }

  /** The summary row the source appends for sector `s`. */
  function SectorRow(cat: seq<Instrument>, rows: seq<Snapshot>, s: string): SectorSummary {
    SectorSummary(s, SumWeights(cat, s), SectorCap(cat, rows, s), CountSector(cat, s), MeanPerformance(rows, s))
  }

  /**
   * `data` lists every sector of `sectors` exactly once, in some order,
   * each with its summary row.
   */
  ghost predicate SectorTableFor(cat: seq<Instrument>, rows: seq<Snapshot>, data: seq<SectorSummary>, sectors: set<string>) {
    && (forall k :: 0 <= k < |data| ==> data[k].secteur in sectors)
    && (forall s :: s in sectors ==> exists k :: 0 <= k < |data| && data[k].secteur == s)
    && (forall j, k :: 0 <= j < k < |data| ==> data[j].secteur != data[k].secteur)
    && (forall k :: 0 <= k < |data| ==> data[k] == SectorRow(cat, rows, data[k].secteur))
  }

  /** The sector table: every sector of the catalog (the source iterates over a Python set). */
  ghost predicate SectorTable(cat: seq<Instrument>, rows: seq<Snapshot>, data: seq<SectorSummary>) {
    SectorTableFor(cat, rows, data, SectorsOf(cat))
  }

  /**
   * `data` names every sector of the catalog exactly once, each with its
   * catalog weight and company count: what the sector table promises
   * whatever the live rows were.
   */
  ghost predicate SectorsListed(cat: seq<Instrument>, data: seq<SectorSummary>) {
    && (forall k :: 0 <= k < |data| ==> data[k].secteur in SectorsOf(cat))
    && (forall s :: s in SectorsOf(cat) ==> exists k :: 0 <= k < |data| && data[k].secteur == s)
    && (forall j, k :: 0 <= j < k < |data| ==> data[j].secteur != data[k].secteur)
    && (forall k :: 0 <= k < |data| ==> data[k].poidsCac40 == SumWeights(cat, data[k].secteur))
    && (forall k :: 0 <= k < |data| ==> data[k].nombreEntreprises == CountSector(cat, data[k].secteur))
  }

  /** A sector table lists the catalog's sectors, whatever the live rows it was built from. */
  lemma SectorTableListsSectors(cat: seq<Instrument>, rows: seq<Snapshot>, data: seq<SectorSummary>)
    requires SectorTable(cat, rows, data)
    ensures SectorsListed(cat, data)
  {
    forall k | 0 <= k < |data|
      ensures data[k].poidsCac40 == SumWeights(cat, data[k].secteur)
      ensures data[k].nombreEntreprises == CountSector(cat, data[k].secteur)
    {
      assert data[k] == SectorRow(cat, rows, data[k].secteur);
    }
  }

  /** Appending the row of a sector not yet listed extends the table to that sector. */
  lemma SectorTableExtend(cat: seq<Instrument>, rows: seq<Snapshot>, data: seq<SectorSummary>, sectors: set<string>, s: string)
    requires SectorTableFor(cat, rows, data, sectors) && s !in sectors
    ensures SectorTableFor(cat, rows, data + [SectorRow(cat, rows, s)], sectors + {s})
  {
    var data' := data + [SectorRow(cat, rows, s)];
    forall t | t in sectors + {s} ensures exists k :: 0 <= k < |data'| && data'[k].secteur == t {
      if t == s {
        assert data'[|data|].secteur == t;
      } else {
        var k :| 0 <= k < |data| && data[k].secteur == t;
        assert data'[k] == data[k];
      }
    }
  }

  /** The sectors of the table's rows, in table order. */
  function Secteurs(data: seq<SectorSummary>): (r: seq<string>)
    ensures |r| == |data| && forall k :: 0 <= k < |data| ==> r[k] == data[k].secteur
  {
    seq(|data|, k requires 0 <= k < |data| => data[k].secteur)
  }

  /** Sum of the `nombreEntreprises` column. */
  function TotalCount(data: seq<SectorSummary>): nat
    decreases |data|
  {
    if data == [] then 0 else TotalCount(data[..|data| - 1]) + data[|data| - 1].nombreEntreprises
  }

  /** Sum of the `poidsCac40` column. */
  function TotalSectorWeight(data: seq<SectorSummary>): real
    decreases |data|
  {
    if data == [] then 0.0 else TotalSectorWeight(data[..|data| - 1]) + data[|data| - 1].poidsCac40
  }

  /** Rows taken from the catalog sum, column by column, to the catalog's per-sector sums. */
  lemma {:induction false} SummedRowsFollowCatalog(cat: seq<Instrument>, data: seq<SectorSummary>)
    requires forall k :: 0 <= k < |data| ==> data[k].poidsCac40 == SumWeights(cat, data[k].secteur)
    requires forall k :: 0 <= k < |data| ==> data[k].nombreEntreprises == CountSector(cat, data[k].secteur)
    ensures TotalCount(data) == SumCounts(cat, Secteurs(data))
    ensures TotalSectorWeight(data) == SumSectorWeights(cat, Secteurs(data))
    decreases |data|
  {
    if data != [] {
      var init := data[..|data| - 1];
      assert forall k :: 0 <= k < |init| ==> init[k] == data[k];
      SummedRowsFollowCatalog(cat, init);
      assert Secteurs(data)[..|data| - 1] == Secteurs(init);
    }
  }

  /**
   * A table listing the catalog's sectors partitions the catalog: its
   * company counts add up to the number of catalog companies and its
   * weights to the catalog's total weight.
   */
  lemma SectorTablePartitionsCatalog(cat: seq<Instrument>, data: seq<SectorSummary>)
    requires SectorsListed(cat, data)
    ensures TotalCount(data) == |cat|
    ensures TotalSectorWeight(data) == TotalWeight(cat)
  {
    SummedRowsFollowCatalog(cat, data);
    var ss := Secteurs(data);
    forall i | 0 <= i < |cat| ensures cat[i].secteur in ss {
      assert cat[i].secteur in SectorsOf(cat);
      var k :| 0 <= k < |data| && data[k].secteur == cat[i].secteur;
      assert ss[k] == cat[i].secteur;
    }
    SectorsPartitionCatalog(cat, ss);
  }

  // ---------------------------------------------------------------------
  // Market-cap totals come from the live rows only

  lemma {:induction false} CapOfSymbolConcat(a: seq<Snapshot>, b: seq<Snapshot>, t: string)
    ensures CapOfSymbol(a + b, t) == CapOfSymbol(a, t) + CapOfSymbol(b, t)
    decreases |b|
  {
    if b == [] {
      assert a + b == a;
    } else {
      assert (a + b)[..|a + b| - 1] == a + b[..|b| - 1];
      CapOfSymbolConcat(a, b[..|b| - 1], t);
    }
  }

  lemma {:induction false} CapOfSymbolAbsent(rows: seq<Snapshot>, t: string)
    requires !HasRowFor(rows, t)
    ensures CapOfSymbol(rows, t) == 0.0
    decreases |rows|
  {
    if rows != [] {
      CapOfSymbolAbsent(rows[..|rows| - 1], t);
    }
  }

  lemma {:induction false} SectorCapConcatRows(cat: seq<Instrument>, a: seq<Snapshot>, b: seq<Snapshot>, s: string)
    ensures SectorCap(cat, a + b, s) == SectorCap(cat, a, s) + SectorCap(cat, b, s)
    decreases |cat|
  {
    if cat != [] {
      SectorCapConcatRows(cat[..|cat| - 1], a, b, s);
      CapOfSymbolConcat(a, b, cat[|cat| - 1].ticker);
    }
  }

  lemma {:induction false} SectorCapAbsent(cat: seq<Instrument>, rows: seq<Snapshot>, s: string)
    requires forall i :: 0 <= i < |cat| ==> !HasRowFor(rows, cat[i].ticker)
    ensures SectorCap(cat, rows, s) == 0.0
    decreases |cat|
  {
    if cat != [] {
      var init := cat[..|cat| - 1];
      assert forall i :: 0 <= i < |init| ==> init[i] == cat[i];
      SectorCapAbsent(init, rows, s);
      CapOfSymbolAbsent(rows, cat[|cat| - 1].ticker);
    }
  }

  lemma {:induction false} LiveSectorCapConcat(a: seq<Snapshot>, b: seq<Snapshot>, s: string)
    ensures LiveSectorCap(a + b, s) == LiveSectorCap(a, s) + LiveSectorCap(b, s)
    decreases |b|
  {
    if b == [] {
      assert a + b == a;
    } else {
      assert (a + b)[..|a + b| - 1] == a + b[..|b| - 1];
      LiveSectorCapConcat(a, b[..|b| - 1], s);
    }
  }

  lemma {:induction false} CountRowsConcat(a: seq<Snapshot>, b: seq<Snapshot>, s: string)
    ensures CountRows(a + b, s) == CountRows(a, s) + CountRows(b, s)
    decreases |b|
  {
    if b == [] {
      assert a + b == a;
    } else {
      assert (a + b)[..|a + b| - 1] == a + b[..|b| - 1];
      CountRowsConcat(a, b[..|b| - 1], s);
    }
  }

  /**
   * Summing per catalog ticker, as the source does, gives the sum of the
   * market caps of the live rows of the sector: a company without data
   * contributes nothing.
   */
  lemma {:induction false} SectorCapIsLiveSum(cat: seq<Instrument>, p: Provider, s: string)
    requires OpenPricesNonZero(cat, p) && TickersDistinct(cat)
    ensures SectorCap(cat, CurrentTable(cat, p), s) == LiveSectorCap(CurrentTable(cat, p), s)
    decreases |cat|
  {
    var n := |cat|;
    if n > 0 {
      var init := cat[..n - 1];
      var last := cat[n - 1];
      assert forall i :: 0 <= i < |init| ==> init[i] == cat[i];
      var before := CurrentTable(init, p);
      var tail := if HasData(p, last.ticker) then [SnapshotOf(last, p[last.ticker])] else [];
      var rows := CurrentTable(cat, p);
      assert rows == before + tail;
      SectorCapIsLiveSum(init, p, s);
      SectorCapConcatRows(init, before, tail, s);
      assert SectorCap(init, tail, s) == 0.0 by {
        forall i | 0 <= i < |init| ensures !HasRowFor(tail, init[i].ticker) {
          assert init[i].ticker != last.ticker;
        }
        SectorCapAbsent(init, tail, s);
      }
      CapOfSymbolConcat(before, tail, last.ticker);
      assert CapOfSymbol(before, last.ticker) == 0.0 by {
        RowPresentIffData(init, p, last.ticker);
        assert !HasTicker(init, last.ticker);
        CapOfSymbolAbsent(before, last.ticker);
      }
      LiveSectorCapConcat(before, tail, s);
      assert SectorCap(cat, rows, s) == SectorCap(init, rows, s) + (if last.secteur == s then CapOfSymbol(rows, last.ticker) else 0.0);
    }
  }

  // ---------------------------------------------------------------------
  // Live row counts and mean performance

  lemma {:induction false} CountRowsAtMostCatalog(cat: seq<Instrument>, p: Provider, s: string)
    requires OpenPricesNonZero(cat, p)
    ensures CountRows(CurrentTable(cat, p), s) <= CountSector(cat, s)
    ensures CountRows(CurrentTable(cat, p), s) == 0 <==>
              forall i :: 0 <= i < |cat| && cat[i].secteur == s ==> !HasData(p, cat[i].ticker)
    decreases |cat|
  {
    var n := |cat|;
    if n > 0 {
      var init := cat[..n - 1];
      var last := cat[n - 1];
      assert forall i :: 0 <= i < |init| ==> init[i] == cat[i];
      CountRowsAtMostCatalog(init, p, s);
      var before := CurrentTable(init, p);
      var tail := if HasData(p, last.ticker) then [SnapshotOf(last, p[last.ticker])] else [];
      var rows := CurrentTable(cat, p);
      assert rows == before + tail;
      CountRowsConcat(before, tail, s);
      assert tail != [] ==> tail[0].secteur == last.secteur;
    }
  }

  /** `n` copies of `x` added up. */
  function Times(n: nat, x: real): real {
    if n == 0 then 0.0 else Times(n - 1, x) + x
  }

  lemma {:induction false} TimesIsProduct(n: nat, x: real)
    ensures Times(n, x) == (n as real) * x
  {
    if n > 0 {
      TimesIsProduct(n - 1, x);
      assert (n as real) * x == ((n - 1) as real) * x + x;
    }
  }

  lemma {:induction false} SumPerformanceBounds(rows: seq<Snapshot>, s: string, lo: real, hi: real)
    requires forall k :: 0 <= k < |rows| && rows[k].secteur == s ==> lo <= rows[k].variationPct <= hi
    ensures Times(CountRows(rows, s), lo) <= SumPerformance(rows, s) <= Times(CountRows(rows, s), hi)
    decreases |rows|
  {
    var n := |rows|;
    if n > 0 {
      var init := rows[..n - 1];
      assert forall k :: 0 <= k < |init| ==> init[k] == rows[k];
      SumPerformanceBounds(init, s, lo, hi);
    }
  }

  /** The mean lies between bounds that every row of the sector respects. */
  lemma MeanPerformanceBounds(rows: seq<Snapshot>, s: string, lo: real, hi: real)
    requires CountRows(rows, s) > 0
    requires forall k :: 0 <= k < |rows| && rows[k].secteur == s ==> lo <= rows[k].variationPct <= hi
    ensures lo <= MeanPerformance(rows, s) <= hi
  {
    SumPerformanceBounds(rows, s, lo, hi);
    QuotientBounds(SumPerformance(rows, s), CountRows(rows, s), lo, hi);
  }

  /** A total of `n` values between `lo` and `hi`, divided by `n`, lies between them too. */
  lemma QuotientBounds(total: real, n: nat, lo: real, hi: real)
    requires n > 0 && Times(n, lo) <= total <= Times(n, hi)
    ensures lo <= total / (n as real) <= hi
  {
    TimesIsProduct(n, lo);
    TimesIsProduct(n, hi);
    var c := n as real;
    var m := total / c;
    assert m * c == total;
    assert (m - lo) * c == total - c * lo;
    assert (hi - m) * c == c * hi - total;
    assert m - lo < 0.0 ==> (m - lo) * c < 0.0;
    assert hi - m < 0.0 ==> (hi - m) * c < 0.0;
  }

  /**
   * The summary of a sector none of whose companies has data: its weight
   * and count still come from the catalog, its market-cap total and mean
   * performance are 0.
   */
  lemma SectorWithoutLiveData(cat: seq<Instrument>, p: Provider, s: string)
    requires OpenPricesNonZero(cat, p) && TickersDistinct(cat)
    requires forall i :: 0 <= i < |cat| && cat[i].secteur == s ==> !HasData(p, cat[i].ticker)
    ensures SectorRow(cat, CurrentTable(cat, p), s) == SectorSummary(s, SumWeights(cat, s), 0.0, CountSector(cat, s), 0.0)
  {
    var rows := CurrentTable(cat, p);
    CountRowsAtMostCatalog(cat, p, s);
    SectorCapIsLiveSum(cat, p, s);
    LiveSectorCapNoRows(rows, s);
  }

  lemma {:induction false} LiveSectorCapNoRows(rows: seq<Snapshot>, s: string)
    requires CountRows(rows, s) == 0
    ensures LiveSectorCap(rows, s) == 0.0
    decreases |rows|
  {
    if rows != [] { LiveSectorCapNoRows(rows[..|rows| - 1], s); }
  }
}
