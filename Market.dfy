/**
 * The snapshot aggregator (`initialize_current_data`): one row of live
 * data per catalog company for which the market-data provider returned a
 * non-empty price history.
 */
module Market {
  import opened Wrappers
  import opened Catalog

  /** One daily OHLCV bar of a price history. */
  datatype Bar = Bar(open: real, high: real, low: real, close: real, volume: int)

  /** The fundamentals record (`stock.info`); a key may be missing. */
  datatype Info = Info(marketCap: Option<real>, dividendYield: Option<real>)

  /** What the provider returned for one ticker: its history and, maybe, its info. */
  datatype Fetch = Fetch(hist: seq<Bar>, info: Option<Info>)

  /**
   * The provider's answers for one refresh. A ticker absent from the map is
   * one whose download raised, which `get_yfinance_data` reports as no
   * history and no info.
   */
  type Provider = map<string, Fetch>

  /** Whether the provider returned a non-empty history for `t`. */
  predicate HasData(p: Provider, t: string) {
    t in p && |p[t].hist| > 0
  }

  /** The last bar of the history: the most recent session. */
  function Latest(f: Fetch): Bar
    requires |f.hist| > 0
  {
    f.hist[|f.hist| - 1]
  }

  /** One row of the current-data table. */
  datatype Snapshot = Snapshot(
    symbole: string,
    nomComplet: string,
    secteur: string,
    prixActuel: real,
    variationPct: real,
    variationAbs: real,
    volume: int,
    marketCap: real,
    dividendeYield: real,
    poidsCac40: real,
    ouverture: real,
    plusHaut: real,
    plusBas: real)

  /** The provider's market capitalisation; 0 when the info record or its key is missing. */
  function MarketCapOf(info: Option<Info>): real {
    if info.Some? then info.value.marketCap.GetOr(0.0) else 0.0
  }

  /** The dividend yield as a percentage; 0 when the record or key is missing or the yield is 0. */
  function DividendYieldOf(info: Option<Info>): real {
    if info.Some? && info.value.dividendYield.Some? && info.value.dividendYield.value != 0.0
    then info.value.dividendYield.value * 100.0
    else 0.0
  }

  /**
   * The row built from a company's catalog entry and the provider's answer.
   * The source divides by the opening price without a guard, so a zero
   * opening price is excluded.
   */
  function SnapshotOf(inst: Instrument, f: Fetch): (r: Snapshot)
    requires |f.hist| > 0 && Latest(f).open != 0.0
    ensures r.symbole == inst.ticker && r.nomComplet == inst.nomComplet
    ensures r.secteur == inst.secteur && r.poidsCac40 == inst.poidsCac40
    ensures r.prixActuel == Latest(f).close && r.ouverture == Latest(f).open
    ensures r.plusHaut == Latest(f).high && r.plusBas == Latest(f).low && r.volume == Latest(f).volume
    // the absolute change is what the price moved since the open
    ensures r.ouverture + r.variationAbs == r.prixActuel
    // the percentage change expresses that move relative to the open
    ensures r.variationPct * r.ouverture == 100.0 * r.variationAbs
    ensures r.ouverture > 0.0 ==>
              (r.variationPct > 0.0 <==> r.prixActuel > r.ouverture) &&
              (r.variationPct < 0.0 <==> r.prixActuel < r.ouverture)
    ensures r.variationPct == 0.0 <==> r.prixActuel == r.ouverture
    // market cap: the provider's value when there is one, else 0
    ensures (f.info.Some? && f.info.value.marketCap.Some?) ==> r.marketCap == f.info.value.marketCap.value
    ensures (f.info.None? || f.info.value.marketCap.None?) ==> r.marketCap == 0.0
    // dividend yield: a percentage, 0 unless the provider gives a nonzero fraction
    ensures r.dividendeYield != 0.0 <==>
              f.info.Some? && f.info.value.dividendYield.Some? && f.info.value.dividendYield.value != 0.0
    ensures r.dividendeYield != 0.0 ==> r.dividendeYield == 100.0 * f.info.value.dividendYield.value
  {
    var latest := Latest(f);
    var variationAbs := latest.close - latest.open;
    var variationPct := (variationAbs / latest.open) * 100.0;
    Snapshot(inst.ticker, inst.nomComplet, inst.secteur, latest.close, variationPct, variationAbs,
             latest.volume, MarketCapOf(f.info), DividendYieldOf(f.info), inst.poidsCac40,
             latest.open, latest.high, latest.low)
  }

  /** Every company of the catalog that has data has a nonzero opening price. */
  ghost predicate OpenPricesNonZero(cat: seq<Instrument>, p: Provider) {
    forall i :: 0 <= i < |cat| && HasData(p, cat[i].ticker) ==> Latest(p[cat[i].ticker]).open != 0.0
  }

  /** The current-data table: the catalog walked in order, companies without data skipped. */
  ghost function CurrentTable(cat: seq<Instrument>, p: Provider): seq<Snapshot>
    requires OpenPricesNonZero(cat, p)
    decreases |cat|
  {
    if cat == [] then []
    else
      var last := cat[|cat| - 1];
      CurrentTable(cat[..|cat| - 1], p) + (if HasData(p, last.ticker) then [SnapshotOf(last, p[last.ticker])] else [])
  }

  /** The catalog positions of the companies that have data, in increasing order. */
  ghost function DataIndices(cat: seq<Instrument>, p: Provider): seq<nat>
    decreases |cat|
  {
    if cat == [] then []
    else DataIndices(cat[..|cat| - 1], p) + (if HasData(p, cat[|cat| - 1].ticker) then [|cat| - 1] else [])
  }

  /** Whether some row of `rows` is the row of ticker `t`. */
  ghost predicate HasRowFor(rows: seq<Snapshot>, t: string) {
    exists k :: 0 <= k < |rows| && rows[k].symbole == t
  }

  /**
   * The current table holds exactly one row per catalog company with data,
   * in catalog order: its k-th row is the snapshot of the k-th such company.
   */
  lemma CurrentTableInCatalogOrder(cat: seq<Instrument>, p: Provider)
    requires OpenPricesNonZero(cat, p)
    ensures |DataIndices(cat, p)| == |CurrentTable(cat, p)|
    ensures forall k :: 0 <= k < |DataIndices(cat, p)| ==>
              var i := DataIndices(cat, p)[k];
              i < |cat| && HasData(p, cat[i].ticker) && CurrentTable(cat, p)[k] == SnapshotOf(cat[i], p[cat[i].ticker])
    ensures forall k1, k2 :: 0 <= k1 < k2 < |DataIndices(cat, p)| ==> DataIndices(cat, p)[k1] < DataIndices(cat, p)[k2]
    ensures forall i :: 0 <= i < |cat| && HasData(p, cat[i].ticker) ==> i in DataIndices(cat, p)
  {
    RowsAreSnapshots(cat, p);
    IndicesIncreasing(cat, p);
    IndicesComplete(cat, p);
  }

  lemma {:induction false} RowsAreSnapshots(cat: seq<Instrument>, p: Provider)
    requires OpenPricesNonZero(cat, p)
    ensures |DataIndices(cat, p)| == |CurrentTable(cat, p)|
    ensures forall k :: 0 <= k < |DataIndices(cat, p)| ==>
              var i := DataIndices(cat, p)[k];
              i < |cat| && HasData(p, cat[i].ticker) && CurrentTable(cat, p)[k] == SnapshotOf(cat[i], p[cat[i].ticker])
    decreases |cat|
  {
    var n := |cat|;
    if n > 0 {
      var init := cat[..n - 1];
      assert OpenPricesNonZero(init, p) by {
        forall i | 0 <= i < |init| ensures init[i] == cat[i] { }
      }
      RowsAreSnapshots(init, p);
      var idx, rows := DataIndices(cat, p), CurrentTable(cat, p);
      var idx0, rows0 := DataIndices(init, p), CurrentTable(init, p);
      forall k | 0 <= k < |idx|
        ensures idx[k] < n && HasData(p, cat[idx[k]].ticker) && rows[k] == SnapshotOf(cat[idx[k]], p[cat[idx[k]].ticker])
      {
        if k < |idx0| {
          assert idx[k] == idx0[k] && rows[k] == rows0[k];
          assert init[idx0[k]] == cat[idx0[k]];
        }
      }
    }
  }

  lemma {:induction false} IndicesBelow(cat: seq<Instrument>, p: Provider)
    ensures forall k :: 0 <= k < |DataIndices(cat, p)| ==> DataIndices(cat, p)[k] < |cat|
    decreases |cat|
  {
    if cat != [] { IndicesBelow(cat[..|cat| - 1], p); }
  }

  lemma {:induction false} IndicesIncreasing(cat: seq<Instrument>, p: Provider)
    ensures forall k1, k2 :: 0 <= k1 < k2 < |DataIndices(cat, p)| ==> DataIndices(cat, p)[k1] < DataIndices(cat, p)[k2]
    decreases |cat|
  {
    var n := |cat|;
    if n > 0 {
      var init := cat[..n - 1];
      IndicesIncreasing(init, p);
      IndicesBelow(init, p);
      var idx, idx0 := DataIndices(cat, p), DataIndices(init, p);
      forall k1, k2 | 0 <= k1 < k2 < |idx| ensures idx[k1] < idx[k2] {
        assert idx[k1] == idx0[k1];
      }
    }
  }

  lemma {:induction false} IndicesComplete(cat: seq<Instrument>, p: Provider)
    ensures forall i :: 0 <= i < |cat| && HasData(p, cat[i].ticker) ==> i in DataIndices(cat, p)
    decreases |cat|
  {
    var n := |cat|;
    if n > 0 {
      var init := cat[..n - 1];
      IndicesComplete(init, p);
      forall i | 0 <= i < n && HasData(p, cat[i].ticker) ensures i in DataIndices(cat, p) {
        if i < n - 1 {
          assert init[i] == cat[i];
        }
      }
    }
  }

  /** A ticker has a row exactly when it is in the catalog and the provider returned data for it. */
  lemma RowPresentIffData(cat: seq<Instrument>, p: Provider, t: string)
    requires OpenPricesNonZero(cat, p)
    ensures HasRowFor(CurrentTable(cat, p), t) <==> HasTicker(cat, t) && HasData(p, t)
  {
    CurrentTableInCatalogOrder(cat, p);
    var rows, idx := CurrentTable(cat, p), DataIndices(cat, p);
    if HasRowFor(rows, t) {
      var k :| 0 <= k < |rows| && rows[k].symbole == t;
      assert cat[idx[k]].ticker == t;
    }
    if HasTicker(cat, t) && HasData(p, t) {
      var i :| 0 <= i < |cat| && cat[i].ticker == t;
      var k :| 0 <= k < |idx| && idx[k] == i;
      assert rows[k].symbole == t;
    }
  }

  /** With distinct catalog tickers, no two rows share a symbol. */
  lemma RowSymbolsDistinct(cat: seq<Instrument>, p: Provider)
    requires OpenPricesNonZero(cat, p) && TickersDistinct(cat)
    ensures forall k1, k2 :: 0 <= k1 < k2 < |CurrentTable(cat, p)| ==>
              CurrentTable(cat, p)[k1].symbole != CurrentTable(cat, p)[k2].symbole
  {
    CurrentTableInCatalogOrder(cat, p);
    var idx := DataIndices(cat, p);
    forall k1, k2 | 0 <= k1 < k2 < |CurrentTable(cat, p)|
      ensures CurrentTable(cat, p)[k1].symbole != CurrentTable(cat, p)[k2].symbole
    {
      assert CurrentTable(cat, p)[k1].symbole == cat[idx[k1]].ticker;
      assert CurrentTable(cat, p)[k2].symbole == cat[idx[k2]].ticker;
    }
  }

  /** Every row's sector is the catalog sector of its company. */
  lemma RowSectorFromCatalog(cat: seq<Instrument>, p: Provider, k: nat)
    requires OpenPricesNonZero(cat, p) && k < |CurrentTable(cat, p)|
    ensures exists i :: 0 <= i < |cat| && cat[i].ticker == CurrentTable(cat, p)[k].symbole
                        && cat[i].secteur == CurrentTable(cat, p)[k].secteur
                        && HasData(p, cat[i].ticker)
  {
    CurrentTableInCatalogOrder(cat, p);
    var i := DataIndices(cat, p)[k];
    assert cat[i].ticker == CurrentTable(cat, p)[k].symbole;
  }

  /** The provider returned data for at least one catalog company. */
  ghost predicate SomeData(cat: seq<Instrument>, p: Provider) {
    exists i :: 0 <= i < |cat| && HasData(p, cat[i].ticker)
  }

  /** If some catalog company has data, the current table is not empty. */
  lemma SomeDataSomeRow(cat: seq<Instrument>, p: Provider)
    requires OpenPricesNonZero(cat, p) && SomeData(cat, p)
    ensures CurrentTable(cat, p) != []
  {
    CurrentTableInCatalogOrder(cat, p);
    var i :| 0 <= i < |cat| && HasData(p, cat[i].ticker);
    assert i in DataIndices(cat, p);
  }
}
