/**
 * The dashboard object (`CAC40Dashboard`): it holds the catalog, the
 * current-data table and the sector table, rebuilds the two tables on
 * every refresh, and answers the queries of the price table, the
 * screener and the key metrics from the current-data table.
 */
module Dashboard {
  import opened Wrappers
  import opened Sequences
  import opened Catalog
  import opened Market
  import opened Sectors
  import opened Queries

  class CAC40Dashboard {
    /** The catalog, fixed when the dashboard is built. */
    const entreprises: seq<Instrument>
    var currentData: seq<Snapshot>
    var sectorData: seq<SectorSummary>

    /**
     * The catalog's tickers are dictionary keys, hence distinct, and the
     * sector table (where the sector select boxes take their options)
     * names every catalog sector once, with its catalog weight and count.
     */
    ghost predicate Valid()
      reads this
    {
      TickersDistinct(entreprises) && SectorsListed(entreprises, sectorData)
    }

    /**
     * `__init__`. The source builds the sector table without a guard, so a
     * provider that returns no data at all makes the start-up fail; such a
     * provider is excluded here.
     */
    constructor (provider: Provider)
      requires OpenPricesNonZero(Entreprises(), provider)
      requires SomeData(Entreprises(), provider)
      ensures entreprises == Entreprises() && Valid()
      ensures currentData == CurrentTable(entreprises, provider) && currentData != []
      ensures SectorTable(entreprises, currentData, sectorData)
      ensures TotalCount(sectorData) == |entreprises| && TotalSectorWeight(sectorData) == TotalWeight(entreprises)
    {
      entreprises := Entreprises();
      new;
      CatalogTickersDistinct();
      currentData := InitializeCurrentData(provider);
      SomeDataSomeRow(entreprises, provider);
      var sectors := InitializeSectorData();
      sectorData := sectors.value;
      SectorTableListsSectors(entreprises, currentData, sectorData);
    }

    /**
     * `initialize_current_data`: one row per catalog company the provider
     * has data for, in catalog order.
     */
    method InitializeCurrentData(provider: Provider) returns (rows: seq<Snapshot>)
      requires TickersDistinct(entreprises) && OpenPricesNonZero(entreprises, provider)
      ensures rows == CurrentTable(entreprises, provider)
      ensures forall t :: HasRowFor(rows, t) <==> HasTicker(entreprises, t) && HasData(provider, t)
      ensures forall k1, k2 :: 0 <= k1 < k2 < |rows| ==> rows[k1].symbole != rows[k2].symbole
    {
      rows := [];
      var k := 0;
      while k < |entreprises|
        invariant 0 <= k <= |entreprises|
        invariant OpenPricesNonZero(entreprises[..k], provider)
        invariant rows == CurrentTable(entreprises[..k], provider)
      {
        var info := entreprises[k];
        assert entreprises[..k + 1][..k] == entreprises[..k];
        if info.ticker in provider && |provider[info.ticker].hist| > 0 {
          rows := rows + [SnapshotOf(info, provider[info.ticker])];
        }
        k := k + 1;
      }
      assert entreprises[..k] == entreprises;
      forall t ensures HasRowFor(rows, t) <==> HasTicker(entreprises, t) && HasData(provider, t) {
        RowPresentIffData(entreprises, provider, t);
      }
      RowSymbolsDistinct(entreprises, provider);
    }

    /**
     * `initialize_sector_data`: one summary per catalog sector, visited in
     * set order. On an empty current-data table (no company had data) the
     * column lookup raises, modelled as `None`.
     */
    method InitializeSectorData() returns (data: Option<seq<SectorSummary>>)
      ensures data.None? <==> currentData == []
      ensures data.Some? ==> SectorTable(entreprises, currentData, data.value)
      ensures data.Some? ==> |data.value| == |SectorsOf(entreprises)|
      ensures data.Some? ==> SectorsListed(entreprises, data.value)
      ensures data.Some? ==> TotalCount(data.value) == |entreprises|
      ensures data.Some? ==> TotalSectorWeight(data.value) == TotalWeight(entreprises)
    {
      if currentData == [] {
        return None;
      }
      var secteurs := SectorsOf(entreprises);
      var remaining := secteurs;
      var table: seq<SectorSummary> := [];
      while remaining != {}
        invariant remaining <= secteurs
        invariant |table| + |remaining| == |secteurs|
        invariant SectorTableFor(entreprises, currentData, table, secteurs - remaining)
        decreases remaining
      {
        var secteur :| secteur in remaining;
        SectorTableExtend(entreprises, currentData, table, secteurs - remaining, secteur);
        table := table + [SectorRow(entreprises, currentData, secteur)];
        assert (secteurs - remaining) + {secteur} == secteurs - (remaining - {secteur});
        remaining := remaining - {secteur};
      }
      assert secteurs - remaining == secteurs;
      SectorTableListsSectors(entreprises, currentData, table);
      SectorTablePartitionsCatalog(entreprises, table);
      return Some(table);
    }

    /**
     * `update_live_data`: rebuild the current table, then the sector table
     * from it. When the provider has no data at all the sector step raises,
     * the error is reported and the sector table keeps its old value.
     */
    method UpdateLiveData(provider: Provider)
      requires Valid() && OpenPricesNonZero(entreprises, provider)
      modifies this
      ensures Valid()
      ensures currentData == CurrentTable(entreprises, provider)
      ensures currentData != [] ==> SectorTable(entreprises, currentData, sectorData)
      ensures currentData != [] ==> forall k :: 0 <= k < |sectorData| ==>
                sectorData[k].marketCapTotal == LiveSectorCap(currentData, sectorData[k].secteur)
      ensures TotalCount(sectorData) == |entreprises| && TotalSectorWeight(sectorData) == TotalWeight(entreprises)
      ensures currentData == [] ==> sectorData == old(sectorData)
    {
      currentData := InitializeCurrentData(provider);
      var sectors := InitializeSectorData();
      if sectors.Some? {
        sectorData := sectors.value;
        forall k | 0 <= k < |sectorData|
          ensures sectorData[k].marketCapTotal == LiveSectorCap(currentData, sectorData[k].secteur)
        {
          SectorCapIsLiveSum(entreprises, provider, sectorData[k].secteur);
        }
      }
      SectorTablePartitionsCatalog(entreprises, sectorData);
    }

    /**
     * The "Tableau des Cours" tab: the sector mask unless "Tous", then the
     * performance mask, then a descending sort on the chosen column.
     */
    method TableauDesCours(secteurFiltre: string, performanceFiltre: PerformanceFiltre, tri: Tri)
      returns (vue: seq<Snapshot>)
      ensures forall r :: multiset(vue)[r] == if KeepsRow(r, secteurFiltre, performanceFiltre) then multiset(currentData)[r] else 0
      ensures multiset(vue) == multiset(FilteredTable(currentData, secteurFiltre, performanceFiltre))
      ensures SortedDesc(vue, SortKey(tri))
    {
      var filtrees := currentData;
      if secteurFiltre != TousLesSecteurs {
        filtrees := Filter(filtrees, SectorMask(secteurFiltre));
      }
      if performanceFiltre != Tous {
        filtrees := Filter(filtrees, PerformanceMask(performanceFiltre));
      }
      PriceTableMasks(currentData, secteurFiltre, performanceFiltre);
      vue := SortDesc(filtrees, SortKey(tri));
    }

    /**
     * The "Screener" tab: the rows, in their original order, that pass
     * every threshold and, when sectors are selected, belong to one of them.
     */
    method Screener(criteres: Criteres) returns (vue: seq<Snapshot>)
      ensures vue == ScreenerTable(currentData, criteres)
      ensures IsSubseq(vue, currentData)
      ensures forall i :: 0 <= i < |vue| ==> PassesScreener(vue[i], criteres)
      ensures forall r :: multiset(vue)[r] == if PassesScreener(r, criteres) then multiset(currentData)[r] else 0
    {
      var filtrees := currentData;
      filtrees := Filter(filtrees, CapMask(criteres));
      filtrees := Filter(filtrees, DividendMask(criteres));
      filtrees := Filter(filtrees, PerformanceFloorMask(criteres));
      if criteres.secteurs != [] {
        filtrees := Filter(filtrees, SectorsMask(criteres));
      }
      ScreenerMasks(currentData, criteres);
      vue := filtrees;
    }

    /**
     * The "Entreprises en Hausse" metric: the number of rising companies
     * and the "vs baisse" delta shown beside it. On an empty current-data
     * table (no company had data) the column lookup raises, modelled as
     * `None`.
     */
    method EntreprisesHausse() returns (metric: Option<(nat, int)>)
      ensures metric.None? <==> currentData == []
      ensures metric.Some? ==> metric.value.0 == |FilteredTable(currentData, TousLesSecteurs, EnHausse)|
      ensures metric.Some? ==> metric.value.1 == metric.value.0 - |FilteredTable(currentData, TousLesSecteurs, EnBaisse)|
                                                                - |FilteredTable(currentData, TousLesSecteurs, Stable)|
    {
      if currentData == [] {
        return None;
      }
      var hausse := HausseCount(currentData);
      var balance := hausse - (|currentData| - hausse);
      HausseCountIsRisingView(currentData);
      HausseBalanceCounts(currentData);
      return Some((hausse, balance));
    }
  }
}
