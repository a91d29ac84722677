# CAC 40 dashboard: the table logic, modelled and proved in Dafny

The dashboard (`Dashboard.py`, class `CAC40Dashboard`) keeps a static catalog of fifteen CAC 40 companies. On every refresh it rebuilds two tables from the market-data provider's answers:

- the **current-data table**: one snapshot row per company that has data;
- the **sector table**: one summary row per catalog sector.

The "Entreprises en temps réel" view queries the current-data table in three ways:

- a price table, filtered by sector and by performance and sorted descending on a chosen column;
- a threshold screener;
- the rising-company count among the key metrics.

These are modelled here:

- `Catalog.dfy`: the catalog as data (`define_entreprises`), with the per-sector weight and count sums.
- `Market.dfy`: the provider's answers and the snapshot of one company (`initialize_current_data`). It also defines the whole current-data table as a specification function over the catalog.
- `Sectors.dfy`: the sector summary (`initialize_sector_data`). Market caps and mean changes come from the live rows. Weights and counts come from the catalog.
- `Queries.dfy`: the masks and sort keys of the price table and the screener, the badge colour class, and the rising count.
- `Sequences.dfy`: the two pandas operations the queries use. A boolean-mask selection keeps the rows a predicate accepts, in order. A descending sort returns a permutation ordered on the key.
- `Technical.dfy`: the 20- and 50-day moving averages and the cumulative-performance curve.
- `Dashboard.dfy`: the `CAC40Dashboard` object. Its fields are the catalog, the current-data table and the sector table. Its methods rebuild the tables in loops, as the source does, and answer the queries. Each method is proved against the specification functions above.

The market-data provider is modelled as a parameter, a map from ticker to the history and info record it returned. A ticker missing from the map is one whose download failed.

## Model

| member | source | states |
|---|---|---|
| Catalog.CatalogTickersDistinct | Dashboard.py:99-237 | the fifteen catalog tickers are pairwise distinct, as dictionary keys must be |
| Catalog.CatalogSectors | Dashboard.py:99-237 | the catalog names exactly eight sectors: Luxe, Énergie, Santé, Industrie, Consommation, Finance, Chimie, Technologie |
| Catalog.CatalogIndustrieCount | Dashboard.py:99-237 | four catalog companies are in the Industrie sector |
| Catalog.CatalogIndustrieWeight | Dashboard.py:99-237 | the Industrie companies weigh 17.4 % of the index |
| Catalog.CatalogTotalWeight | Dashboard.py:99-237 | the fifteen catalog weights add up to 79.7 % |
| Catalog.CountSectorIsCardinality | Dashboard.py:317-327 | a sector's company count is the number of catalog positions whose sector it is |
| Catalog.CountSectorPositive | Dashboard.py:313-317 | a sector has at least one member exactly when it is one of the catalog's sectors |
| Catalog.SectorsPartitionCatalog | Dashboard.py:313-327 | a list naming every catalog sector once partitions the catalog: per-sector counts sum to the catalog size and weights to the catalog's total weight |
| Market.SnapshotOf | Dashboard.py:280-308 | a row copies ticker, name, sector, weight and the last bar's prices and volume. Open plus absolute change is the price; the percentage change times the open is 100 times the absolute change. With a positive open, the sign of the change is whether the price is above or below the open. Market cap is the provider's value or 0. The dividend yield is nonzero exactly when a nonzero yield is reported, and is then 100 times it |
| Market.CurrentTableInCatalogOrder | Dashboard.py:273-309 | the k-th row is the snapshot of the k-th catalog company with data; those catalog positions are strictly increasing and include every company with data |
| Market.RowPresentIffData | Dashboard.py:276-280 | a ticker has a row exactly when it is in the catalog and the provider returned a non-empty history for it |
| Market.RowSymbolsDistinct | Dashboard.py:276-309 | with distinct catalog tickers, no two rows share a symbol |
| Market.RowSectorFromCatalog | Dashboard.py:294-297 | every row's sector is the catalog sector of its company, and that company has data |
| Market.SomeDataSomeRow | Dashboard.py:279-309 | if any catalog company has data, the current table is not empty |
| Sectors.SectorTableListsSectors | Dashboard.py:311-328 | a sector table built from any live rows names every catalog sector exactly once, with its catalog weight and company count |
| Sectors.SectorTablePartitionsCatalog | Dashboard.py:313-327 | in a table naming every catalog sector once with its catalog weight and count, the company counts add up to the number of catalog companies and the weights to the catalog's total weight |
| Sectors.SectorTableExtend | Dashboard.py:316-328 | appending the summary of a sector not yet listed keeps the table listing each covered sector once, with its summary row |
| Sectors.SectorCapIsLiveSum | Dashboard.py:326 | summing market caps per catalog ticker of the sector, as the source does, equals summing them over the sector's live rows |
| Sectors.CountRowsAtMostCatalog | Dashboard.py:317-321 | a sector has no more live rows than catalog members, and none exactly when none of its members has data |
| Sectors.MeanPerformanceBounds | Dashboard.py:320-321 | for a sector with at least one live row, the mean change lies between any bounds all of its rows respect (with no live row it is 0, see `Sectors.SectorWithoutLiveData`) |
| Sectors.SectorWithoutLiveData | Dashboard.py:316-328 | a sector none of whose companies has data still has its catalog weight and count; its market-cap total and mean change are 0 |
| Sequences.Filter | Dashboard.py:556-564 | a mask selection keeps, in order, exactly the rows the mask accepts, each as many times as it occurs in the input |
| Sequences.SortDesc | Dashboard.py:566-574 | a descending sort returns a permutation of its input that is non-increasing on the key |
| Sequences.SortedPermutationsAgree | Dashboard.py:566-574 | when no two rows share a key, every descending sort of the same rows gives the same order, so ties are the only room for difference |
| Queries.PriceTableMasks | Dashboard.py:556-564 | the sector mask (unless "Tous") and then the performance mask (unless "Tous"), applied in turn, keep exactly the rows matching both choices, in order |
| Queries.FilteredTableIdempotent | Dashboard.py:556-564 | filtering the filtered table again with the same choices changes nothing |
| Queries.PerformancePartition | Dashboard.py:558-564 | every row is in exactly one of the En hausse, En baisse and Stable views |
| Queries.ThreeRowsOrdered | Dashboard.py:566-574 | any descending arrangement of three rows with keys b > a > c is b, a, c |
| Queries.SortFixture | Dashboard.py:566-568 | rows at +2 %, +5 % and -1 % sorted on the change come out as +5 %, +2 %, -1 % |
| Queries.ScreenerMasks | Dashboard.py:663-677 | the four screener masks in turn (the sector one only when sectors are selected) keep exactly the rows passing every criterion, in order |
| Queries.ScreenerIdempotent | Dashboard.py:663-677 | screening the screener's result again changes nothing |
| Queries.ScreenerIgnoresVolatility | Dashboard.py:651-677 | the maximum-volatility input has no effect on the screener's result |
| Queries.ScreenerLoosest | Dashboard.py:663-677 | with a non-positive market-cap floor, no sector selection, and thresholds every row meets, the screener keeps every row |
| Queries.ChangeClassAgreesWithFilter | Dashboard.py:579-584 | the badge is "positive", "negative" or "neutral" exactly when the row is in the En hausse, En baisse or Stable view |
| Queries.HausseCountIsRisingView | Dashboard.py:368 | the rising count is the size of the En hausse view of the whole table |
| Queries.HausseBalanceCounts | Dashboard.py:384 | the "vs baisse" delta is rising minus falling minus stable: stable rows count against the rising ones |
| Technical.RollingMeanIsTrailingMean | Dashboard.py:513-514 | a w-day moving average is absent at the first w - 1 dates and otherwise is the mean of the last w prices |
| Technical.MovingAverages | Dashboard.py:513-514 | MA20 and MA50 have one entry per date: absent before the 20th (50th) date, then the mean of the last 20 (50) prices |
| Technical.ReturnSumUnderstatesRisingGain | Dashboard.py:799 | adding up period returns never shows more than the true gain since the first date on a positive, non-decreasing series |
| Technical.AdditiveNotCompounded | Dashboard.py:799 | closes 100, 110, 121 give a cumulative curve of 20 % where the price gained 21 % |
| Dashboard.CAC40Dashboard.constructor | Dashboard.py:93-97 | the dashboard starts with the catalog, its current table and its sector table; the catalog's tickers are distinct, the current table is not empty, the sector table names every catalog sector once with its catalog weight and count (the class invariant), and its counts and weights add up to the catalog's size and total weight |
| Dashboard.CAC40Dashboard.InitializeCurrentData | Dashboard.py:273-309 | the loop over the catalog returns the current table, with a row for a ticker exactly when it is a catalog ticker with data, and distinct symbols |
| Dashboard.CAC40Dashboard.InitializeSectorData | Dashboard.py:311-330 | on an empty current table the step fails; otherwise the result lists each catalog sector once, with its summary row, one row per sector, and its counts and weights add up to the catalog's size and total weight |
| Dashboard.CAC40Dashboard.UpdateLiveData | Dashboard.py:333-343 | the current table is rebuilt from the new answers. If it is non-empty, the sector table is rebuilt from it and each market-cap total is the sum over the sector's live rows; otherwise the sector table keeps its old value. Either way the invariant holds again: the sector table names every catalog sector once with its catalog weight and count, so its counts and weights add up to the catalog's size and total weight |
| Dashboard.CAC40Dashboard.TableauDesCours | Dashboard.py:556-574 | the price table holds exactly the rows matching both choices, with their multiplicities, sorted descending on the chosen column |
| Dashboard.CAC40Dashboard.Screener | Dashboard.py:663-677 | the screener's result is the subsequence of the rows that pass every criterion, with their multiplicities |
| Dashboard.CAC40Dashboard.EntreprisesHausse | Dashboard.py:366-384 | on an empty current table the metric fails, as the source's column lookup does; otherwise it shows the size of the En hausse view, and a delta equal to that size minus the sizes of the En baisse and Stable views |

## Left out

- Rendering, layout and styling (Dashboard.py:17-90, 345-357, 899-963, 1088-1091): layout, not logic.
- Plotly figures: charting is outside the table logic.
- Yahoo Finance calls (`get_yfinance_data`): modelled as the provider map passed in. Concretely that is a history and an optional info record per ticker, or no entry when the download raised.
- `initialize_historical_data`: it only flattens downloaded histories into one long table.
- The random deltas of the key metrics (Dashboard.py:391, 399): randomness.
- The CAC 40 index value (Dashboard.py:401-413): the index itself is another download. Its fallback, 40 times the mean current price of the table's rows (Dashboard.py:413), is not modelled either.
- The other key metrics, namely the mean change (Dashboard.py:366), the total volume (Dashboard.py:367) and the total market cap (Dashboard.py:395): each is a column aggregate shown as a figure. Only the rising count and its delta are modelled.
- Volatility, correlation and heatmap (Dashboard.py:818-831, 849-857, 887-888): floating-point statistics over downloaded series.
- Monthly sector grouping (Dashboard.py:724-727).
- The top gainers and losers charts.
- The per-sector group-by in `create_sector_analysis` (Dashboard.py:693-698): it only feeds charts. The "Analyse Secteur" tab (Dashboard.py:607-636) filters the current table by one sector, which is the sector mask `Queries.SectorMask`, before it draws charts.
- Market.SnapshotOf: requires a nonzero opening price. The source divides by it without a guard, so it would produce an infinite or undefined value there, and real numbers have no such value. `Dashboard.CAC40Dashboard.constructor`, `InitializeCurrentData` and `UpdateLiveData` inherit the same requirement (`OpenPricesNonZero`) for every catalog company with data.
- Dashboard.CAC40Dashboard.constructor: requires that some catalog company has data. Otherwise the source's start-up fails when it builds the sector table from an empty table. The model has no exceptions.
- Dashboard.CAC40Dashboard.UpdateLiveData: the source catches any exception and only reports it. Only the empty-table failure is modelled, and it leaves the old sector table in place. Other exceptions from the provider are part of the provider parameter.
- Dashboard.CAC40Dashboard.TableauDesCours: promises a descending order and the exact multiset of rows. It does not promise which of several rows with equal keys comes first. The source calls pandas' default sort, which is not stable, so the order of ties is unspecified there too. `Sequences.SortedPermutationsAgree` shows that only ties are affected.
- Dashboard.CAC40Dashboard.TableauDesCours: on an empty current table the source's column lookups fail. The model returns an empty view instead.
- Dashboard.CAC40Dashboard.Screener: on an empty current table the source's column lookups fail. The model returns an empty view instead.
- NaN handling and float rounding in pandas: the model computes over exact reals.
- The sector order of the sector table: the source iterates over a Python set. The model picks sectors in an arbitrary order and promises only that each sector appears once.
- Technical.CumulativeReturn: its own contract gives only the curve's length. What the curve means is stated by `ReturnSumUnderstatesRisingGain` and `AdditiveNotCompounded`. The closes it runs on are a download, so they are a parameter. A zero close used as a base is excluded, for the same reason as the zero opening price.
