# RV inventory API — a verified model of its core

This project models, in Dafny, the query core of an RV dealer-inventory
API. The API answers inventory listings, filter options, dealer lists and
aggregated summaries (units, value, price statistics and per-dimension
buckets). It has two interchangeable backends.

- **The GraphQL backend** (`FabricGraphQLClient`) does the following:
  - It loads three dimension caches (product models, floorplans and dealerships).
  - It joins every fact-inventory row with them into an in-memory inventory cache.
  - It answers filtered listings by filtering, sorting by price and slicing.
  - It aggregates the filtered records into eight bucket lists.
  - It serves precomputed snapshots when no filter is given, or a per-filter snapshot for a lone `condition` or `rv_class` filter.
  - It recombines partial group averages by count weight.
- **The Delta Lake backend** (`DeltaLakeClient`) reads gold Delta tables into dataframes.
  - It joins them with left merges.
  - It answers the same requests with dataframe masks, `groupby`, `sort_values` and `head`.

Around these cores the project also models:

- the gold-table reader (`gold_table_reader.py`);
- the Delta cache builder and its precomputed aggregations (`deltalake_cache.py`);
- the data-catalog extractor's path parsing, `_delta_log` schema reading and markdown sample blocks (`extract_data_catalog.py`);
- the SQL connector's UTF-16-LE access-token structure, connection string and connection lifecycle (`sql_connector.py`).

## Modules

- **Shared helpers:**
  - `Wrappers`: Option and Result;
  - `Text`: Python truthiness, slicing, ordering, `split`/`join`, strip, `str()`, and first-occurrence dedup;
  - `Sorting`: Python's stable `sorted(..., reverse=True)`;
  - `Stats`: sum, min, max and mean, with the `... if prices else 0` fallbacks;
  - `Grouping`: a `defaultdict` keyed by string, folded over rows;
  - `Responses`: the response records shared by both backends.
- **The GraphQL backend:**
  - `GraphQLCache`: caches, the join, filters, the inventory page, filter options and key batching;
  - `GraphQLAggregate`: buckets, both `format_agg` variants and the weighted recombination;
  - `QueryFacade`: the tier decision of the `/inventory/aggregated` endpoint;
  - `GraphQLClient`: the client object, as a class whose cache fields its methods update.
- **The Delta Lake backend:**
  - `Frames`: the dataframe operations used (masks, `head`, column selection, left `merge`, `groupby` keys, statistics with NaN);
  - `DeltaCache`: cache building, aggregations, and the `get_cache` memo as a class;
  - `DeltaAdapter`: `DeltaLakeClient`, as a class;
  - `GoldReader`: the gold-table reader.
- **Tooling:**
  - `DataCatalog`: the catalog extractor;
  - `SqlConnector`: the SQL connector, whose connector object is a class.

Methods that the source writes as loops are Dafny methods with loop
invariants, proved against a specification function. Examples are
`IndexRows`, `FetchDimension`, `FormatListings`, `Aggregate`,
`FoldGroupRows`, `AggregateBy`, `CachedInventory`, `BuildCache`,
`DiscoverTables`, `AppendSample` and `ReadDeltaSchema`. The properties
the source promises are proved about those functions.

### Where the code departs from the system's design description

The model follows the code in every case below.

- **Null or empty group keys:**
  - The design puts records with a null dimension into an "Unknown" bucket.
  - The GraphQL code skips falsy keys instead, and pandas' `groupby` drops null keys.
  - So the `'Unknown'` name at `api/deltalake_adapter.py:296` is never produced; `DeltaAdapter.AggregateByBucket` proves every bucket names a value the column holds.
- **Ties between buckets of equal count:**
  - The design orders them by ascending name.
  - The GraphQL code keeps first-seen order (a stable sort over insertion order); see `Sorting.SortDescStable`.
  - The Delta code uses `sort_values`, whose order among ties is not guaranteed. Its contracts state count-descending order, that each group is kept at most once, and that no group left out under a limit has a larger count than a kept one; they leave the order among ties open.
- **Null prices:**
  - The design counts them but excludes them from the price statistics.
  - The GraphQL join turns a null price into 0. That 0 is counted in `total_value`, and it stays out of the statistics only because they take prices `> 0`.
- **Filters on a missing column:**
  - The design treats them as no-ops.
  - The Delta code raises `KeyError`; the model states this as a precondition (see "Left out").
- **Not in the code:** multi-value (OR) filters and sales medians appear in the design but are absent from the code.
- **Precomputed versus on-demand results:**
  - GraphQL: the unfiltered snapshot (a count-weighted `groupBy` recombination with min/max reported as 0) is computed differently from the on-demand path. The model keeps the two apart.
  - Delta: the two coincide, as `DeltaAdapter.DeltaLakeClient.GetFastAggregations` states.

## Model

| member | source | states |
|---|---|---|
| GraphQLCache.KeyedByKeys | api/main.py:139-144 | the dictionary built by assigning rows in order holds exactly the keys that occur on some row |
| GraphQLCache.KeyedByLastWins | api/main.py:139-144 | for a repeated key the dictionary keeps the value of its last row |
| GraphQLCache.IndexRows | api/main.py:186-194 | the dimension-cache loop builds exactly the last-row-wins dictionary of the fetched rows |
| GraphQLCache.RefreshStaysDue | api/main.py:82 | once a token is due for renewal it stays due at every later time |
| GraphQLCache.RefreshWindow | api/main.py:82 | a held token is renewed exactly when its expiry is nonzero and now is past expiry minus 300 seconds |
| GraphQLCache.LocationOf | api/main.py:1606-1608 | location is "city, state" when both are truthy, the state alone when only the state is, and empty exactly when the state is falsy |
| GraphQLCache.JoinItem | api/main.py:1602-1631 | a cached record keeps the fact fields, turns a null price or days on lot into 0 and has no model year; rv type, manufacturer and model come from the product-model entry, floorplan from the floorplan entry, and dealer group, state, region, city, county and dealership from the dealer entry, each null when its key has no entry; location is built from the record's own city and state |
| GraphQLCache.JoinItemLocal | api/main.py:1602-1604 | a record depends only on the cache entries under its own three keys |
| GraphQLCache.JoinAll | api/main.py:1599-1631 | the inventory cache has one record per fetched item, in fetch order |
| GraphQLCache.MatchesMeaning | api/main.py:1652-1668 | a record passes the filter chain exactly when every truthy text filter equals its field and its price lies within every bound that is not None |
| GraphQLCache.KeepAllIsSelect | api/main.py:1652-1668 | applying the comprehensions one after another equals selecting, in order, the records meeting all of them |
| GraphQLCache.SelectMembers | api/main.py:1652-1668 | the selection holds exactly the records meeting every criterion and is a sub-multiset of the cache |
| GraphQLCache.TitleStartsWithNone | api/main.py:1677 | since the product cache never stores a model year, every cached title starts with "None" |
| GraphQLCache.ToListing | api/main.py:1678-1698 | a listing carries the record's price and days on lot, dealership, rv type and manufacturer |
| GraphQLCache.FormatListings | api/main.py:1675-1698 | the response loop produces one listing per page record, in order |
| GraphQLCache.InventoryPageSound | api/main.py:1652-1672 | every listed record comes from the cache and matches the query; the page is sorted by price descending, and its length is the Python slice length of the matches |
| GraphQLCache.InventoryPageTop | api/main.py:1671-1672 | a matching record left off the page is priced no higher than any record on it |
| GraphQLCache.CacheAfterQueryPermutes | api/main.py:1652-1671 | the in-place sort only permutes the cache, and it leaves the cache untouched when a filter ran |
| GraphQLCache.PresentValues | api/main.py:348-369 | the collected set holds exactly the non-empty values some cache entry has |
| GraphQLCache.FilterOptionsOf | api/main.py:342-382 | each option list is strictly ascending and holds exactly the truthy values present; conditions are ["NEW", "USED"] |
| GraphQLCache.DealerNames | api/main.py:250-258 | the dealer list is strictly ascending and holds exactly the truthy dealership names |
| GraphQLCache.BatchesCover | api/main.py:223-230 | the batches concatenate back to the keys, each holds 1 to 100 keys, and there are ceil(n/100) of them |
| GraphQLCache.FetchDimension | api/main.py:213-248 | it returns an empty result without any query for no keys; otherwise it sends the batches of the deduplicated keys and merges their rows as a last-row-wins dictionary |
| GraphQLCache.MergeRows | api/main.py:244-245 | assigning one batch's rows in order extends the last-row-wins dictionary of the rows fetched before by exactly that batch |
| GraphQLAggregate.FoldTally | api/main.py:1752-1786 | one bucket's running values: count of rows, sum of prices, and the positive prices only for rv_type and condition |
| GraphQLAggregate.BucketsMeaning | api/main.py:1734-1786 | there is one bucket per distinct truthy value, in first-seen order, holding exactly its rows; values that never occur have no bucket |
| GraphQLAggregate.FormatAggShape | api/main.py:1788-1800 | the list has the slice length of the buckets, descends by count, and each entry formats some bucket |
| GraphQLAggregate.FormatAggTop | api/main.py:1788-1800 | a bucket left out by the limit has a count no larger than any bucket shown |
| GraphQLAggregate.BucketStats | api/main.py:1791-1798 | a bucket with collected prices has 0 < min <= avg <= max over them; otherwise min and max are 0 and avg is total over count |
| GraphQLAggregate.FormatAggregationVsFormatAgg | api/main.py:790-805 | format_aggregation agrees with format_agg entry for entry, except that it reports 0 where format_agg falls back to total over count |
| GraphQLAggregate.Aggregate | api/main.py:1743-1786 | the aggregation loop computes the running total, the positive prices and the eight bucket dictionaries of the filtered records |
| GraphQLAggregate.FilteredSummaryTotals | api/main.py:1802-1807 | total_units counts the records and total_value sums all prices; avg, min and max range over the positive prices, or are 0 when there are none |
| GraphQLAggregate.FilteredSummaryLimits | api/main.py:1808-1815 | the bucket lists are cut to 10, 10, 10, 10, 65, 10, 20 and 15 entries |
| GraphQLAggregate.FoldGroupRows | api/main.py:905-935 | the groupBy-row loop folds each row's count, sum and positive partial average into its truthy key's bucket |
| GraphQLAggregate.FormatWeightedShape | api/main.py:1039-1053 | the snapshot list is cut only for a truthy limit, reports min and max 0, and descends by count |
| GraphQLAggregate.WeightedAvgWithin | api/main.py:1042-1044 | the count-weighted average lies between the smallest and largest partial average |
| GraphQLAggregate.MergedMeanIsMean | api/main.py:1042-1044 | weighting exact group means by group size gives the mean of all the prices together |
| GraphQLAggregate.MergeCounts | api/main.py:1042-1044 | the unit counts of the partial groups add up to the number of prices across the groups |
| GraphQLAggregate.MergeSums | api/main.py:1042-1044 | the count-weighted partial averages add up to the sum of all the prices |
| GraphQLAggregate.WeightedExample | api/main.py:1042-1044 | partial averages 100 over 1 unit and 200 over 3 units merge to 175 |
| QueryFacade.LoneZeroBoundTakesFastPath | api/main.py:2469-2472 | as written, a lone max_price of 0 returns the unfiltered snapshot although the filter chain would apply a bound |
| QueryFacade.TierFastExactly | api/main.py:2469-2472 | with the bounds checked by `is not None`, the precomputed snapshot is served exactly when no criterion is active |
| QueryFacade.TierAsWrittenAgrees | api/main.py:2469 | the decision as written and the corrected one agree whenever neither price bound is 0 |
| QueryFacade.SnapshotTier | api/main.py:2477-2495 | the snapshot tier is tried exactly for one lone condition or rv_class filter without price bounds, under key "condition:V" or "rv_type:V" |
| QueryFacade.OnDemandTier | api/main.py:2499-2507 | every other filtered request is computed on demand with its own filter |
| GraphQLClient.FabricGraphQLClient.constructor | api/main.py:54-71 | a new client holds no token and no loaded caches |
| GraphQLClient.FabricGraphQLClient.GetToken | api/main.py:79-88 | a due token is replaced by the credential's token and expiry; otherwise the held token is returned unchanged |
| GraphQLClient.FabricGraphQLClient.LoadCache | api/main.py:115-199 | the dimension caches are built from the fetched rows once; later calls change nothing |
| GraphQLClient.FabricGraphQLClient.LoadInventoryCache | api/main.py:1578-1634 | the inventory cache is the join of the fetched items with the dimension caches, built once |
| GraphQLClient.FabricGraphQLClient.GetCachedInventory | api/main.py:1636-1700 | it returns the listings of the inventory page, and leaves the cache sorted in place when no filter ran |
| GraphQLClient.FabricGraphQLClient.GetFilterOptions | api/main.py:342-382 | it returns the filter options of the loaded dimension caches |
| GraphQLClient.FabricGraphQLClient.ListDealers | api/main.py:250-258 | it returns the sorted dealer names of the loaded dealer cache |
| GraphQLClient.FabricGraphQLClient.GetFastAggregations | api/main.py:1076-1080 | it returns the stored snapshot, building and storing it on first use |
| GraphQLClient.FabricGraphQLClient.GetFilteredAggregationsCached | api/main.py:1350-1354 | None before the snapshots exist or for an unknown key; otherwise the stored snapshot |
| GraphQLClient.FabricGraphQLClient.GetFilteredAggregations | api/main.py:1702-1816 | it returns the summary of the filtered records and leaves the cache order unchanged |
| GraphQLClient.FabricGraphQLClient.GetAggregatedSummaries | api/main.py:2451-2507 | the answer of each tier of the corrected decision `QueryFacade.TierOf`: the snapshot, the stored per-filter snapshot or its on-demand fallback, or the on-demand summary |
| Frames.WhereMeaning | api/deltalake_adapter.py:229-242 | a mask keeps the frame valid with the same columns and keeps exactly the rows it holds for |
| Frames.FilterTwice | api/deltalake_adapter.py:229-242 | two masks applied in a row keep the same rows as their conjunction |
| Frames.HeadMeaning | api/deltalake_adapter.py:138 | `head(n)` keeps a prefix of the Python slice length with the same columns |
| Frames.Select | parquet_test/deltalake_cache.py:176-177 | column selection keeps every row and its values in the chosen columns |
| Frames.LeftJoinValid | parquet_test/deltalake_cache.py:175-180 | the left merge of valid frames is valid, has the left columns followed by the added ones, and extends every left row |
| Frames.LeftJoinUnique | parquet_test/deltalake_cache.py:175-180 | against unique right keys the merge keeps the rows one for one, extending each with its match or with nulls |
| Frames.UnmatchedNulls | parquet_test/gold_table_reader.py:203-207 | with a unique right key, an unmatched left row has null in every added column |
| Frames.ApplyAllMeaning | api/deltalake_adapter.py:226-242 | the mask chain keeps the columns and keeps exactly the rows every mask holds for, as a sub-multiset |
| Frames.GroupKeysMeaning | api/deltalake_adapter.py:84-90 | the groupby keys are strictly ascending, are exactly the non-null values of the column, and each has a non-empty group |
| Frames.StatsOrdered | api/deltalake_adapter.py:248-252 | over a non-empty column, mean, min and max are finite and min <= mean <= max |
| DeltaCache.TableUri | parquet_test/deltalake_cache.py:82-84 | the URI starts with "abfss://" and ends with the table name |
| DeltaCache.InventoryOf | parquet_test/deltalake_cache.py:173-203 | the joined inventory exists exactly when the raw inventory and the product models loaded |
| DeltaCache.SalesOf | parquet_test/deltalake_cache.py:210-250 | the joined sales exist exactly when the raw sales and the product models loaded |
| DeltaCache.JoinDimsKeepsRows | parquet_test/deltalake_cache.py:173-203 | every fact row survives the three left joins, extended with its cells intact |
| DeltaCache.JoinDimsOneToOne | parquet_test/deltalake_cache.py:173-203 | with unique dimension keys the joined inventory has exactly one row per fact row |
| DeltaCache.JoinSalesKeepsRows | parquet_test/deltalake_cache.py:210-250 | every sales row survives the four left joins, the date join included |
| DeltaCache.GroupsOf | parquet_test/deltalake_cache.py:293-299 | one group per groupby key, in key order, each summarising that key's rows |
| DeltaCache.AggregationsOf | parquet_test/deltalake_cache.py:279-290 | build_aggregations yields the empty dict exactly when there is no inventory |
| DeltaCache.AggregationsTotals | parquet_test/deltalake_cache.py:283-290 | total_units is the row count and total_value the price sum (0 without a price column); each by_X entry exists exactly when its column does, the velocity entries exactly when the sales have days_to_sell |
| DeltaCache.AggregationsKeyOrder | parquet_test/deltalake_cache.py:293-327 | rv_type, condition and region keep groupby order, with strictly ascending names |
| DeltaCache.AggregationsByCount | parquet_test/deltalake_cache.py:310-347 | the state, dealer_group and manufacturer lists hold every group once, descending by count |
| DeltaCache.AggregationsCities | parquet_test/deltalake_cache.py:349-357 | the city list has the slice length of the groups at 50, descends by count, takes each city group of the inventory at most once, and no city left out has a larger count than a listed one |
| DeltaCache.TopByCount | parquet_test/deltalake_cache.py:349-357 | the first n groups by count have the slice length, descend by count, take each input group at most once, and none is smaller than a group left out |
| DeltaCache.GroupMeaning | parquet_test/deltalake_cache.py:294-299 | each group names a value the column holds and counts exactly its rows' stock numbers and prices |
| DeltaCache.CacheOf | parquet_test/deltalake_cache.py:102-276 | the cache stores each dimension as read; its aggregations exist exactly when the inventory does |
| DeltaCache.BuildCache | parquet_test/deltalake_cache.py:102-276 | the staged rebinding of inventory and sales builds exactly the cache function |
| DeltaCache.InventoryQueryMeaning | parquet_test/deltalake_cache.py:401-434 | an empty frame without inventory; otherwise the matching rows in order, cut only for a truthy limit |
| DeltaCache.SizesOf | parquet_test/deltalake_cache.py:461-463 | the size dict has exactly the column's values as keys, or is empty when the column is absent |
| DeltaCache.SizesMeaning | parquet_test/deltalake_cache.py:461-463 | a value is a key exactly when a row holds it, and it maps to the number of rows holding it, at least one |
| DeltaCache.AggregationsQueryMeaning | parquet_test/deltalake_cache.py:437-464 | with no truthy filter it returns the precomputed dict unchanged; otherwise total_units counts the rows the filters keep, total_value and avg_price are the sum and mean of their prices (0 when none match), and the three size maps are those of the kept rows; all zero or empty without an inventory |
| DeltaCache.CacheStore.constructor | parquet_test/deltalake_cache.py:391 | the module cache starts empty |
| DeltaCache.CacheStore.GetCache | parquet_test/deltalake_cache.py:393-398 | the first call builds and stores the cache; later calls return the stored one |
| DeltaCache.CacheStore.GetInventory | parquet_test/deltalake_cache.py:401-434 | get_inventory answers over the shared cache |
| DeltaCache.CacheStore.GetAggregations | parquet_test/deltalake_cache.py:437-464 | get_aggregations answers over the shared cache |
| DeltaAdapter.Grouped | api/deltalake_adapter.py:276-283 | one statistics row per groupby key, in key order |
| DeltaAdapter.AggregateBy | api/deltalake_adapter.py:270-305 | the result loop appends exactly the formatted buckets of the ranked groups |
| DeltaAdapter.AppendBuckets | api/deltalake_adapter.py:293-303 | the iterrows loop appends one formatted bucket per ranked group, in order |
| DeltaAdapter.AggregateByShape | api/deltalake_adapter.py:270-290 | it returns [] for an absent column; otherwise counts descend, and a truthy limit gives the Python slice length of the groups at that limit (at most the limit when positive) |
| DeltaAdapter.AggregateByTop | api/deltalake_adapter.py:276-290 | each group is ranked at most once, and a group whose bucket is left out under the limit has a count no larger than any bucket shown |
| DeltaAdapter.RankedTop | api/deltalake_adapter.py:285-290 | the ranked groups are a sub-multiset of the groupby rows, and none is smaller than a group left out |
| DeltaAdapter.AggregateByComplete | api/deltalake_adapter.py:276-286 | without a limit every distinct non-null value of the column has exactly one bucket |
| DeltaAdapter.AggregateByBucket | api/deltalake_adapter.py:276-303 | a bucket names a held value, counts non-null stock numbers and sums prices; min <= avg <= max when priced, else 0; a days average exactly when days exist |
| DeltaAdapter.StatBucket | api/deltalake_adapter.py:276-303 | a value's bucket holds exactly the rows with that value: counts their non-null stock numbers, sums their prices, and has min <= avg <= max when priced |
| DeltaAdapter.ResponseEmpty | api/deltalake_adapter.py:222-245 | the empty response comes exactly from a missing inventory or an empty filtered frame |
| DeltaAdapter.ResponseTotals | api/deltalake_adapter.py:226-252 | otherwise total_units counts the rows every mask holds for, total_value sums their prices, and min <= avg <= max when a price is present |
| DeltaAdapter.ResponseLimits | api/deltalake_adapter.py:254-268 | the by_dealer_group, by_manufacturer, by_state, by_city and by_county lists are capped at 20, 20, 65, 50 and 50 |
| DeltaAdapter.BuildSummary | api/deltalake_adapter.py:247-268 | the response dict of a non-empty filtered frame is exactly the response function: totals and price statistics when a price column exists, and the eight by_X lists with their limits |
| DeltaAdapter.NullStockNumberCounted | api/deltalake_adapter.py:248 | a row without a stock number counts toward total_units but not toward its bucket's count |
| DeltaAdapter.ParseCacheKeyMeaning | api/deltalake_adapter.py:177-188 | "condition:V" and "rv_type:V" parse to their filter, even when V holds ':'; a key without ':' gives None |
| DeltaAdapter.ParseCacheKeyOther | api/deltalake_adapter.py:183-188 | a key of any other kind gives None |
| DeltaAdapter.EmptyValueIsUnfiltered | api/deltalake_adapter.py:181-184 | "condition:" with nothing after the colon answers the unfiltered response |
| DeltaAdapter.ToListing | api/deltalake_adapter.py:143-163 | a listing reports the row's state as its location and has no title |
| DeltaAdapter.CachedInventory | api/deltalake_adapter.py:113-165 | the loop appends exactly one listing per row of the limited filtered frame |
| DeltaAdapter.ListingsMeaning | api/deltalake_adapter.py:113-165 | it returns [] without inventory; otherwise the listings of the first rows meeting every filter, in cache order and unsorted |
| DeltaAdapter.CityOptions | api/deltalake_adapter.py:87 | the city options are the first 500 held cities in ascending order: strictly ascending, each held, and a held city is left out only when 500 are listed, all smaller than it |
| Text.TakeSmallest | api/deltalake_adapter.py:87 | the first n of an ascending list come from it, and anything left out is larger than all n kept |
| DeltaAdapter.FilterOptionsMeaning | api/deltalake_adapter.py:67-91 | all lists are empty without inventory; otherwise each list is ascending without repeats and holds exactly its column's non-null values, regions are [] without their column, and cities are the first 500 held cities in ascending order, or [] without their column |
| DeltaAdapter.DealersOf | api/deltalake_adapter.py:93-98 | [] without a dealer table; otherwise the ascending distinct dealership names |
| DeltaAdapter.DeltaLakeClient.constructor | api/deltalake_adapter.py:31-33 | a new client holds no cache |
| DeltaAdapter.DeltaLakeClient.LoadInventoryCache | api/deltalake_adapter.py:44-54 | the cache is built once; later calls change nothing |
| DeltaAdapter.DeltaLakeClient.GetFilterOptions | api/deltalake_adapter.py:67-91 | it returns the filter options of the cached inventory |
| DeltaAdapter.DeltaLakeClient.ListDealers | api/deltalake_adapter.py:93-98 | it returns the dealer list of the cached dealer table |
| DeltaAdapter.DeltaLakeClient.GetCachedInventory | api/deltalake_adapter.py:100-165 | it returns the listings of the cached inventory for the query |
| DeltaAdapter.DeltaLakeClient.GetFilteredAggregations | api/deltalake_adapter.py:190-268 | it returns the response for the filters and leaves the cache as it was |
| DeltaAdapter.DeltaLakeClient.GetFastAggregations | api/deltalake_adapter.py:167-169 | the fast path is the response with no filter at all |
| DeltaAdapter.DeltaLakeClient.GetFilteredAggregationsCached | api/deltalake_adapter.py:171-188 | the answer for a snapshot key is the on-demand response of the filter it names, or None |
| GoldReader.TableUriComponents | parquet_test/gold_table_reader.py:73-75 | the URI is the '/'-join of scheme, host, lakehouse, "Tables", schema and table |
| GoldReader.TableUriParse | parquet_test/gold_table_reader.py:73-75 | schema and table names without '/' read back from the URI, so distinct pairs give distinct URIs |
| GoldReader.CacheUriIsGold | parquet_test/deltalake_cache.py:82-84 | the cache builder's URI is the reader's URI in the gold schema |
| GoldReader.ReadTableMeaning | parquet_test/gold_table_reader.py:97-123 | None exactly when the table cannot be opened; otherwise it selects the requested columns; a positive limit keeps the first rows up to the limit, a negative one drops that many from the end, and no limit keeps every row |
| GoldReader.InventoryWithDetails | parquet_test/gold_table_reader.py:197-199 | None exactly when any of the three tables is missing |
| GoldReader.StagePassThrough | parquet_test/gold_table_reader.py:202-215 | a join whose key is missing from either frame passes the inventory through unchanged |
| GoldReader.DetailsKeepRows | parquet_test/gold_table_reader.py:201-217 | every inventory row survives both left joins with its own cells |
| GoldReader.ProductStageNulls | parquet_test/gold_table_reader.py:202-207 | with unique product keys the stage keeps the row count, and an unmatched row has nulls in the added columns |
| DataCatalog.ParseDeltaPathMeaning | archive/fabric-infrastructure/extract_data_catalog.py:72-78 | the table is the component before the first "_delta_log" component, the path joins the components before it, and the schema is the component before that, or "default" at depth one |
| DataCatalog.ParseJoinedPath | archive/fabric-infrastructure/extract_data_catalog.py:72-78 | a path built from components parses back to them |
| DataCatalog.SubstringRaises | archive/fabric-infrastructure/extract_data_catalog.py:71-73 | a name containing "_delta_log" only inside a longer component makes `index` raise |
| DataCatalog.DiscoverTables | archive/fabric-infrastructure/extract_data_catalog.py:63-100 | the scan loop computes exactly the discovery function |
| DataCatalog.RecordWellFormed | archive/fabric-infrastructure/extract_data_catalog.py:80-90 | recording a table keeps each schema once, each table name once per schema, and the count equal to the number of entries |
| DataCatalog.ScanRaises | archive/fabric-infrastructure/extract_data_catalog.py:70-73 | the scan raises exactly on a qualifying path without a "_delta_log" component reached before the stop |
| DataCatalog.DiscoverMeaning | archive/fabric-infrastructure/extract_data_catalog.py:63-100 | each schema appears once with distinct table names; there are at most max_tables tables; every listed pair comes from a path; below the limit every parsed pair is listed |
| DataCatalog.AnchorMeaning | archive/fabric-infrastructure/extract_data_catalog.py:249 | the anchor is "{schema}-{table}" with underscores hyphenated and capitals lowered, character for character |
| DataCatalog.AnchorsCollide | archive/fabric-infrastructure/extract_data_catalog.py:249 | distinct tables can share an anchor: a_b/c and a/b_c both give a-b-c |
| DataCatalog.CellTextMeaning | archive/fabric-infrastructure/extract_data_catalog.py:303-305 | a cell is 1 to 30 characters without '|' or newline: "NULL" for an empty value, else its escaped first 30 characters |
| DataCatalog.RowLineCells | archive/fabric-infrastructure/extract_data_catalog.py:306 | cells without '|' read back from their table line, one per column |
| DataCatalog.AppendSample | archive/fabric-infrastructure/extract_data_catalog.py:294-311 | the loop appends exactly the sample block's lines |
| DataCatalog.SampleShape | archive/fabric-infrastructure/extract_data_catalog.py:294-311 | the block has a header of at most 10 names cut to 20 characters, a rule, at most 10 rows and a note for more columns, or else the placeholder |
| DataCatalog.SampleRowsReadBack | archive/fabric-infrastructure/extract_data_catalog.py:300-306 | each row line reads back as the escaped values of the row's first ten columns |
| DataCatalog.LatestLog | archive/fabric-infrastructure/extract_data_catalog.py:114-117 | the chosen log is one of the ".json" names, and there is none exactly when no name ends in ".json" |
| DataCatalog.LatestLogIsLast | archive/fabric-infrastructure/extract_data_catalog.py:117 | no ".json" name sorts after the chosen log |
| DataCatalog.ReadDeltaSchema | archive/fabric-infrastructure/extract_data_catalog.py:102-154 | the line loop computes exactly the schema function of the latest log |
| DataCatalog.SkippedLineIgnored | archive/fabric-infrastructure/extract_data_catalog.py:148-149 | a line that is not JSON, or whose schemaString is not JSON, changes nothing |
| DataCatalog.AccumulateCounts | archive/fabric-infrastructure/extract_data_catalog.py:144-146 | the counters only add: files by lines with "add", bytes by their sizes (0 when missing), and columns by appending |
| DataCatalog.LineCounts | archive/fabric-infrastructure/extract_data_catalog.py:144-146 | one line counts one file, and adds its size (0 when missing), exactly when it has an "add" entry and neither the line nor its schemaString fails to parse |
| DataCatalog.SchemaOfAppend | archive/fabric-infrastructure/extract_data_catalog.py:121-150 | over two concatenated logs the file count, byte total and columns add up |
| DataCatalog.SchemaBounds | archive/fabric-infrastructure/extract_data_catalog.py:144-146 | at most one file per line, and no negative total from non-negative sizes |
| DataCatalog.ColumnTypeMeaning | archive/fabric-infrastructure/extract_data_catalog.py:132-134 | a missing type reads "unknown"; a nested type reads its own "type" entry, or its text without one |
| SqlConnector.Encode | archive/fabric-infrastructure/connectors/sql_connector.py:92 | UTF-16-LE output has even length, two to four bytes per character |
| SqlConnector.DecodeEncode | archive/fabric-infrastructure/connectors/sql_connector.py:92 | decoding the UTF-16-LE bytes gives the token back |
| SqlConnector.EncodeBasic | archive/fabric-infrastructure/connectors/sql_connector.py:92 | a character below U+10000 takes two bytes, low byte first; an ASCII character is its code then 0 |
| SqlConnector.ReadWritten32 | archive/fabric-infrastructure/connectors/sql_connector.py:93 | a packed little-endian unsigned 32-bit length reads back as itself |
| SqlConnector.TokenStructMeaning | archive/fabric-infrastructure/connectors/sql_connector.py:90-94 | packing fails exactly at 2^32 bytes or more; otherwise four length bytes followed by the encoded token, from which the token reads back |
| SqlConnector.ConnectionStringJoin | archive/fabric-infrastructure/connectors/sql_connector.py:82-88 | the connection string is the ';'-join of its five settings and a final empty part |
| SqlConnector.ConnectionStringSettings | archive/fabric-infrastructure/connectors/sql_connector.py:82-88 | with no ';' in server or database, the string splits into the five key=value settings, in order |
| SqlConnector.SqlConnector.constructor | archive/fabric-infrastructure/connectors/sql_connector.py:64-67 | empty or absent names fall back to the configured endpoint and lakehouse; no connection is held |
| SqlConnector.SqlConnector.Connect | archive/fabric-infrastructure/connectors/sql_connector.py:96-123 | a held connection is returned unchanged; otherwise the driver's outcome is returned and held on success |
| SqlConnector.SqlConnector.Disconnect | archive/fabric-infrastructure/connectors/sql_connector.py:125-130 | a held connection is closed and dropped; with none held nothing happens |
| Sorting.SortDescProperties | api/main.py:1790 | Python's stable descending sort yields a descending, permuted list that keeps input order among equal keys |
| Sorting.PrefixDominates | api/main.py:1671-1672 | in a descending list, an element left out of a prefix has a key no larger than any element in it |
| Sorting.TopPrefix | api/deltalake_adapter.py:285-290 | a prefix of the descending sort is ordered, a sub-multiset of the input, and no smaller than any element left out |
| Stats.MeanWithinRange | api/main.py:1805-1807 | the mean of a non-empty price list lies between its minimum and maximum |
| Stats.PositiveStats | api/main.py:1805-1807 | over the positive prices, the fallback min, mean and max are ordered, come from the list and bound every positive price |
| Grouping.GroupByMeaning | api/main.py:1734-1786 | the defaultdict loop has distinct keys, the truthy keys in first-seen order, and each key's value is the fold of exactly its rows |
| Grouping.UpsertKeys | api/main.py:1753 | a new key is appended; an existing key keeps its place |
| Text.SortedList | api/main.py:375-381 | `sorted(list(s))` is strictly ascending and holds exactly the set's elements |
| Text.Take | api/main.py:1672 | `s[:n]` is a prefix whose length follows Python's slice rules, negative n included |
| Text.Dedup | api/main.py:225 | deduplication keeps every key exactly once |
| Text.SplitJoin | archive/fabric-infrastructure/extract_data_catalog.py:72-78 | splitting a join of separator-free parts gives the parts back |
| Text.JoinSplit | archive/fabric-infrastructure/extract_data_catalog.py:72-78 | joining the parts of a split gives the string back |
| Text.SplitFirst | api/deltalake_adapter.py:177 | `split(d, 1)` gives two parts exactly when d occurs, and the first part holds no d |
| Text.IndexOf | archive/fabric-infrastructure/extract_data_catalog.py:73 | `list.index` finds the first occurrence, and raises exactly when there is none |
| Text.StripKeepsHead | api/main.py:1677 | `strip()` keeps a head that starts and ends with non-space characters |
| Responses.EmptySummary | api/deltalake_adapter.py:307-323 | the empty response has every figure 0 and every bucket list empty |

## Left out

- Network and storage I/O are parameters of the model, not calls:
  - GraphQL queries, Delta table reads, credentials and the ODBC driver;
  - the parameters are `Upstream` (rows a GraphQL query would return), `Tables` (frames `read_table` would return), `built` (the snapshot `build_aggregations_cache` would store), `fetch` (one batch query), `issued` (the credential's token), `accepted` (the driver's verdict) and `now` (the clock, in whole seconds).
- **The snapshot builders are not modelled:** `build_aggregations_cache`, `build_filtered_aggregations_cache` and `_build_aggregations_for_product_skeys`.
  - The reason is that their work is HTTP `groupBy` requests.
  - Only their row folding (`GraphQLAggregate.FoldGroupRows`) and their weighted `format_agg` are modelled.
  - The two identical copies of that formatter at api/main.py:1039 and api/main.py:1295 are modelled once.
  - The third variant, at api/main.py:1529-1546 inside the unmodelled `_build_aggregations_for_product_skeys`, is not modelled. It differs: it reports min and max price from the data (an infinite minimum becomes 0), and it reports an average of 0 for an entry without `avg_prices`.
- **Other GraphQL client operations are not modelled:** `execute_query`, `fetch_all_inventory` (pagination over HTTP), `get_inventory`, `get_inventory_summary`, `get_native_aggregations`, the client's own `get_aggregated_summaries` at api/main.py:624, and the sales-velocity methods and endpoints.
  - They are request-building and transport code over the same data.
  - Only the `format_aggregation` formatter of that client method is modelled.
- The FastAPI endpoint layer outside the tier decision is not modelled: routing, the response models, and the mapping of any exception to HTTP 500.
- The singleton `__new__` of both clients is not modelled; each model class stands for the one instance.
- `SQLConnector._get_access_token` is not modelled: it only picks and calls a credential, so the token is a parameter of `Connect`.
- Printed progress and warning messages are not modelled.
- Python set iteration order is unspecified. The model takes first-occurrence order (`Text.Dedup`), and the contracts rely only on "each key once".
- Prices and bounds are integers, and averages are reals; the source uses floats.
  - Float rounding is not captured.
  - A pandas NaN result (mean, min or max over no values) is the explicit `Float.NaN`.
- **Missing columns and missing caches are preconditions, not error results:**
  - a `KeyError` or `AttributeError` from a filter, `groupby` or column selection on an absent column;
  - a method called before `_cache` is set (`Applicable`, `AggColumns`, `Groupable`, `OptionColumns`, `Buildable`, `cache.Some?`).
- DeltaAdapter.AggregateByShape: pandas `sort_values` is not stable. The model ranks groups with a stable sort, but the contracts leave the order among equal counts open. They promise count-descending order, the slice length, each group at most once (with every group exactly once when there is no limit, `DeltaAdapter.AggregateByComplete`), and that a group left out has no larger count (`DeltaAdapter.AggregateByTop`).
- GraphQLClient.FabricGraphQLClient.GetAggregatedSummaries routes by the corrected tier decision (`QueryFacade.TierOf`, see "## Findings"). When a price bound is 0 and no other criterion is truthy (`max_price=0` alone, say), it computes the on-demand summary, where the code as written (`QueryFacade.TierAsWritten`) returns the unfiltered snapshot. `QueryFacade.TierAsWrittenAgrees` proves the two decisions agree whenever neither bound is 0.
- The endpoint's `if cached:` test stands as `cached.Some?`. The source would fall through on an empty stored dict, but every stored per-filter snapshot has a `total_units` entry (api/main.py:1333-1343), so none is empty.
- DeltaCache.AggregationsQuery: a non-empty filtered frame without a `price` column makes the source raise `KeyError` (parquet_test/deltalake_cache.py:459-460). The model reads the absent column as holding no prices. The joined inventory always has the column.
- Frames.GroupKeys keys only string cells. A non-null number or date in a grouped column, which pandas would group as well, is skipped; the grouped columns hold strings.
- Frames.Joinable excludes merges whose frames share a non-key column. So the model leaves out the pandas `_x`/`_y` renaming that such a merge would produce.
- `Text.Lower` lowers ASCII capitals only, and `Text.Strip` removes ASCII whitespace only.
- **Catalog-extractor parts not modelled:**
  - JSON parsing, and log entries that are JSON but not objects;
  - the outer `try/except` of `read_delta_schema`, since its body raises nothing else once parsing is a parameter;
  - `size_mb` rounding;
  - the rest of `generate_markdown` (header, table of contents, statistics and column tables);
  - the file writing.
- `SQLConnector` query helpers, `list_*` helpers and the context-manager protocol are not modelled.
- The Delta client's `load_cache` is not modelled; it does nothing.

## Findings

| source | as written | input that shows it | evidently intended | confidence | as-written member | corrected member |
|---|---|---|---|---|---|---|
| api/main.py:2469 | the fast-path test `any([...])` checks the price bounds by truthiness | `max_price=0` alone: the unfiltered snapshot is returned, although the filters (api/main.py:1728-1731) would keep only items priced at most 0 | test the bounds with `is not None`, like the tier-2 test at api/main.py:2484 and the filters | medium, not executed | QueryFacade.LoneZeroBoundTakesFastPath (over QueryFacade.TierAsWritten) | QueryFacade.TierFastExactly (over QueryFacade.TierOf, which GraphQLClient.FabricGraphQLClient.GetAggregatedSummaries uses) |
