/** The GraphQL backend's client object (class FabricGraphQLClient in
    api/main.py) with the caches it keeps between requests. HTTP calls are
    replaced by an `Upstream` value holding what the queries would return,
    and the snapshots built from groupBy queries by a `built` parameter. */
module GraphQLClient {
  import opened Wrappers
  import opened Text
  import opened Sorting
  import opened Responses
  import opened GraphQLCache
  import opened GraphQLAggregate
  import opened QueryFacade

  class FabricGraphQLClient {
    var token: Option<string>
    var tokenExpires: Option<int>
    var cacheLoaded: bool
    var dims: Dims
    var aggregations: Option<Summary>
    var filteredAggregations: Option<map<string, Summary>>
    var inventory: Option<seq<CachedItem>>

    constructor()
      ensures token == None && tokenExpires == None && !cacheLoaded
      ensures dims == Dims(map[], map[], map[])
      ensures aggregations == None && filteredAggregations == None && inventory == None
    {
      token := None;
      tokenExpires := None;
      cacheLoaded := false;
      dims := Dims(map[], map[], map[]);
      aggregations := None;
      filteredAggregations := None;
      inventory := None;
    }

    /** _get_token; `now` is the clock and `issued` what the credential would return. */
    method GetToken(now: int, issued: AccessToken) returns (t: string)
      modifies this`token, this`tokenExpires
      ensures old(NeedsRefresh(token, tokenExpires, now)) ==>
        token == Some(issued.token) && tokenExpires == Some(issued.expiresOn)
      ensures !old(NeedsRefresh(token, tokenExpires, now)) ==>
        token == old(token) && tokenExpires == old(tokenExpires)
      ensures token == Some(t)
    {
      if token.None? || (TruthyInt(tokenExpires) && now > tokenExpires.value - RefreshMarginSeconds) {
        token := Some(issued.token);
        tokenExpires := Some(issued.expiresOn);
      }
      t := token.value;
    }

    /** load_cache: builds the three dimension caches once. */
    method LoadCache(up: Upstream)
      modifies this`cacheLoaded, this`dims
      ensures cacheLoaded
      ensures dims == if old(cacheLoaded) then old(dims) else IndexDims(up)
    {
      if cacheLoaded {
        return;
      }
      var products := IndexRows(up.productRows);
      var floorplans := IndexRows(up.floorplanRows);
      var dealers := IndexRows(up.dealerRows);
      dims := Dims(products, floorplans, dealers);
      cacheLoaded := true;
    }

    /** load_inventory_cache: joins every fetched item with the dimension caches, once. */
    method LoadInventoryCache(up: Upstream)
      modifies this`cacheLoaded, this`dims, this`inventory
      ensures inventory == Some(InventoryAfterLoad(old(inventory), old(cacheLoaded), old(dims), up))
      ensures old(inventory).Some? ==> cacheLoaded == old(cacheLoaded) && dims == old(dims)
      ensures old(inventory).None? ==> cacheLoaded && dims == if old(cacheLoaded) then old(dims) else IndexDims(up)
    {
      if inventory.Some? {
        return;
      }
      LoadCache(up);
      var items := up.inventory;
      var cache: seq<CachedItem> := [];
      var i := 0;
      while i < |items|
        invariant 0 <= i <= |items|
        invariant cache == JoinAll(dims, items[..i])
      {
        cache := cache + [JoinItem(dims, items[i])];
        i := i + 1;
      }
      assert items[..i] == items;
      inventory := Some(cache);
    }

    /** get_cached_inventory. With no filter applied, `filtered` is the cache
        itself and the sort reorders the cache in place. */
    method GetCachedInventory(q: Query, limit: int, up: Upstream) returns (results: seq<Listing>)
      modifies this`cacheLoaded, this`dims, this`inventory
      ensures var base := InventoryAfterLoad(old(inventory), old(cacheLoaded), old(dims), up);
        results == Listings(InventoryPage(base, q, limit))
        && inventory == Some(CacheAfterQuery(base, q))
    {
      LoadInventoryCache(up);
      var filtered := KeepAll(inventory.value, Active(q));
      var sorted := SortDesc(filtered, PriceKey);
      if Active(q) == [] {
        inventory := Some(sorted);
      }
      results := FormatListings(Take(sorted, limit));
    }

    /** get_filter_options. */
    method GetFilterOptions(up: Upstream) returns (r: FilterOptions)
      modifies this`cacheLoaded, this`dims
      ensures dims == if old(cacheLoaded) then old(dims) else IndexDims(up)
      ensures r == FilterOptionsOf(dims)
    {
      LoadCache(up);
      r := FilterOptionsOf(dims);
    }

    /** list_dealers. */
    method ListDealers(up: Upstream) returns (r: seq<string>)
      modifies this`cacheLoaded, this`dims
      ensures dims == if old(cacheLoaded) then old(dims) else IndexDims(up)
      ensures r == DealerNames(dims)
    {
      LoadCache(up);
      r := DealerNames(dims);
    }

    /** get_fast_aggregations; `built` is what build_aggregations_cache would store. */
    method GetFastAggregations(built: Summary) returns (s: Summary)
      modifies this`aggregations
      ensures aggregations == Some(if old(aggregations).Some? then old(aggregations).value else built)
      ensures s == aggregations.value
    {
      if aggregations.None? {
        aggregations := Some(built);
      }
      s := aggregations.value;
    }

    /** get_filtered_aggregations_cached: None before the snapshots are built
        and for a key without a snapshot. */
    method GetFilteredAggregationsCached(key: string) returns (r: Option<Summary>)
      ensures r.Some? <==> filteredAggregations.Some? && key in filteredAggregations.value
      ensures r.Some? ==> r.value == filteredAggregations.value[key]
    {
      if filteredAggregations.None? {
        return None;
      }
      var snapshots := filteredAggregations.value;
      if key in snapshots {
        r := Some(snapshots[key]);
      } else {
        r := None;
      }
    }

    /** get_filtered_aggregations: filters a new list, so the cache keeps its order. */
    method GetFilteredAggregations(p: Params, up: Upstream) returns (s: Summary)
      modifies this`cacheLoaded, this`dims, this`inventory
      ensures var base := InventoryAfterLoad(old(inventory), old(cacheLoaded), old(dims), up);
        inventory == Some(base) && s == FilteredSummary(KeepAll(base, Active(QueryOf(p))))
    {
      LoadInventoryCache(up);
      var filtered := KeepAll(inventory.value, Active(QueryOf(p)));
      var t := Aggregate(filtered);
      s := SummaryOf(t, |filtered|);
    }

    /** get_aggregated_summaries, with the price bounds checked by `is not None`.
        `built` is what build_aggregations_cache would store. */
    method GetAggregatedSummaries(p: Params, built: Summary, up: Upstream) returns (s: Summary)
      modifies this`aggregations, this`cacheLoaded, this`dims, this`inventory
      ensures var base := InventoryAfterLoad(old(inventory), old(cacheLoaded), old(dims), up);
        match TierOf(p)
        case Precomputed =>
          s == (if old(aggregations).Some? then old(aggregations).value else built)
          && inventory == old(inventory)
        case FilterSnapshot(key, q) =>
          if old(filteredAggregations).Some? && key in old(filteredAggregations).value
          then s == old(filteredAggregations).value[key] && inventory == old(inventory)
          else s == FilteredSummary(KeepAll(base, Active(q))) && inventory == Some(base)
        case OnDemand(q) =>
          s == FilteredSummary(KeepAll(base, Active(q))) && inventory == Some(base)
    {
      match TierOf(p)
      case Precomputed =>
        s := GetFastAggregations(built);
      case FilterSnapshot(key, q) =>
        var cached := GetFilteredAggregationsCached(key);
        if cached.Some? {
          s := cached.value;
        } else {
          s := GetFilteredAggregations(p, up);
        }
      case OnDemand(q) =>
        s := GetFilteredAggregations(p, up);
    }
  }
}
