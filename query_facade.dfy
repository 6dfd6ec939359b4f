/** The tier decision of the /inventory/aggregated endpoint
    (get_aggregated_summaries in api/main.py): the precomputed snapshot,
    a single-filter snapshot, or aggregation computed on demand. */
module QueryFacade {
  import opened Wrappers
  import opened Text
  import opened GraphQLCache

  /** The endpoint's query parameters. */
  datatype Params = Params(
    rvClass: Option<string>,
    dealerGroup: Option<string>,
    manufacturer: Option<string>,
    condition: Option<string>,
    state: Option<string>,
    minPrice: Option<int>,
    maxPrice: Option<int>)

  /** The filter get_filtered_aggregations applies: it has no dealer filter. */
  function QueryOf(p: Params): Query {
    Query(None, p.dealerGroup, p.rvClass, p.manufacturer, p.condition, p.state, p.minPrice, p.maxPrice)
  }

  datatype Tier =
    | Precomputed
    | FilterSnapshot(key: string, fallback: Query)
    | OnDemand(q: Query)

  /** `any([...])` over all seven parameters, price bounds included, as written. */
  predicate HasFiltersAsWritten(p: Params) {
    Truthy(p.rvClass) || Truthy(p.dealerGroup) || Truthy(p.manufacturer) || Truthy(p.condition)
    || Truthy(p.state) || TruthyInt(p.minPrice) || TruthyInt(p.maxPrice)
  }

  /** The test with the price bounds checked by `is not None`, as the tier-2
      test and the filters themselves do. */
  predicate HasFilters(p: Params) {
    Truthy(p.rvClass) || Truthy(p.dealerGroup) || Truthy(p.manufacturer) || Truthy(p.condition)
    || Truthy(p.state) || HasPriceFilter(p)
  }

  predicate HasPriceFilter(p: Params) {
    p.minPrice.Some? || p.maxPrice.Some?
  }

  function SingleFilterCount(p: Params): (n: nat)
    ensures n <= 5
  {
    (if Truthy(p.rvClass) then 1 else 0) + (if Truthy(p.condition) then 1 else 0)
    + (if Truthy(p.dealerGroup) then 1 else 0) + (if Truthy(p.manufacturer) then 1 else 0)
    + (if Truthy(p.state) then 1 else 0)
  }

  /** The snapshot consulted for a lone condition or rv_class filter. */
  function SnapshotKey(p: Params): Option<string> {
    if SingleFilterCount(p) == 1 && !HasPriceFilter(p) then
      if Truthy(p.condition) then Some("condition:" + p.condition.value)
      else if Truthy(p.rvClass) then Some("rv_type:" + p.rvClass.value)
      else None
    else None
  }

  /** The tier chosen once filters are known to be present. */
  function FilteredTier(p: Params): Tier {
    match SnapshotKey(p)
    case Some(k) => FilterSnapshot(k, QueryOf(p))
    case None => OnDemand(QueryOf(p))
  }

  /** The tier decision as written: truthiness for the price bounds. */
  function TierAsWritten(p: Params): Tier {
    if HasFiltersAsWritten(p) then FilteredTier(p) else Precomputed
  }

  /** The tier decision with `is not None` for the price bounds. */
  function TierOf(p: Params): Tier {
    if HasFilters(p) then FilteredTier(p) else Precomputed
  }

  /** A lone max_price=0 takes the fast path as written, although the bound
      it asks for is a real filter that the on-demand path would apply. */
  lemma LoneZeroBoundTakesFastPath()
    ensures var p := Params(None, None, None, None, None, None, Some(0));
      TierAsWritten(p) == Precomputed && Active(QueryOf(p)) == [AtMost(0)]
      && TierOf(p) == OnDemand(QueryOf(p))
  {
  }

  /** The precomputed snapshot is served exactly when no criterion is active. */
  lemma TierFastExactly(p: Params)
    ensures TierOf(p) == Precomputed <==> Active(QueryOf(p)) == []
  {
  }

  /** The two decisions differ only for a price bound equal to 0. */
  lemma TierAsWrittenAgrees(p: Params)
    requires p.minPrice != Some(0) && p.maxPrice != Some(0)
    ensures TierAsWritten(p) == TierOf(p)
  {
  }

  /** Tier 2 is tried exactly for a lone condition or rv_class filter with no
      price bound, under the key "condition:V" or "rv_type:V"; a miss falls
      back to the same filter computed on demand. */
  lemma SnapshotTier(p: Params)
    ensures TierOf(p).FilterSnapshot? <==>
      |Active(QueryOf(p))| == 1 && (Truthy(p.condition) || Truthy(p.rvClass))
    ensures TierOf(p).FilterSnapshot? ==>
      TierOf(p).fallback == QueryOf(p)
      && (Truthy(p.condition) ==> Active(QueryOf(p)) == [Equals(Condition, p.condition.value)]
                                  && TierOf(p).key == "condition:" + p.condition.value)
      && (Truthy(p.rvClass) ==> Active(QueryOf(p)) == [Equals(RvType, p.rvClass.value)]
                                && TierOf(p).key == "rv_type:" + p.rvClass.value)
  {
    ActiveLength(p);
  }

  /** Every other filtered request is computed on demand with its own filter. */
  lemma OnDemandTier(p: Params)
    ensures TierOf(p).OnDemand? <==> Active(QueryOf(p)) != [] && !TierOf(p).FilterSnapshot?
    ensures TierOf(p).OnDemand? ==> TierOf(p).q == QueryOf(p)
  {
    TierFastExactly(p);
  }

  lemma ActiveLength(p: Params)
    ensures |Active(QueryOf(p))| == SingleFilterCount(p) + (if p.minPrice.Some? then 1 else 0) + (if p.maxPrice.Some? then 1 else 0)
  {
  }
}
