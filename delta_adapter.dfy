/** DeltaLakeClient (api/deltalake_adapter.py): the Delta Lake backend of
    the API, serving the same responses as the GraphQL client from the
    cache that build_cache produces. */
module DeltaAdapter {
  import opened Wrappers
  import opened Text
  import opened Sorting
  import opened Stats
  import opened Frames
  import opened Responses
  import opened DeltaCache

  // ---------------------------------------------------------------------------
  // Filters

  /** The keyword filters of _build_aggregation_response and get_filtered_aggregations. */
  datatype Filters = Filters(
    rvType: Option<string>,
    dealerGroup: Option<string>,
    manufacturer: Option<string>,
    condition: Option<string>,
    state: Option<string>,
    minPrice: Option<int>,
    maxPrice: Option<int>)

  const NoFilters := Filters(None, None, None, None, None, None, None)

  /** The masks of _build_aggregation_response, in its order. */
  function CriteriaOf(q: Filters): seq<Criterion> {
    EqualsIf(q.rvType, "rv_type") + EqualsIf(q.dealerGroup, "dealer_group") + EqualsIf(q.manufacturer, "manufacturer")
    + EqualsIf(q.condition, "condition") + EqualsIf(q.state, "state") + BoundsOf(q.minPrice, q.maxPrice)
  }

  /** The masks of get_cached_inventory, which adds a dealership filter in front. */
  function ListingCriteria(dealer: Option<string>, q: Filters): seq<Criterion> {
    EqualsIf(dealer, "dealership") + EqualsIf(q.dealerGroup, "dealer_group") + EqualsIf(q.rvType, "rv_type")
    + EqualsIf(q.manufacturer, "manufacturer") + EqualsIf(q.condition, "condition") + EqualsIf(q.state, "state")
    + BoundsOf(q.minPrice, q.maxPrice)
  }

  // ---------------------------------------------------------------------------
  // _aggregate_by

  /** One row of the groupby: count, price sum/mean/min/max and mean days on lot.
      A statistic over no values is None (NaN in pandas). */
  datatype Stat = Stat(
    name: string,
    count: int,
    total: int,
    avg: Float,
    min: Option<int>,
    max: Option<int>,
    days: Float)

  function StatOf(rows: seq<Row>, col: string, v: string): Stat {
    var g := GroupRows(rows, col, v);
    var ps := Ints(g, "price");
    Stat(v, NonNullCount(g, "stock_number"), Sum(ps), MeanOf(ps),
         if ps == [] then None else Some(Min(ps)),
         if ps == [] then None else Some(Max(ps)),
         MeanOf(Ints(g, "days_on_lot")))
  }

  /** `df.groupby(col).agg(...)`, one row per distinct non-null value, ascending. */
  function Grouped(rows: seq<Row>, col: string): (r: seq<Stat>)
    ensures |r| == |GroupKeys(rows, col)|
    ensures forall k :: 0 <= k < |r| ==> r[k] == StatOf(rows, col, GroupKeys(rows, col)[k])
  {
    var ks := GroupKeys(rows, col);
    seq(|ks|, k requires 0 <= k < |ks| => StatOf(rows, col, ks[k]))
  }

  function StatCount(s: Stat): int {
    s.count
  }

  /** Sorted by count descending, then `head(limit)` when limit is truthy. */
  function Ranked(rows: seq<Row>, col: string, limit: Option<int>): seq<Stat> {
    var sorted := SortDesc(Grouped(rows, col), StatCount);
    if TruthyInt(limit) then Take(sorted, limit.value) else sorted
  }

  function OrZero(x: Float): real {
    if x.Finite? then x.value else 0.0
  }

  /** One result dict: NaN statistics become 0 and a NaN mean of days becomes None. */
  function ToBucket(s: Stat): Bucket {
    Bucket(s.name, s.count, s.total, OrZero(s.avg), s.min.GetOr(0), s.max.GetOr(0),
           if s.days.Finite? then Some(s.days.value) else None)
  }

  /** The groupby's agg dict names these columns (KeyError otherwise). */
  predicate AggColumns(df: Frame) {
    "stock_number" in df.columns && "price" in df.columns && "days_on_lot" in df.columns
  }

  /** One result dict per grouped row, in order. */
  function Buckets(ss: seq<Stat>): (r: seq<Bucket>)
    ensures |r| == |ss| && forall k :: 0 <= k < |ss| ==> r[k] == ToBucket(ss[k])
  {
    seq(|ss|, k requires 0 <= k < |ss| => ToBucket(ss[k]))
  }

  function AggregateBySpec(df: Frame, col: string, limit: Option<int>): seq<Bucket>
    requires col in df.columns ==> AggColumns(df)
  {
    if col !in df.columns then [] else Buckets(Ranked(df.rows, col, limit))
  }

  /** _aggregate_by: the result list is built by appending one dict per grouped row. */
  method AggregateBy(df: Frame, col: string, limit: Option<int>) returns (results: seq<Bucket>)
    requires col in df.columns ==> AggColumns(df)
    ensures results == AggregateBySpec(df, col, limit)
  {
    if col !in df.columns {
      return [];
    }
    results := AppendBuckets(Ranked(df.rows, col, limit));
  }

  /** The loop of _aggregate_by over the grouped rows. */
  method AppendBuckets(grouped: seq<Stat>) returns (results: seq<Bucket>)
    ensures results == Buckets(grouped)
  {
    results := [];
    var i := 0;
    while i < |grouped|
      invariant 0 <= i <= |grouped|
      invariant |results| == i
      invariant forall k :: 0 <= k < i ==> results[k] == ToBucket(grouped[k])
    {
      results := results + [ToBucket(grouped[i])];
      i := i + 1;
    }
  }

  function Names(bs: seq<Bucket>): (r: seq<string>)
    ensures |r| == |bs| && forall k :: 0 <= k < |bs| ==> r[k] == bs[k].name
  {
    seq(|bs|, k requires 0 <= k < |bs| => bs[k].name)
  }

  /** [] for an absent column; otherwise counts descend and a positive limit caps the length. */
  lemma AggregateByShape(df: Frame, col: string, limit: Option<int>)
    requires col in df.columns ==> AggColumns(df)
    ensures col !in df.columns ==> AggregateBySpec(df, col, limit) == []
    ensures var r := AggregateBySpec(df, col, limit);
      (forall i, j :: 0 <= i < j < |r| ==> r[i].count >= r[j].count)
      && (TruthyInt(limit) && limit.value > 0 ==> |r| <= limit.value)
    ensures col in df.columns && TruthyInt(limit) ==>
      |AggregateBySpec(df, col, limit)| == SliceLength(|Grouped(df.rows, col)|, limit.value)
  {
    if col in df.columns {
      var all := Grouped(df.rows, col);
      var sorted := SortDesc(all, StatCount);
      SortDescSorted(all, StatCount);
      var ranked := Ranked(df.rows, col, limit);
      var r := AggregateBySpec(df, col, limit);
      assert SortedDesc(ranked, StatCount);
      forall i, j | 0 <= i < j < |r| ensures r[i].count >= r[j].count {
        assert r[i].count == StatCount(ranked[i]) && r[j].count == StatCount(ranked[j]);
      }
      if TruthyInt(limit) && limit.value > 0 {
        TakeBound(sorted, limit.value);
      }
    }
  }

  /** The buckets kept are the largest groups: each grouped value is taken at
      most once, and a group left out under the limit has a count no larger
      than any bucket shown. */
  lemma AggregateByTop(df: Frame, col: string, limit: Option<int>)
    requires col in df.columns && AggColumns(df)
    ensures var all := Grouped(df.rows, col);
      var r := AggregateBySpec(df, col, limit);
      multiset(Ranked(df.rows, col, limit)) <= multiset(all)
      && forall s, b :: s in all && ToBucket(s) !in r && b in r ==> b.count >= s.count
  {
    RankedTop(df.rows, col, limit);
    BucketsTop(Grouped(df.rows, col), Ranked(df.rows, col, limit));
  }

  /** A bucket shown under the limit outranks every stat whose bucket is not shown. */
  lemma BucketsTop(all: seq<Stat>, ranked: seq<Stat>)
    requires forall s, t :: s in all && s !in ranked && t in ranked ==> StatCount(t) >= StatCount(s)
    ensures forall s, b :: s in all && ToBucket(s) !in Buckets(ranked) && b in Buckets(ranked) ==> b.count >= s.count
  {
    var r := Buckets(ranked);
    forall s, b | s in all && ToBucket(s) !in r && b in r ensures b.count >= s.count {
      var k :| 0 <= k < |r| && r[k] == b;
      assert ranked[k] in ranked;
    }
  }

  /** The same on the grouped rows, before they become buckets. */
  lemma RankedTop(rows: seq<Row>, col: string, limit: Option<int>)
    ensures var all := Grouped(rows, col);
      var ranked := Ranked(rows, col, limit);
      multiset(ranked) <= multiset(all)
      && forall s, t :: s in all && s !in ranked && t in ranked ==> StatCount(t) >= StatCount(s)
  {
    var all := Grouped(rows, col);
    var sorted := SortDesc(all, StatCount);
    if TruthyInt(limit) {
      var n := SliceLength(|all|, limit.value);
      assert Ranked(rows, col, limit) == sorted[..n];
      TopPrefix(all, StatCount, n);
    } else {
      assert Ranked(rows, col, limit) == sorted[..|all|];
      TopPrefix(all, StatCount, |all|);
    }
  }

  function StatNames(ss: seq<Stat>): seq<string> {
    seq(|ss|, k requires 0 <= k < |ss| => ss[k].name)
  }

  lemma StatNamesAt(ss: seq<Stat>)
    ensures |StatNames(ss)| == |ss| && forall k :: 0 <= k < |ss| ==> StatNames(ss)[k] == ss[k].name
  {
  }

  lemma StatNamesPermutation(a: seq<Stat>, b: seq<Stat>)
    requires multiset(a) == multiset(b)
    ensures forall v :: v in StatNames(a) ==> v in StatNames(b)
  {
    StatNamesAt(a);
    StatNamesAt(b);
    forall v | v in StatNames(a) ensures v in StatNames(b) {
      var k :| 0 <= k < |a| && StatNames(a)[k] == v;
      assert a[k] in multiset(b);
      var m :| 0 <= m < |b| && b[m] == a[k];
      assert StatNames(b)[m] == v;
    }
  }

  /** Without a limit every distinct value of the column has exactly one bucket. */
  lemma AggregateByComplete(df: Frame, col: string, limit: Option<int>)
    requires col in df.columns && AggColumns(df) && !TruthyInt(limit)
    ensures var r := AggregateBySpec(df, col, limit);
      |r| == |GroupKeys(df.rows, col)|
      && forall v :: v in Names(r) <==> exists row :: row in df.rows && Cell(row, col) == Str(v)
  {
    var all := Grouped(df.rows, col);
    SortDescPermutation(all, StatCount);
    var ranked := Ranked(df.rows, col, limit);
    var r := AggregateBySpec(df, col, limit);
    StatNamesAt(ranked);
    StatNamesAt(all);
    assert Names(r) == StatNames(ranked);
    assert StatNames(all) == GroupKeys(df.rows, col);
    StatNamesPermutation(ranked, all);
    StatNamesPermutation(all, ranked);
    GroupKeysMeaning(df.rows, col);
  }

  /** Each bucket names a value of the column and summarises exactly its rows:
      the count of non-null stock numbers (at most the rows), the sum of the
      prices, min <= avg <= max when a price is present, and a days average
      exactly when a row of the group has days on lot. */
  lemma AggregateByBucket(df: Frame, col: string, limit: Option<int>, k: nat)
    requires col in df.columns ==> AggColumns(df)
    requires k < |AggregateBySpec(df, col, limit)|
    ensures var b := AggregateBySpec(df, col, limit)[k];
      var g := GroupRows(df.rows, col, b.name);
      var ps := Ints(g, "price");
      (exists row :: row in df.rows && Cell(row, col) == Str(b.name))
      && (forall row :: row in g <==> row in df.rows && Cell(row, col) == Str(b.name))
      && b.count == NonNullCount(g, "stock_number") <= |g|
      && b.totalValue == Sum(ps)
      && (ps != [] ==> b.minPrice as real <= b.avgPrice <= b.maxPrice as real)
      && (ps == [] ==> b.minPrice == 0 && b.avgPrice == 0.0 && b.maxPrice == 0)
      && (b.avgDaysOnLot.Some? <==> Ints(g, "days_on_lot") != [])
  {
    var all := Grouped(df.rows, col);
    SortDescProperties(all, StatCount);
    var ranked := Ranked(df.rows, col, limit);
    var s := ranked[k];
    assert s in multiset(all) by {
      assert s in SortDesc(all, StatCount);
    }
    var m :| 0 <= m < |all| && all[m] == s;
    var v := GroupKeys(df.rows, col)[m];
    assert AggregateBySpec(df, col, limit)[k] == ToBucket(StatOf(df.rows, col, v));
    GroupKeysMeaning(df.rows, col);
    assert v in GroupKeys(df.rows, col);
    StatBucket(df.rows, col, v);
  }

  /** The bucket of value v summarises exactly the rows whose column holds v. */
  lemma StatBucket(rows: seq<Row>, col: string, v: string)
    ensures var b := ToBucket(StatOf(rows, col, v));
      var g := GroupRows(rows, col, v);
      var ps := Ints(g, "price");
      b.name == v
      && (forall row :: row in g <==> row in rows && Cell(row, col) == Str(v))
      && b.count == NonNullCount(g, "stock_number") <= |g|
      && b.totalValue == Sum(ps)
      && (ps != [] ==> b.minPrice as real <= b.avgPrice <= b.maxPrice as real)
      && (ps == [] ==> b.minPrice == 0 && b.avgPrice == 0.0 && b.maxPrice == 0)
      && (b.avgDaysOnLot.Some? <==> Ints(g, "days_on_lot") != [])
  {
    var ps := Ints(GroupRows(rows, col, v), "price");
    FilterMembers(rows, (r: Row) => Cell(r, col) == Str(v));
    if ps != [] {
      MeanWithinRange(ps);
    }
  }

  // ---------------------------------------------------------------------------
  // _build_aggregation_response

  const GroupColumns := ["rv_type", "dealer_group", "manufacturer", "condition", "state", "region", "city", "county"]

  /** Every groupby the response runs finds its aggregated columns. */
  predicate Groupable(df: Frame) {
    (exists c :: c in GroupColumns && c in df.columns) ==> AggColumns(df)
  }

  /** The filter masks and groupbys find every column they name. */
  predicate Answerable(inv: Option<Frame>, crs: seq<Criterion>) {
    inv.Some? ==> Applicable(inv.value, crs) && Groupable(inv.value)
  }

  /** The response over a non-empty filtered frame. */
  function SummaryOf(df: Frame): Summary
    requires Groupable(df)
  {
    var hasPrice := "price" in df.columns;
    var ps := Ints(df.rows, "price");
    Summary(
      |df.rows|,
      if hasPrice then Sum(ps) else 0,
      if hasPrice then MeanOf(ps) else Finite(0.0),
      if hasPrice then MinOf(ps) else Finite(0.0),
      if hasPrice then MaxOf(ps) else Finite(0.0),
      AggregateBySpec(df, "rv_type", None),
      AggregateBySpec(df, "dealer_group", Some(20)),
      AggregateBySpec(df, "manufacturer", Some(20)),
      AggregateBySpec(df, "condition", None),
      AggregateBySpec(df, "state", Some(65)),
      AggregateBySpec(df, "region", None),
      AggregateBySpec(df, "city", Some(50)),
      AggregateBySpec(df, "county", Some(50)))
  }

  function ResponseOf(inv: Option<Frame>, q: Filters): Summary
    requires Answerable(inv, CriteriaOf(q))
  {
    if inv.None? then EmptySummary()
    else
      var df := ApplyAll(inv.value, CriteriaOf(q));
      ApplyAllIsFilter(inv.value, CriteriaOf(q));
      if |df.rows| == 0 then EmptySummary() else SummaryOf(df)
  }

  /** The response dict of _build_aggregation_response over a non-empty filtered frame. */
  method BuildSummary(df: Frame) returns (s: Summary)
    requires Groupable(df)
    ensures s == SummaryOf(df)
  {
    var byRvType := AggregateBy(df, "rv_type", None);
    var byDealerGroup := AggregateBy(df, "dealer_group", Some(20));
    var byManufacturer := AggregateBy(df, "manufacturer", Some(20));
    var byCondition := AggregateBy(df, "condition", None);
    var byState := AggregateBy(df, "state", Some(65));
    var byRegion := if "region" in df.columns then AggregateBySpec(df, "region", None) else [];
    var byCity := if "city" in df.columns then AggregateBySpec(df, "city", Some(50)) else [];
    var byCounty := if "county" in df.columns then AggregateBySpec(df, "county", Some(50)) else [];
    var hasPrice := "price" in df.columns;
    var ps := Ints(df.rows, "price");
    s := Summary(|df.rows|,
                 if hasPrice then Sum(ps) else 0,
                 if hasPrice then MeanOf(ps) else Finite(0.0),
                 if hasPrice then MinOf(ps) else Finite(0.0),
                 if hasPrice then MaxOf(ps) else Finite(0.0),
                 byRvType, byDealerGroup, byManufacturer, byCondition, byState, byRegion, byCity, byCounty);
    assert byRegion == AggregateBySpec(df, "region", None);
    assert byCity == AggregateBySpec(df, "city", Some(50));
    assert byCounty == AggregateBySpec(df, "county", Some(50));
  }

  /** The empty response comes exactly from a missing inventory or an empty filtered set. */
  lemma ResponseEmpty(inv: Option<Frame>, q: Filters)
    requires Answerable(inv, CriteriaOf(q))
    ensures ResponseOf(inv, q).totalUnits == 0 <==> inv.None? || ApplyAll(inv.value, CriteriaOf(q)).rows == []
    ensures ResponseOf(inv, q).totalUnits == 0 ==> ResponseOf(inv, q) == EmptySummary()
  {
    if inv.Some? {
      ApplyAllIsFilter(inv.value, CriteriaOf(q));
    }
  }

  /** Otherwise total_units counts the filtered rows, which are exactly the
      cached rows every mask holds for; the totals come from their prices. */
  lemma ResponseTotals(inv: Option<Frame>, q: Filters)
    requires Answerable(inv, CriteriaOf(q)) && inv.Some? && Valid(inv.value)
    requires ApplyAll(inv.value, CriteriaOf(q)).rows != []
    ensures var s, df := ResponseOf(inv, q), ApplyAll(inv.value, CriteriaOf(q));
      var ps := Ints(df.rows, "price");
      s.totalUnits == |df.rows| <= |inv.value.rows|
      && (forall r :: r in df.rows <==> r in inv.value.rows && AllHold(CriteriaOf(q), r))
      && ("price" in inv.value.columns ==> s.totalValue == Sum(ps) && s.avgPrice == MeanOf(ps))
      && ("price" in inv.value.columns && ps != [] ==>
            s.minPrice.Finite? && s.avgPrice.Finite? && s.maxPrice.Finite?
            && s.minPrice.value <= s.avgPrice.value <= s.maxPrice.value)
      && ("price" !in inv.value.columns ==> s.totalValue == 0 && s.avgPrice == Finite(0.0))
  {
    var df := ApplyAll(inv.value, CriteriaOf(q));
    ApplyAllMeaning(inv.value, CriteriaOf(q));
    ApplyAllIsFilter(inv.value, CriteriaOf(q));
    var ps := Ints(df.rows, "price");
    if ps != [] {
      StatsOrdered(ps);
    }
  }

  lemma SummaryLimits(df: Frame)
    requires Groupable(df)
    ensures var s := SummaryOf(df);
      |s.byDealerGroup| <= 20 && |s.byManufacturer| <= 20 && |s.byState| <= 65
      && |s.byCity| <= 50 && |s.byCounty| <= 50
  {
    var s := SummaryOf(df);
    AggregateLimit(df, "dealer_group", 20);
    AggregateLimit(df, "manufacturer", 20);
    AggregateLimit(df, "state", 65);
    AggregateLimit(df, "city", 50);
    AggregateLimit(df, "county", 50);
    assert s.byDealerGroup == AggregateBySpec(df, "dealer_group", Some(20));
    assert s.byManufacturer == AggregateBySpec(df, "manufacturer", Some(20));
    assert s.byState == AggregateBySpec(df, "state", Some(65));
    assert s.byCity == AggregateBySpec(df, "city", Some(50));
    assert s.byCounty == AggregateBySpec(df, "county", Some(50));
  }

  lemma AggregateLimit(df: Frame, col: string, n: int)
    requires (col in df.columns ==> AggColumns(df)) && n > 0
    ensures |AggregateBySpec(df, col, Some(n))| <= n
  {
    AggregateByShape(df, col, Some(n));
  }

  /** The limits of the by_* lists: 20, 20, 65, 50 and 50. */
  lemma ResponseLimits(inv: Option<Frame>, q: Filters)
    requires Answerable(inv, CriteriaOf(q))
    ensures var s := ResponseOf(inv, q);
      |s.byDealerGroup| <= 20 && |s.byManufacturer| <= 20 && |s.byState| <= 65
      && |s.byCity| <= 50 && |s.byCounty| <= 50
  {
    if inv.Some? {
      var df := ApplyAll(inv.value, CriteriaOf(q));
      ApplyAllIsFilter(inv.value, CriteriaOf(q));
      if |df.rows| != 0 {
        SummaryLimits(df);
      }
    }
  }

  /** A one-row inventory whose only row has no stock number. */
  function NoStockRow(): Row {
    map["stock_number" := Null, "price" := Int(100), "days_on_lot" := Null, "rv_type" := Str("FIFTH WHEEL")]
  }

  function NoStockFrame(): Frame {
    Frame(["stock_number", "price", "days_on_lot", "rv_type"], [NoStockRow()])
  }

  lemma NoStockGroup()
    ensures GroupKeys(NoStockFrame().rows, "rv_type") == ["FIFTH WHEEL"]
    ensures GroupRows(NoStockFrame().rows, "rv_type", "FIFTH WHEEL") == [NoStockRow()]
  {
    var rows := NoStockFrame().rows;
    assert rows[..0] == [];
    assert Strs(rows, "rv_type") == ["FIFTH WHEEL"];
    assert (set v | v in Strs(rows, "rv_type")) == {"FIFTH WHEEL"};
    var ks := GroupKeys(rows, "rv_type");
    assert |ks| == 1 && ks[0] in ks;
  }

  lemma NoStockBuckets()
    ensures AggregateBySpec(NoStockFrame(), "rv_type", None) == [Bucket("FIFTH WHEEL", 0, 100, 100.0, 100, 100, None)]
  {
    NoStockGroup();
    var g := [NoStockRow()];
    assert g[..0] == [];
    assert NonNullCount(g, "stock_number") == 0;
    assert Ints(g, "price") == [100];
    assert Ints(g, "days_on_lot") == [];
    var all := Grouped(NoStockFrame().rows, "rv_type");
    assert all == [StatOf(NoStockFrame().rows, "rv_type", "FIFTH WHEEL")];
    assert SortDesc(all, StatCount) == all;
  }

  /** A row without a stock number counts toward total_units but not toward its bucket. */
  lemma NullStockNumberCounted()
    ensures var s := ResponseOf(Some(NoStockFrame()), NoFilters);
      s.totalUnits == 1 && |s.byRvType| == 1 && s.byRvType[0].count == 0 && s.byRvType[0].totalValue == 100
  {
    assert CriteriaOf(NoFilters) == [];
    assert ApplyAll(NoStockFrame(), []) == NoStockFrame();
    NoStockBuckets();
  }

  // ---------------------------------------------------------------------------
  // get_filtered_aggregations_cached

  /** The filter a snapshot key names. */
  datatype KeyFilter = ConditionIs(v: string) | RvTypeIs(v: string)

  /** `key.split(':', 1)`; None for fewer than two parts or any other prefix. */
  function ParseCacheKey(key: string): Option<KeyFilter> {
    match SplitFirst(key, ':')
    case None => None
    case Some((kind, value)) =>
      if kind == "condition" then Some(ConditionIs(value))
      else if kind == "rv_type" then Some(RvTypeIs(value))
      else None
  }

  /** "condition:V" and "rv_type:V" parse to their filter, V possibly holding
      further colons; every other key gives None. */
  lemma ParseCacheKeyMeaning(key: string, v: string)
    ensures ParseCacheKey(key) == Some(ConditionIs(v)) <==> key == "condition:" + v
    ensures ParseCacheKey(key) == Some(RvTypeIs(v)) <==> key == "rv_type:" + v
    ensures ':' !in key ==> ParseCacheKey(key).None?
  {
    ParseKindKey(key, "condition", v);
    ParseKindKey(key, "rv_type", v);
    assert "condition" + [':'] == "condition:" && "rv_type" + [':'] == "rv_type:";
  }

  /** A key parses to the kind and value around its first ':' exactly when it is kind:value. */
  lemma ParseKindKey(key: string, kind: string, v: string)
    requires ':' !in kind
    ensures SplitFirst(key, ':') == Some((kind, v)) <==> key == kind + [':'] + v
  {
    if key == kind + [':'] + v {
      SplitFirstOf(kind, ':', v);
    }
  }

  /** A key whose prefix before the first ':' is neither kind gives None. */
  lemma ParseCacheKeyOther(kind: string, rest: string)
    requires ':' !in kind && kind != "condition" && kind != "rv_type"
    ensures ParseCacheKey(kind + [':'] + rest).None?
  {
    SplitFirstOf(kind, ':', rest);
  }

  function FiltersOfKey(f: KeyFilter): Filters {
    match f
    case ConditionIs(v) => NoFilters.(condition := Some(v))
    case RvTypeIs(v) => NoFilters.(rvType := Some(v))
  }

  function CachedResponse(inv: Option<Frame>, key: string): Option<Summary>
    requires inv.Some? ==> Frames.Applicable(inv.value, [Equals("condition", ""), Equals("rv_type", "")]) && Groupable(inv.value)
  {
    match ParseCacheKey(key)
    case None => None
    case Some(f) =>
      assert Answerable(inv, CriteriaOf(FiltersOfKey(f)));
      Some(ResponseOf(inv, FiltersOfKey(f)))
  }

  /** "condition:" with nothing after the colon is the unfiltered response. */
  lemma EmptyValueIsUnfiltered(inv: Option<Frame>)
    requires inv.Some? ==> Frames.Applicable(inv.value, [Equals("condition", ""), Equals("rv_type", "")]) && Groupable(inv.value)
    ensures CachedResponse(inv, "condition:") == Some(ResponseOf(inv, NoFilters))
  {
    var q := FiltersOfKey(ConditionIs(""));
    ParseEmptyCondition();
    EmptyConditionCriteria();
    SameCriteriaSameResponse(inv, q, NoFilters);
  }

  lemma ParseEmptyCondition()
    ensures ParseCacheKey("condition:") == Some(ConditionIs(""))
  {
    ParseCacheKeyMeaning("condition:", "");
    assert "condition:" == "condition:" + "";
  }

  /** An empty condition value is falsy, so it adds no mask. */
  lemma EmptyConditionCriteria()
    ensures CriteriaOf(FiltersOfKey(ConditionIs(""))) == [] && CriteriaOf(NoFilters) == []
  {
  }

  /** The response depends on the filters only through the masks they make. */
  lemma SameCriteriaSameResponse(inv: Option<Frame>, q1: Filters, q2: Filters)
    requires CriteriaOf(q1) == CriteriaOf(q2) && Answerable(inv, CriteriaOf(q1))
    ensures ResponseOf(inv, q1) == ResponseOf(inv, q2)
  {
  }

  // ---------------------------------------------------------------------------
  // get_cached_inventory

  /** One listing dict: `row.get` per field, location = state and no title. */
  function ToListing(r: Row): (l: Listing)
    ensures l.location == StrOf(Cell(r, "state")) && l.title == None
  {
    Listing(StrOf(Cell(r, "stock_number")), None, IntOf(Cell(r, "model_year")),
            StrOf(Cell(r, "manufacturer")), StrOf(Cell(r, "model")), StrOf(Cell(r, "floorplan")),
            StrOf(Cell(r, "rv_type")), StrOf(Cell(r, "condition")), IntOf(Cell(r, "price")),
            StrOf(Cell(r, "state")), StrOf(Cell(r, "dealership")), StrOf(Cell(r, "dealer_group")),
            IntOf(Cell(r, "days_on_lot")))
  }

  function ListingsSpec(inv: Option<Frame>, dealer: Option<string>, q: Filters, limit: int): seq<Listing>
    requires inv.Some? ==> Applicable(inv.value, ListingCriteria(dealer, q))
  {
    if inv.None? then [] else HeadListings(ApplyAll(inv.value, ListingCriteria(dealer, q)), limit)
  }

  /** get_cached_inventory: `head(limit)` of the filtered copy, one dict appended per row. */
  method CachedInventory(inv: Option<Frame>, dealer: Option<string>, q: Filters, limit: int) returns (results: seq<Listing>)
    requires inv.Some? ==> Applicable(inv.value, ListingCriteria(dealer, q))
    ensures results == ListingsSpec(inv, dealer, q, limit)
  {
    if inv.None? {
      return [];
    }
    var df := ApplyAll(inv.value, ListingCriteria(dealer, q));
    df := Head(df, limit);
    results := [];
    var i := 0;
    while i < |df.rows|
      invariant 0 <= i <= |df.rows|
      invariant |results| == i
      invariant forall k :: 0 <= k < i ==> results[k] == ToListing(df.rows[k])
    {
      results := results + [ToListing(df.rows[i])];
      i := i + 1;
    }
  }

  /** The listings are the first `limit` matching rows in cache order, unsorted,
      each located at its state. */
  lemma ListingsMeaning(inv: Option<Frame>, dealer: Option<string>, q: Filters, limit: int)
    requires inv.Some? ==> Valid(inv.value) && Applicable(inv.value, ListingCriteria(dealer, q))
    ensures inv.None? ==> ListingsSpec(inv, dealer, q, limit) == []
    ensures inv.Some? ==>
      var all := ApplyAll(inv.value, ListingCriteria(dealer, q)).rows;
      var ls := ListingsSpec(inv, dealer, q, limit);
      |ls| == SliceLength(|all|, limit)
      && (forall k :: 0 <= k < |ls| ==> ls[k] == ToListing(all[k]) && ls[k].location == StrOf(Cell(all[k], "state")))
      && (forall r :: r in all <==> r in inv.value.rows && AllHold(ListingCriteria(dealer, q), r))
  {
    if inv.Some? {
      var df := ApplyAll(inv.value, ListingCriteria(dealer, q));
      ApplyAllMeaning(inv.value, ListingCriteria(dealer, q));
      HeadListingsAt(df, limit);
    }
  }

  /** One listing per row of `head(limit)`. */
  function HeadListings(df: Frame, limit: int): seq<Listing> {
    var rows := Head(df, limit).rows;
    seq(|rows|, k requires 0 <= k < |rows| => ToListing(rows[k]))
  }

  lemma HeadListingsAt(df: Frame, limit: int)
    requires Valid(df)
    ensures |HeadListings(df, limit)| == SliceLength(|df.rows|, limit)
    ensures forall k :: 0 <= k < |HeadListings(df, limit)| ==> HeadListings(df, limit)[k] == ToListing(df.rows[k])
  {
    HeadMeaning(df, limit);
    var rows := Head(df, limit).rows;
    forall k | 0 <= k < |rows| ensures rows[k] == df.rows[k] {
    }
  }

  // ---------------------------------------------------------------------------
  // get_filter_options and list_dealers

  /** Columns get_filter_options reads without checking. */
  predicate OptionColumns(f: Frame) {
    "rv_type" in f.columns && "state" in f.columns && "condition" in f.columns
    && "dealer_group" in f.columns && "manufacturer" in f.columns
  }

  const CityOptionLimit := 500

  /** `sorted(df[c].dropna().unique())` with the region and city guards. */
  function FilterOptionsOf(inv: Option<Frame>): FilterOptions
    requires inv.Some? ==> OptionColumns(inv.value)
  {
    if inv.None? then FilterOptions([], [], [], [], [], [], [])
    else
      var rows := inv.value.rows;
      FilterOptions(
        GroupKeys(rows, "rv_type"), GroupKeys(rows, "state"),
        if "region" in inv.value.columns then GroupKeys(rows, "region") else [],
        if "city" in inv.value.columns then Take(GroupKeys(rows, "city"), CityOptionLimit) else [],
        GroupKeys(rows, "condition"), GroupKeys(rows, "dealer_group"), GroupKeys(rows, "manufacturer"))
  }

  ghost predicate Lists(opts: seq<string>, rows: seq<Row>, c: string) {
    StrictlySorted(opts) && forall v :: v in opts <==> exists r :: r in rows && Cell(r, c) == Str(v)
  }

  lemma GroupKeysLists(rows: seq<Row>, c: string)
    ensures Lists(GroupKeys(rows, c), rows, c)
  {
    GroupKeysMeaning(rows, c);
  }

  /** The first n values of column c in ascending order: sorted, each held,
      and a held value is left out only when n values are listed, all smaller
      than it. */
  ghost predicate ListsFirst(opts: seq<string>, rows: seq<Row>, c: string, n: nat) {
    StrictlySorted(opts) && |opts| <= n
    && (forall v :: v in opts ==> exists r :: r in rows && Cell(r, c) == Str(v))
    && forall r :: r in rows && Cell(r, c).Str? && Cell(r, c).s !in opts ==>
         |opts| == n && forall v :: v in opts ==> Less(v, Cell(r, c).s)
  }

  /** `sorted(...unique())[:500]` offers the 500 smallest cities, or all of them. */
  lemma CityOptions(rows: seq<Row>)
    ensures ListsFirst(Take(GroupKeys(rows, "city"), CityOptionLimit), rows, "city", CityOptionLimit)
  {
    var all := GroupKeys(rows, "city");
    GroupKeysMeaning(rows, "city");
    TakeBound(all, CityOptionLimit);
    TakeSmallest(all, CityOptionLimit);
    var cs := Take(all, CityOptionLimit);
    forall r | r in rows && Cell(r, "city").Str? && Cell(r, "city").s !in cs
      ensures |cs| == CityOptionLimit && forall v :: v in cs ==> Less(v, Cell(r, "city").s)
    {
      assert Cell(r, "city").s in all;
    }
  }

  /** Each option list is ascending without repeats and holds exactly the
      values present in its column; at most 500 cities are offered, the
      smallest ones. */
  lemma FilterOptionsMeaning(inv: Option<Frame>)
    requires inv.Some? ==> OptionColumns(inv.value)
    ensures inv.None? ==> FilterOptionsOf(inv) == FilterOptions([], [], [], [], [], [], [])
    ensures inv.Some? ==>
      var o, rows := FilterOptionsOf(inv), inv.value.rows;
      Lists(o.rvTypes, rows, "rv_type") && Lists(o.states, rows, "state") && Lists(o.conditions, rows, "condition")
      && Lists(o.dealerGroups, rows, "dealer_group") && Lists(o.manufacturers, rows, "manufacturer")
      && ("region" in inv.value.columns ==> Lists(o.regions, rows, "region"))
      && ("region" !in inv.value.columns ==> o.regions == [])
      && ("city" in inv.value.columns ==> ListsFirst(o.cities, rows, "city", CityOptionLimit))
      && ("city" !in inv.value.columns ==> o.cities == [])
  {
    if inv.Some? {
      var rows := inv.value.rows;
      GroupKeysLists(rows, "rv_type");
      GroupKeysLists(rows, "state");
      GroupKeysLists(rows, "condition");
      GroupKeysLists(rows, "dealer_group");
      GroupKeysLists(rows, "manufacturer");
      GroupKeysLists(rows, "region");
      if "city" in inv.value.columns {
        CityOptions(rows);
      }
    }
  }

  /** list_dealers: [] without a dealer table, otherwise its sorted distinct dealerships. */
  function DealersOf(dealers: Option<Frame>): (r: seq<string>)
    requires dealers.Some? ==> "dealership" in dealers.value.columns
    ensures dealers.None? ==> r == []
    ensures dealers.Some? ==> Lists(r, dealers.value.rows, "dealership")
  {
    if dealers.None? then []
    else
      GroupKeysMeaning(dealers.value.rows, "dealership");
      GroupKeys(dealers.value.rows, "dealership")
  }

  // ---------------------------------------------------------------------------
  // The client

  class DeltaLakeClient {
    var cache: Option<Cache>
    var cacheLoaded: bool

    constructor()
      ensures cache == None && !cacheLoaded
    {
      cache := None;
      cacheLoaded := false;
    }

    /** load_inventory_cache: builds once; later calls change nothing. */
    method LoadInventoryCache(t: Tables)
      requires !cacheLoaded ==> Buildable(t)
      modifies this
      ensures cacheLoaded
      ensures cache == if old(cacheLoaded) then old(cache) else Some(CacheOf(t))
    {
      if cacheLoaded {
        return;
      }
      var built := BuildCache(t);
      cache := Some(built);
      cacheLoaded := true;
    }

    method GetFilterOptions() returns (o: FilterOptions)
      requires cache.Some? && (cache.value.inventory.Some? ==> OptionColumns(cache.value.inventory.value))
      ensures o == FilterOptionsOf(cache.value.inventory)
    {
      o := FilterOptionsOf(cache.value.inventory);
    }

    method ListDealers() returns (r: seq<string>)
      requires cache.Some? && (cache.value.dealers.Some? ==> "dealership" in cache.value.dealers.value.columns)
      ensures r == DealersOf(cache.value.dealers)
    {
      r := DealersOf(cache.value.dealers);
    }

    method GetCachedInventory(dealer: Option<string>, q: Filters, limit: int) returns (results: seq<Listing>)
      requires cache.Some? && (cache.value.inventory.Some? ==> Applicable(cache.value.inventory.value, ListingCriteria(dealer, q)))
      ensures results == ListingsSpec(cache.value.inventory, dealer, q, limit)
    {
      results := CachedInventory(cache.value.inventory, dealer, q, limit);
    }

    /** _build_aggregation_response filters a copy: the cache is left as it was. */
    method GetFilteredAggregations(q: Filters) returns (s: Summary)
      requires cache.Some? && Answerable(cache.value.inventory, CriteriaOf(q))
      ensures s == ResponseOf(cache.value.inventory, q)
    {
      var inv := cache.value.inventory;
      if inv.None? {
        return EmptySummary();
      }
      var df := ApplyAll(inv.value, CriteriaOf(q));
      ApplyAllIsFilter(inv.value, CriteriaOf(q));
      if |df.rows| == 0 {
        return EmptySummary();
      }
      s := BuildSummary(df);
    }

    /** get_fast_aggregations is the response with no filter at all. */
    method GetFastAggregations() returns (s: Summary)
      requires cache.Some? && Answerable(cache.value.inventory, [])
      ensures s == ResponseOf(cache.value.inventory, NoFilters)
    {
      assert CriteriaOf(NoFilters) == [];
      s := GetFilteredAggregations(NoFilters);
    }

    method GetFilteredAggregationsCached(key: string) returns (r: Option<Summary>)
      requires cache.Some?
      requires var inv := cache.value.inventory;
        inv.Some? ==> Frames.Applicable(inv.value, [Equals("condition", ""), Equals("rv_type", "")]) && Groupable(inv.value)
      ensures r == CachedResponse(cache.value.inventory, key)
    {
      match ParseCacheKey(key)
      case None =>
        r := None;
      case Some(f) =>
        assert Answerable(cache.value.inventory, CriteriaOf(FiltersOfKey(f)));
        var s := GetFilteredAggregations(FiltersOfKey(f));
        r := Some(s);
    }
  }
}
