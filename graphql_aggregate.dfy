/** Aggregation over the GraphQL backend's inventory cache: the
    per-dimension buckets of get_filtered_aggregations, their formatting
    (format_agg and format_aggregation), and the count-weighted
    recombination of per-group averages that the snapshot builders use. */
module GraphQLAggregate {
  import opened Wrappers
  import opened Text
  import opened Sorting
  import opened Stats
  import opened Grouping
  import opened Responses
  import opened GraphQLCache

  // ---------------------------------------------------------------------------
  // Buckets of cached records

  datatype Dim = ByRvType | ByDealerGroup | ByManufacturer | ByCondition | ByState | ByRegion | ByCity | ByCounty

  function KeyOf(i: CachedItem, d: Dim): Option<string> {
    match d
    case ByRvType => i.rvType
    case ByDealerGroup => i.dealerGroup
    case ByManufacturer => i.manufacturer
    case ByCondition => i.condition
    case ByState => i.state
    case ByRegion => i.region
    case ByCity => i.city
    case ByCounty => i.county
  }

  /** Only the rv_type and condition buckets collect their positive prices. */
  predicate CollectsPrices(d: Dim) {
    d == ByRvType || d == ByCondition
  }

  /** A bucket's running values: "count", "total_value", "prices" and, where
      kept, "days_on_lot". */
  datatype Acc = Acc(count: int, total: int, prices: seq<int>, days: seq<int>)

  const Zero := Acc(0, 0, [], [])

  /** One record entering a bucket. */
  function Tally(a: Acc, i: CachedItem, d: Dim): Acc {
    Acc(a.count + 1, a.total + i.price,
        if CollectsPrices(d) && i.price > 0 then a.prices + [i.price] else a.prices,
        a.days)
  }

  function KeyFn(d: Dim): CachedItem -> Option<string> {
    (i: CachedItem) => KeyOf(i, d)
  }

  function TallyFn(d: Dim): (Acc, CachedItem) -> Acc {
    (a: Acc, i: CachedItem) => Tally(a, i, d)
  }

  /** The defaultdict for one dimension after the loop over `rows`. */
  function GroupsOf(rows: seq<CachedItem>, d: Dim): Groups<Acc> {
    GroupBy(rows, KeyFn(d), Zero, TallyFn(d))
  }

  function PricesOf(rows: seq<CachedItem>): (r: seq<int>)
    ensures |r| == |rows|
  {
    if rows == [] then [] else PricesOf(rows[..|rows| - 1]) + [rows[|rows| - 1].price]
  }

  lemma {:induction false} FoldTally(hs: seq<CachedItem>, d: Dim)
    ensures Fold(Zero, TallyFn(d), hs) ==
      Acc(|hs|, Sum(PricesOf(hs)), if CollectsPrices(d) then Positive(PricesOf(hs)) else [], [])
  {
    if hs != [] {
      var init := hs[..|hs| - 1];
      FoldTally(init, d);
      var p := PricesOf(hs);
      assert p[..|p| - 1] == PricesOf(init);
    }
  }

  /** A bucket exists for every truthy value of the field, buckets appear in
      first-seen order, and each holds the number of its records, the sum of
      their prices and, for rv_type and condition, their positive prices. */
  lemma BucketsMeaning(rows: seq<CachedItem>, d: Dim)
    ensures DistinctKeys(GroupsOf(rows, d))
    ensures Keys(GroupsOf(rows, d)) == Dedup(KeysIn(rows, KeyFn(d)))
    ensures forall v :: v in KeysIn(rows, KeyFn(d)) <==> v != "" && exists r :: r in rows && KeyOf(r, d) == Some(v)
    ensures forall v :: v in KeysIn(rows, KeyFn(d)) ==>
      var hs := Having(rows, KeyFn(d), v);
      Get(GroupsOf(rows, d), v) ==
        Some(Acc(|hs|, Sum(PricesOf(hs)), if CollectsPrices(d) then Positive(PricesOf(hs)) else [], []))
    ensures forall v :: v !in KeysIn(rows, KeyFn(d)) ==> Get(GroupsOf(rows, d), v) == None
  {
    GroupByMeaning(rows, KeyFn(d), Zero, TallyFn(d));
    KeysInMembers(rows, KeyFn(d));
    forall v | v in KeysIn(rows, KeyFn(d)) {
      FoldTally(Having(rows, KeyFn(d), v), d);
    }
  }

  // ---------------------------------------------------------------------------
  // format_agg of get_filtered_aggregations

  /** Mean of the collected prices, else total/count, else 0. */
  function AvgOf(a: Acc): real {
    if a.prices != [] then Mean(a.prices)
    else if a.count > 0 then a.total as real / a.count as real
    else 0.0
  }

  function ToBucket(e: (string, Acc)): Bucket {
    Bucket(e.0, e.1.count, e.1.total, AvgOf(e.1), MinOr0(e.1.prices), MaxOr0(e.1.prices), None)
  }

  function CountKey(e: (string, Acc)): int {
    e.1.count
  }

  function BucketsOf(es: seq<(string, Acc)>): (r: seq<Bucket>)
    ensures |r| == |es| && forall k :: 0 <= k < |es| ==> r[k] == ToBucket(es[k])
  {
    seq(|es|, k requires 0 <= k < |es| => ToBucket(es[k]))
  }

  /** Buckets by count, highest first (ties in insertion order), cut to `limit`. */
  function FormatAgg(g: Groups<Acc>, limit: int): seq<Bucket> {
    Take(BucketsOf(SortDesc(g, CountKey)), limit)
  }

  lemma FormatAggShape(g: Groups<Acc>, limit: int)
    ensures |FormatAgg(g, limit)| == SliceLength(|g|, limit)
    ensures forall i, j :: 0 <= i < j < |FormatAgg(g, limit)| ==>
      FormatAgg(g, limit)[i].count >= FormatAgg(g, limit)[j].count
    ensures forall b :: b in FormatAgg(g, limit) ==> exists e :: e in g && b == ToBucket(e)
  {
    var sorted := SortDesc(g, CountKey);
    SortDescProperties(g, CountKey);
    var r := FormatAgg(g, limit);
    forall b | b in r ensures exists e :: e in g && b == ToBucket(e) {
      var k :| 0 <= k < |r| && r[k] == b;
      assert sorted[k] in multiset(g);
    }
  }

  /** The buckets shown are the largest: a bucket left out has a count no
      larger than any shown. */
  lemma FormatAggTop(g: Groups<Acc>, limit: int, e: (string, Acc))
    requires e in g && ToBucket(e) !in FormatAgg(g, limit)
    ensures forall b :: b in FormatAgg(g, limit) ==> b.count >= e.1.count
  {
    var sorted := SortDesc(g, CountKey);
    SortDescProperties(g, CountKey);
    var n := SliceLength(|sorted|, limit);
    var r := FormatAgg(g, limit);
    assert e in multiset(sorted);
    assert e !in sorted[..n];
    PrefixDominates(sorted, CountKey, n, e);
    forall b | b in r ensures b.count >= e.1.count {
      var k :| 0 <= k < |r| && r[k] == b;
      assert sorted[..n][k] in sorted[..n];
    }
  }

  /** A bucket with collected prices reports 0 < min <= avg <= max over them;
      one without reports min = max = 0 and the average of all its records. */
  lemma BucketStats(hs: seq<CachedItem>, d: Dim, name: string)
    requires CollectsPrices(d)
    ensures var b := ToBucket((name, Fold(Zero, TallyFn(d), hs)));
      (Positive(PricesOf(hs)) != [] ==>
         0 < b.minPrice && b.minPrice as real <= b.avgPrice <= b.maxPrice as real
         && b.minPrice in PricesOf(hs) && b.maxPrice in PricesOf(hs))
      && (Positive(PricesOf(hs)) == [] ==>
         b.minPrice == 0 && b.maxPrice == 0
         && b.avgPrice == if hs == [] then 0.0 else Sum(PricesOf(hs)) as real / |hs| as real)
  {
    FoldTally(hs, d);
    if Positive(PricesOf(hs)) != [] {
      PositiveStats(PricesOf(hs));
    }
  }

  // ---------------------------------------------------------------------------
  // format_aggregation of get_aggregated_summaries

  function ToSummaryBucket(e: (string, Acc)): Bucket {
    Bucket(e.0, e.1.count, e.1.total, MeanOr0(e.1.prices), MinOr0(e.1.prices), MaxOr0(e.1.prices),
           if e.1.days != [] then Some(Mean(e.1.days)) else None)
  }

  function FormatAggregation(g: Groups<Acc>): (r: seq<Bucket>)
    ensures |r| == |g|
  {
    var sorted := SortDesc(g, CountKey);
    seq(|sorted|, k requires 0 <= k < |sorted| => ToSummaryBucket(sorted[k]))
  }

  /** The two formatters agree except that format_aggregation reports 0 where
      format_agg falls back to total/count, and adds the days-on-lot average. */
  lemma FormatAggregationVsFormatAgg(g: Groups<Acc>)
    ensures |FormatAggregation(g)| == |FormatAgg(g, |g|)|
    ensures forall k :: 0 <= k < |g| ==>
      var a, b := FormatAggregation(g)[k], FormatAgg(g, |g|)[k];
      a.name == b.name && a.count == b.count && a.totalValue == b.totalValue
      && a.minPrice == b.minPrice && a.maxPrice == b.maxPrice
      && (a.avgPrice == b.avgPrice || (a.avgPrice == 0.0 && b.avgPrice == b.totalValue as real / b.count as real))
      && (a.avgDaysOnLot.Some? <==> SortDesc(g, CountKey)[k].1.days != [])
  {
  }

  // ---------------------------------------------------------------------------
  // get_filtered_aggregations

  const RvTypeLimit := 10
  const DealerGroupLimit := 10
  const ManufacturerLimit := 10
  const ConditionLimit := 10
  const StateLimit := 65
  const RegionLimit := 10
  const CityLimit := 20
  const CountyLimit := 15

  /** The loop's state: running total, positive prices and the eight buckets. */
  datatype Totals = Totals(
    totalValue: int,
    allPrices: seq<int>,
    byRvType: Groups<Acc>,
    byDealerGroup: Groups<Acc>,
    byManufacturer: Groups<Acc>,
    byCondition: Groups<Acc>,
    byState: Groups<Acc>,
    byRegion: Groups<Acc>,
    byCity: Groups<Acc>,
    byCounty: Groups<Acc>)

  function TotalsOf(rows: seq<CachedItem>): Totals {
    Totals(Sum(PricesOf(rows)), Positive(PricesOf(rows)),
           GroupsOf(rows, ByRvType), GroupsOf(rows, ByDealerGroup), GroupsOf(rows, ByManufacturer),
           GroupsOf(rows, ByCondition), GroupsOf(rows, ByState), GroupsOf(rows, ByRegion),
           GroupsOf(rows, ByCity), GroupsOf(rows, ByCounty))
  }

  /** One more record, seen from the specification side. */
  lemma TotalsStep(rows: seq<CachedItem>, i: nat)
    requires i < |rows|
    ensures Sum(PricesOf(rows[..i + 1])) == Sum(PricesOf(rows[..i])) + rows[i].price
    ensures Positive(PricesOf(rows[..i + 1])) ==
      Positive(PricesOf(rows[..i])) + if rows[i].price > 0 then [rows[i].price] else []
    ensures forall d :: GroupsOf(rows[..i + 1], d) == Step(GroupsOf(rows[..i], d), rows[i], KeyFn(d), Zero, TallyFn(d))
  {
    assert rows[..i + 1][..i] == rows[..i];
    var p := PricesOf(rows[..i + 1]);
    assert p[..|p| - 1] == PricesOf(rows[..i]);
  }

  /** The aggregation loop of get_filtered_aggregations. */
  method Aggregate(filtered: seq<CachedItem>) returns (t: Totals)
    ensures t == TotalsOf(filtered)
  {
    var totalValue := 0;
    var allPrices: seq<int> := [];
    var byRvType, byDealerGroup, byManufacturer, byCondition := [], [], [], [];
    var byState, byRegion, byCity, byCounty := [], [], [], [];
    var i := 0;
    while i < |filtered|
      invariant 0 <= i <= |filtered|
      invariant totalValue == Sum(PricesOf(filtered[..i]))
      invariant allPrices == Positive(PricesOf(filtered[..i]))
      invariant byRvType == GroupsOf(filtered[..i], ByRvType)
      invariant byDealerGroup == GroupsOf(filtered[..i], ByDealerGroup)
      invariant byManufacturer == GroupsOf(filtered[..i], ByManufacturer)
      invariant byCondition == GroupsOf(filtered[..i], ByCondition)
      invariant byState == GroupsOf(filtered[..i], ByState)
      invariant byRegion == GroupsOf(filtered[..i], ByRegion)
      invariant byCity == GroupsOf(filtered[..i], ByCity)
      invariant byCounty == GroupsOf(filtered[..i], ByCounty)
    {
      var item := filtered[i];
      TotalsStep(filtered, i);
      totalValue := totalValue + item.price;
      if item.price > 0 {
        allPrices := allPrices + [item.price];
      }
      byRvType := Step(byRvType, item, KeyFn(ByRvType), Zero, TallyFn(ByRvType));
      byDealerGroup := Step(byDealerGroup, item, KeyFn(ByDealerGroup), Zero, TallyFn(ByDealerGroup));
      byManufacturer := Step(byManufacturer, item, KeyFn(ByManufacturer), Zero, TallyFn(ByManufacturer));
      byCondition := Step(byCondition, item, KeyFn(ByCondition), Zero, TallyFn(ByCondition));
      byState := Step(byState, item, KeyFn(ByState), Zero, TallyFn(ByState));
      byRegion := Step(byRegion, item, KeyFn(ByRegion), Zero, TallyFn(ByRegion));
      byCity := Step(byCity, item, KeyFn(ByCity), Zero, TallyFn(ByCity));
      byCounty := Step(byCounty, item, KeyFn(ByCounty), Zero, TallyFn(ByCounty));
      i := i + 1;
    }
    assert filtered[..i] == filtered;
    t := Totals(totalValue, allPrices, byRvType, byDealerGroup, byManufacturer, byCondition,
                byState, byRegion, byCity, byCounty);
  }

  /** The response built from the loop's state over `units` records. */
  function SummaryOf(t: Totals, units: int): Summary {
    Summary(units, t.totalValue,
            Finite(MeanOr0(t.allPrices)), Finite(MinOr0(t.allPrices) as real), Finite(MaxOr0(t.allPrices) as real),
            FormatAgg(t.byRvType, RvTypeLimit), FormatAgg(t.byDealerGroup, DealerGroupLimit),
            FormatAgg(t.byManufacturer, ManufacturerLimit), FormatAgg(t.byCondition, ConditionLimit),
            FormatAgg(t.byState, StateLimit), FormatAgg(t.byRegion, RegionLimit),
            FormatAgg(t.byCity, CityLimit), FormatAgg(t.byCounty, CountyLimit))
  }

  /** get_filtered_aggregations over the already filtered records. */
  function FilteredSummary(rows: seq<CachedItem>): Summary {
    SummaryOf(TotalsOf(rows), |rows|)
  }

  /** The headline figures: every record counted, every price summed, and the
      price statistics over the positive prices only (0 when there are none). */
  lemma FilteredSummaryTotals(rows: seq<CachedItem>)
    ensures FilteredSummary(rows).totalUnits == |rows|
    ensures FilteredSummary(rows).totalValue == Sum(PricesOf(rows))
    ensures Positive(PricesOf(rows)) == [] ==>
      FilteredSummary(rows).avgPrice == Finite(0.0) && FilteredSummary(rows).minPrice == Finite(0.0)
      && FilteredSummary(rows).maxPrice == Finite(0.0)
    ensures Positive(PricesOf(rows)) != [] ==>
      var s := FilteredSummary(rows);
      0.0 < s.minPrice.value <= s.avgPrice.value <= s.maxPrice.value
      && forall r :: r in rows && r.price > 0 ==> s.minPrice.value <= r.price as real <= s.maxPrice.value
  {
    var p := PricesOf(rows);
    if Positive(p) != [] {
      PositiveStats(p);
      forall r | r in rows && r.price > 0 ensures r.price in p {
        PricesOfMembers(rows, r);
      }
    }
  }

  lemma {:induction false} PricesOfMembers(rows: seq<CachedItem>, r: CachedItem)
    requires r in rows
    ensures r.price in PricesOf(rows)
  {
    var init := rows[..|rows| - 1];
    if r != rows[|rows| - 1] {
      assert r in init by {
        assert rows == init + [rows[|rows| - 1]];
      }
      PricesOfMembers(init, r);
    }
  }

  /** Bucket lists never exceed their limits. */
  lemma FilteredSummaryLimits(rows: seq<CachedItem>)
    ensures var s := FilteredSummary(rows);
      |s.byRvType| <= 10 && |s.byDealerGroup| <= 10 && |s.byManufacturer| <= 10
      && |s.byCondition| <= 10 && |s.byState| <= 65 && |s.byRegion| <= 10
      && |s.byCity| <= 20 && |s.byCounty| <= 15
  {
  }

  // ---------------------------------------------------------------------------
  // Count-weighted recombination of per-group averages

  /** A GraphQL groupBy row after its dimension lookup: the value that names
      its bucket and the count, sum and avg aggregations (each may be null). */
  datatype GroupRow = GroupRow(key: Option<string>, count: Option<int>, sum: Option<int>, avg: Option<real>)

  datatype Partial = Partial(avg: real, count: int)

  /** {"count", "total_value", "avg_prices"} of the snapshot builders. */
  datatype WAcc = WAcc(count: int, total: int, avgPrices: seq<Partial>)

  const WZero := WAcc(0, 0, [])

  /** `count/sum/avg or 0`; a partial average is kept only when positive. */
  function AddGroupRow(a: WAcc, r: GroupRow): WAcc {
    var count := r.count.GetOr(0);
    var avg := r.avg.GetOr(0.0);
    WAcc(a.count + count, a.total + r.sum.GetOr(0),
         if avg > 0.0 then a.avgPrices + [Partial(avg, count)] else a.avgPrices)
  }

  function RowKeyFn(): GroupRow -> Option<string> {
    (r: GroupRow) => r.key
  }

  function AddGroupRowFn(): (WAcc, GroupRow) -> WAcc {
    (a: WAcc, r: GroupRow) => AddGroupRow(a, r)
  }

  function WeightedOf(rows: seq<GroupRow>): Groups<WAcc> {
    GroupBy(rows, RowKeyFn(), WZero, AddGroupRowFn())
  }

  /** The folding loop over groupBy rows. */
  method FoldGroupRows(rows: seq<GroupRow>) returns (g: Groups<WAcc>)
    ensures g == WeightedOf(rows)
  {
    g := [];
    var i := 0;
    while i < |rows|
      invariant 0 <= i <= |rows|
      invariant g == WeightedOf(rows[..i])
    {
      assert rows[..i + 1][..i] == rows[..i];
      g := Step(g, rows[i], RowKeyFn(), WZero, AddGroupRowFn());
      i := i + 1;
    }
    assert rows[..i] == rows;
  }

  function SumCounts(ps: seq<Partial>): int {
    if ps == [] then 0 else SumCounts(ps[..|ps| - 1]) + ps[|ps| - 1].count
  }

  /** A partial's average weighted by its count. */
  function Weight(p: Partial): real {
    p.avg * p.count as real
  }

  function SumWeighted(ps: seq<Partial>): real {
    if ps == [] then 0.0 else SumWeighted(ps[..|ps| - 1]) + Weight(ps[|ps| - 1])
  }

  /** Σ avg·count / Σ count, or 0 when the counts sum to 0. */
  function WeightedAvg(ps: seq<Partial>): real {
    var c := SumCounts(ps);
    if c > 0 then SumWeighted(ps) / c as real else 0.0
  }

  function ToWeightedBucket(e: (string, WAcc)): Bucket {
    Bucket(e.0, e.1.count, e.1.total, WeightedAvg(e.1.avgPrices), 0, 0, None)
  }

  function WCountKey(e: (string, WAcc)): int {
    e.1.count
  }

  /** The weighted format_agg: by count, highest first, cut only for a truthy limit. */
  function FormatWeighted(g: Groups<WAcc>, limit: Option<int>): seq<Bucket> {
    var sorted := SortDesc(g, WCountKey);
    var r := seq(|sorted|, k requires 0 <= k < |sorted| => ToWeightedBucket(sorted[k]));
    if TruthyInt(limit) then Take(r, limit.value) else r
  }

  lemma FormatWeightedShape(g: Groups<WAcc>, limit: Option<int>)
    ensures |FormatWeighted(g, limit)| == if TruthyInt(limit) then SliceLength(|g|, limit.value) else |g|
    ensures forall b :: b in FormatWeighted(g, limit) ==> b.minPrice == 0 && b.maxPrice == 0
    ensures forall i, j :: 0 <= i < j < |FormatWeighted(g, limit)| ==>
      FormatWeighted(g, limit)[i].count >= FormatWeighted(g, limit)[j].count
  {
    SortDescSorted(g, WCountKey);
  }

  lemma {:induction false} WeightedBounds(ps: seq<Partial>, lo: real, hi: real)
    requires forall k :: 0 <= k < |ps| ==> ps[k].count >= 0 && lo <= ps[k].avg <= hi
    ensures SumCounts(ps) as real * lo <= SumWeighted(ps) <= SumCounts(ps) as real * hi
  {
    if ps != [] {
      var init := ps[..|ps| - 1];
      var p := ps[|ps| - 1];
      WeightedBounds(init, lo, hi);
      assert SumCounts(ps) == SumCounts(init) + p.count;
      assert SumWeighted(ps) == SumWeighted(init) + Weight(p);
      WeightedStep(SumCounts(init), SumWeighted(init), p, lo, hi);
    }
  }

  /** One more partial keeps the weighted sum between count·lo and count·hi. */
  lemma WeightedStep(n: int, w: real, p: Partial, lo: real, hi: real)
    requires n as real * lo <= w <= n as real * hi && p.count >= 0 && lo <= p.avg <= hi
    ensures (n + p.count) as real * lo <= w + Weight(p) <= (n + p.count) as real * hi
  {
    var s, c, x := n as real, p.count as real, p.avg;
    assert x * c - c * lo == c * (x - lo);
    assert c * hi - x * c == c * (hi - x);
    assert (s + c) * lo == s * lo + c * lo;
    assert (s + c) * hi == s * hi + c * hi;
  }

  /** The merged average lies between the smallest and the largest partial average. */
  lemma WeightedAvgWithin(ps: seq<Partial>, lo: real, hi: real)
    requires forall k :: 0 <= k < |ps| ==> ps[k].count >= 0 && lo <= ps[k].avg <= hi
    requires SumCounts(ps) > 0
    ensures lo <= WeightedAvg(ps) <= hi
  {
    var c, w := SumCounts(ps), SumWeighted(ps);
    assert WeightedAvg(ps) == w / c as real;
    WeightedBounds(ps, lo, hi);
    CountDivBounds(lo, w, hi, c);
  }

  lemma CountDivBounds(lo: real, w: real, hi: real, c: int)
    requires c > 0 && c as real * lo <= w <= c as real * hi
    ensures lo <= w / c as real <= hi
  {
    DivBounds(lo, w, hi, c as real);
  }

  /** The partial of one non-empty group of prices: its mean and its size. */
  function PartialOf(xs: seq<int>): Partial
    requires xs != []
  {
    Partial(Mean(xs), |xs|)
  }

  function Concat(xss: seq<seq<int>>): seq<int> {
    if xss == [] then [] else Concat(xss[..|xss| - 1]) + xss[|xss| - 1]
  }

  /** The partials of non-empty price groups, one per group, in order. */
  function Partials(xss: seq<seq<int>>): (ps: seq<Partial>)
    requires forall k :: 0 <= k < |xss| ==> xss[k] != []
    ensures |ps| == |xss| && forall k :: 0 <= k < |xss| ==> ps[k] == PartialOf(xss[k])
  {
    if xss == [] then [] else Partials(xss[..|xss| - 1]) + [PartialOf(xss[|xss| - 1])]
  }

  lemma {:induction false} MergeCounts(xss: seq<seq<int>>)
    requires forall k :: 0 <= k < |xss| ==> xss[k] != []
    ensures SumCounts(Partials(xss)) == |Concat(xss)|
  {
    if xss != [] {
      var init := xss[..|xss| - 1];
      MergeCounts(init);
      var ps := Partials(xss);
      assert ps[..|ps| - 1] == Partials(init);
    }
  }

  /** Partials whose avg·count is each group's total sum to the total of all groups. */
  lemma {:induction false} WeightedIsTotal(xss: seq<seq<int>>, ps: seq<Partial>)
    requires |ps| == |xss| && forall k :: 0 <= k < |ps| ==> Weight(ps[k]) == Sum(xss[k]) as real
    ensures SumWeighted(ps) == Sum(Concat(xss)) as real
  {
    if xss != [] {
      var init, last := xss[..|xss| - 1], xss[|xss| - 1];
      var pinit, p := ps[..|ps| - 1], ps[|ps| - 1];
      WeightedIsTotal(init, pinit);
      SumConcat(Concat(init), last);
      assert Sum(Concat(xss)) == Sum(Concat(init)) + Sum(last);
    }
  }

  lemma MergeSums(xss: seq<seq<int>>)
    requires forall k :: 0 <= k < |xss| ==> xss[k] != []
    ensures SumWeighted(Partials(xss)) == Sum(Concat(xss)) as real
  {
    var ps := Partials(xss);
    forall k | 0 <= k < |ps| ensures Weight(ps[k]) == Sum(xss[k]) as real {
      MeanTimesCount(xss[k]);
    }
    WeightedIsTotal(xss, ps);
  }

  lemma MeanTimesCount(xs: seq<int>)
    requires xs != []
    ensures Weight(PartialOf(xs)) == Sum(xs) as real
  {
    var n := |xs| as real;
    assert Mean(xs) * n == Sum(xs) as real / n * n;
  }

  /** Merging exact group means by count weight gives the mean of all the
      prices together: the recombination loses nothing. */
  lemma MergedMeanIsMean(xss: seq<seq<int>>)
    requires xss != [] && forall k :: 0 <= k < |xss| ==> xss[k] != []
    ensures Concat(xss) != []
    ensures WeightedAvg(Partials(xss)) == Mean(Concat(xss))
  {
    MergeCounts(xss);
    MergeSums(xss);
    ConcatNonEmpty(xss);
  }

  lemma {:induction false} ConcatNonEmpty(xss: seq<seq<int>>)
    requires xss != [] && xss[|xss| - 1] != []
    ensures Concat(xss) != []
  {
  }

  /** Two partial averages 100 (1 unit) and 200 (3 units) merge to 175. */
  lemma WeightedExample()
    ensures WeightedAvg([Partial(100.0, 1), Partial(200.0, 3)]) == 175.0
  {
    var ps := [Partial(100.0, 1), Partial(200.0, 3)];
    assert ps[..1] == [Partial(100.0, 1)];
    assert SumCounts(ps) == 4;
    assert SumWeighted(ps) == 700.0;
  }
}
