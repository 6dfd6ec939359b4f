/** The Delta Lake cache builder (parquet_test/deltalake_cache.py): the
    joins of the fact tables with their dimensions, the precomputed
    aggregations, the filtered inventory and aggregation queries, and the
    module-level cache that is built once. Table reads are replaced by a
    `Tables` value holding what each read returned (None when it failed). */
module DeltaCache {
  import opened Wrappers
  import opened Text
  import opened Sorting
  import opened Stats
  import opened Frames
  import opened Responses

  const WorkspaceId := "9c727ce4-5f7e-4008-b31e-f3e3bd8e0adc"
  const LakehouseId := "06dc42ac-4151-4bb9-94fb-1a03edf49600"

  /** The abfss URI of a table of the gold schema. */
  function TableUri(table: string): (uri: string)
    ensures |uri| > 8 + |table| && uri[..8] == "abfss://" && uri[|uri| - |table|..] == table
  {
    "abfss://" + WorkspaceId + "@onelake.dfs.fabric.microsoft.com/" + LakehouseId + "/Tables/gold/" + table
  }

  // ---------------------------------------------------------------------------
  // Joins

  const ProductKey := "dim_product_model_skey"
  const FloorplanKey := "dim_product_skey"
  const DealerKey := "dim_dealership_skey"

  const ProductColumns := [ProductKey, "rv_type", "manufacturer", "model", "parent_company", "company", "model_year"]
  const FloorplanColumns := [FloorplanKey, "floorplan"]
  const DealerColumns := [DealerKey, "dealer_group", "dealership", "state", "region", "city", "county"]
  const DateColumns := ["dim_date_skey", "calendar_date", "month_year", "quarter_year"]

  /** What each read_table call returned. */
  datatype Tables = Tables(
    products: Option<Frame>,
    floorplans: Option<Frame>,
    dealers: Option<Frame>,
    dates: Option<Frame>,
    inventoryRaw: Option<Frame>,
    salesRaw: Option<Frame>)

  /** A join that runs only when its dimension was loaded. */
  predicate MaybeMergeable(fact: Frame, dim: Option<Frame>, cols: seq<string>, lkey: string, rkey: string) {
    dim.Some? ==> Mergeable(fact, dim.value, cols, lkey, rkey)
  }

  function MaybeMerge(fact: Frame, dim: Option<Frame>, cols: seq<string>, lkey: string, rkey: string): Frame
    requires MaybeMergeable(fact, dim, cols, lkey, rkey)
  {
    if dim.Some? then Merge(fact, dim.value, cols, lkey, rkey) else fact
  }

  /** Product models always, then floorplans and dealers when loaded. */
  predicate DimsJoinable(fact: Frame, t: Tables) {
    t.products.Some?
    && Mergeable(fact, t.products.value, ProductColumns, ProductKey, ProductKey)
    && var s1 := Merge(fact, t.products.value, ProductColumns, ProductKey, ProductKey);
    MaybeMergeable(s1, t.floorplans, FloorplanColumns, FloorplanKey, FloorplanKey)
    && var s2 := MaybeMerge(s1, t.floorplans, FloorplanColumns, FloorplanKey, FloorplanKey);
    MaybeMergeable(s2, t.dealers, DealerColumns, DealerKey, DealerKey)
  }

  function JoinDims(fact: Frame, t: Tables): Frame
    requires DimsJoinable(fact, t)
  {
    var s1 := Merge(fact, t.products.value, ProductColumns, ProductKey, ProductKey);
    var s2 := MaybeMerge(s1, t.floorplans, FloorplanColumns, FloorplanKey, FloorplanKey);
    MaybeMerge(s2, t.dealers, DealerColumns, DealerKey, DealerKey)
  }

  /** Sales also join the date dimension on sold_date_skey = dim_date_skey. */
  predicate SalesJoinable(sales: Frame, t: Tables) {
    DimsJoinable(sales, t) && MaybeMergeable(JoinDims(sales, t), t.dates, DateColumns, "sold_date_skey", "dim_date_skey")
  }

  function JoinSales(sales: Frame, t: Tables): Frame
    requires SalesJoinable(sales, t)
  {
    MaybeMerge(JoinDims(sales, t), t.dates, DateColumns, "sold_date_skey", "dim_date_skey")
  }

  /** Every merge build_cache runs is defined: its columns exist and the
      frames share no column but the key. */
  predicate JoinsDefined(t: Tables) {
    (t.inventoryRaw.Some? && t.products.Some? ==> DimsJoinable(t.inventoryRaw.value, t))
    && (t.salesRaw.Some? && t.products.Some? ==> SalesJoinable(t.salesRaw.value, t))
  }

  /** The joined inventory exists only when both the raw inventory and the products loaded. */
  function InventoryOf(t: Tables): (r: Option<Frame>)
    requires JoinsDefined(t)
    ensures r.Some? <==> t.inventoryRaw.Some? && t.products.Some?
  {
    if t.inventoryRaw.Some? && t.products.Some? then Some(JoinDims(t.inventoryRaw.value, t)) else None
  }

  function SalesOf(t: Tables): (r: Option<Frame>)
    requires JoinsDefined(t)
    ensures r.Some? <==> t.salesRaw.Some? && t.products.Some?
  {
    if t.salesRaw.Some? && t.products.Some? then Some(JoinSales(t.salesRaw.value, t)) else None
  }

  /** Every row of `small` reappears in `big`, extended with more columns. */
  predicate Covers(big: seq<Row>, small: seq<Row>) {
    forall l :: l in small ==> exists r :: r in big && Extends(r, l)
  }

  lemma CoversTrans(a: seq<Row>, b: seq<Row>, c: seq<Row>)
    requires Covers(b, a) && Covers(c, b)
    ensures Covers(c, a)
  {
    forall l | l in a ensures exists r :: r in c && Extends(r, l) {
      var r1 :| r1 in b && Extends(r1, l);
      var r2 :| r2 in c && Extends(r2, r1);
      assert Extends(r2, l);
    }
  }

  lemma MaybeMergeKeeps(fact: Frame, dim: Option<Frame>, cols: seq<string>, lkey: string, rkey: string)
    requires Valid(fact) && MaybeMergeable(fact, dim, cols, lkey, rkey) && Distinct(cols)
    ensures Valid(MaybeMerge(fact, dim, cols, lkey, rkey))
    ensures |MaybeMerge(fact, dim, cols, lkey, rkey).rows| >= |fact.rows|
    ensures Covers(MaybeMerge(fact, dim, cols, lkey, rkey).rows, fact.rows)
  {
    if dim.Some? {
      SelectValid(dim.value, cols);
      LeftJoinValid(fact, Select(dim.value, cols), lkey, rkey);
    } else {
      forall l | l in fact.rows ensures exists r :: r in fact.rows && Extends(r, l) {
        assert Extends(l, l);
      }
    }
  }

  lemma ColumnsDistinct()
    ensures Distinct(ProductColumns) && Distinct(FloorplanColumns) && Distinct(DealerColumns) && Distinct(DateColumns)
  {
  }

  /** Left joins only: every fact row survives the three joins, carrying
      its own cells, and no row is lost. */
  lemma JoinDimsKeepsRows(fact: Frame, t: Tables)
    requires Valid(fact) && DimsJoinable(fact, t)
    ensures Valid(JoinDims(fact, t)) && |JoinDims(fact, t).rows| >= |fact.rows|
    ensures Covers(JoinDims(fact, t).rows, fact.rows)
  {
    ColumnsDistinct();
    var s1 := MaybeMerge(fact, t.products, ProductColumns, ProductKey, ProductKey);
    var s2 := MaybeMerge(s1, t.floorplans, FloorplanColumns, FloorplanKey, FloorplanKey);
    var s3 := MaybeMerge(s2, t.dealers, DealerColumns, DealerKey, DealerKey);
    MaybeMergeKeeps(fact, t.products, ProductColumns, ProductKey, ProductKey);
    MaybeMergeKeeps(s1, t.floorplans, FloorplanColumns, FloorplanKey, FloorplanKey);
    MaybeMergeKeeps(s2, t.dealers, DealerColumns, DealerKey, DealerKey);
    CoversTrans(fact.rows, s1.rows, s2.rows);
    CoversTrans(fact.rows, s2.rows, s3.rows);
  }

  /** A dimension whose key column holds each value once. */
  predicate UniqueKeys(dim: Option<Frame>, key: string) {
    dim.Some? ==> UniqueOn(dim.value.rows, key)
  }

  lemma SelectUnique(dim: Frame, cols: seq<string>, key: string)
    requires forall c :: c in cols ==> c in dim.columns
    requires key in cols && UniqueOn(dim.rows, key)
    ensures UniqueOn(Select(dim, cols).rows, key)
  {
  }

  lemma MaybeMergeCount(fact: Frame, dim: Option<Frame>, cols: seq<string>, key: string)
    requires MaybeMergeable(fact, dim, cols, key, key) && UniqueKeys(dim, key) && key in cols
    ensures |MaybeMerge(fact, dim, cols, key, key).rows| == |fact.rows|
  {
    if dim.Some? {
      SelectUnique(dim.value, cols, key);
      LeftJoinUnique(fact, Select(dim.value, cols), key, key);
    }
  }

  /** With unique dimension keys the joined inventory has exactly one row per fact row. */
  lemma JoinDimsOneToOne(fact: Frame, t: Tables)
    requires DimsJoinable(fact, t)
    requires UniqueKeys(t.products, ProductKey) && UniqueKeys(t.floorplans, FloorplanKey) && UniqueKeys(t.dealers, DealerKey)
    ensures |JoinDims(fact, t).rows| == |fact.rows|
  {
    var s1 := Merge(fact, t.products.value, ProductColumns, ProductKey, ProductKey);
    var s2 := MaybeMerge(s1, t.floorplans, FloorplanColumns, FloorplanKey, FloorplanKey);
    MaybeMergeCount(fact, t.products, ProductColumns, ProductKey);
    MaybeMergeCount(s1, t.floorplans, FloorplanColumns, FloorplanKey);
    MaybeMergeCount(s2, t.dealers, DealerColumns, DealerKey);
  }

  /** Sales keep every row through the date join as well. */
  lemma JoinSalesKeepsRows(sales: Frame, t: Tables)
    requires Valid(sales) && SalesJoinable(sales, t)
    ensures Valid(JoinSales(sales, t)) && |JoinSales(sales, t).rows| >= |sales.rows|
    ensures Covers(JoinSales(sales, t).rows, sales.rows)
  {
    ColumnsDistinct();
    var d := JoinDims(sales, t);
    JoinDimsKeepsRows(sales, t);
    MaybeMergeKeeps(d, t.dates, DateColumns, "sold_date_skey", "dim_date_skey");
    CoversTrans(sales.rows, d.rows, JoinSales(sales, t).rows);
  }

  // ---------------------------------------------------------------------------
  // build_aggregations

  /** {col, count, total_value, avg_price} of one groupby row. */
  datatype Group = Group(name: string, count: int, totalValue: int, avgPrice: Float)

  /** {col, sold_count, avg_days_to_sell, avg_sale_price} of one groupby row. */
  datatype Velocity = Velocity(name: string, soldCount: int, avgDaysToSell: Float, avgSalePrice: Float)

  /** The `agg` dict; a None entry is a key that was never set. */
  datatype Aggregations = Aggregations(
    totalUnits: int,
    totalValue: int,
    avgPrice: Float,
    byRvType: Option<seq<Group>>,
    byCondition: Option<seq<Group>>,
    byState: Option<seq<Group>>,
    byRegion: Option<seq<Group>>,
    byDealerGroup: Option<seq<Group>>,
    byManufacturer: Option<seq<Group>>,
    byCity: Option<seq<Group>>,
    avgDaysToSell: Option<Float>,
    velocityByRvType: Option<seq<Velocity>>,
    velocityByCondition: Option<seq<Velocity>>)

  const CityLimit := 50

  function GroupOf(rows: seq<Row>, col: string, v: string): Group {
    var g := GroupRows(rows, col, v);
    Group(v, NonNullCount(g, "stock_number"), Sum(Ints(g, "price")), MeanOf(Ints(g, "price")))
  }

  /** `groupby(col).agg(count, sum, mean)`, in key order. */
  function GroupsOf(rows: seq<Row>, col: string): (r: seq<Group>)
    ensures |r| == |GroupKeys(rows, col)|
    ensures forall k :: 0 <= k < |r| ==> r[k] == GroupOf(rows, col, GroupKeys(rows, col)[k])
  {
    var ks := GroupKeys(rows, col);
    seq(|ks|, k requires 0 <= k < |ks| => GroupOf(rows, col, ks[k]))
  }

  function GroupCount(g: Group): int {
    g.count
  }

  /** The grouped columns need stock_number and price (the agg dict names them). */
  predicate Aggregatable(inv: Frame) {
    (exists c :: c in ["rv_type", "condition", "state", "region", "dealer_group", "manufacturer", "city"] && c in inv.columns)
      ==> "stock_number" in inv.columns && "price" in inv.columns
  }

  function ByKey(inv: Frame, col: string): Option<seq<Group>> {
    if col in inv.columns then Some(GroupsOf(inv.rows, col)) else None
  }

  function ByCount(inv: Frame, col: string): Option<seq<Group>> {
    if col in inv.columns then Some(SortDesc(GroupsOf(inv.rows, col), GroupCount)) else None
  }

  function VelocityOf(rows: seq<Row>, col: string, v: string): Velocity {
    var g := GroupRows(rows, col, v);
    Velocity(v, NonNullCount(g, "stock_number"), MeanOf(Ints(g, "days_to_sell")), MeanOf(Ints(g, "sale_price")))
  }

  function VelocityBy(sales: Frame, col: string): Option<seq<Velocity>> {
    if col in sales.columns then
      var ks := GroupKeys(sales.rows, col);
      Some(seq(|ks|, k requires 0 <= k < |ks| => VelocityOf(sales.rows, col, ks[k])))
    else None
  }

  predicate HasVelocity(sales: Option<Frame>) {
    sales.Some? && "days_to_sell" in sales.value.columns
  }

  /** The velocity groupbys need stock_number and sale_price. */
  predicate VelocityAggregatable(sales: Option<Frame>) {
    (HasVelocity(sales) && ("rv_type" in sales.value.columns || "condition" in sales.value.columns))
      ==> "stock_number" in sales.value.columns && "sale_price" in sales.value.columns
  }

  /** Every groupby build_aggregations runs finds the columns its agg dict names. */
  predicate AggregationsDefined(inv: Option<Frame>, sales: Option<Frame>) {
    (inv.Some? ==> Aggregatable(inv.value)) && VelocityAggregatable(sales)
  }

  function AggregationsOf(inv: Option<Frame>, sales: Option<Frame>): (a: Option<Aggregations>)
    requires AggregationsDefined(inv, sales)
    ensures a.None? <==> inv.None?
  {
    if inv.None? then None
    else
      var f := inv.value;
      var hasPrice := "price" in f.columns;
      var vel := HasVelocity(sales);
      Some(Aggregations(
        |f.rows|,
        if hasPrice then Sum(Ints(f.rows, "price")) else 0,
        if hasPrice then MeanOf(Ints(f.rows, "price")) else Finite(0.0),
        ByKey(f, "rv_type"), ByKey(f, "condition"), ByCount(f, "state"), ByKey(f, "region"),
        ByCount(f, "dealer_group"), ByCount(f, "manufacturer"),
        if "city" in f.columns then Some(Take(SortDesc(GroupsOf(f.rows, "city"), GroupCount), CityLimit)) else None,
        if vel then Some(MeanOf(Ints(sales.value.rows, "days_to_sell"))) else None,
        if vel then VelocityBy(sales.value, "rv_type") else None,
        if vel then VelocityBy(sales.value, "condition") else None))
  }

  /** No inventory gives the empty dict; otherwise total_units is the row
      count, the totals are 0 without a price column, each by_X entry exists
      exactly when its column does, and the sales entries exist exactly
      when the sales have days_to_sell. */
  lemma AggregationsTotals(inv: Option<Frame>, sales: Option<Frame>)
    requires AggregationsDefined(inv, sales)
    ensures AggregationsOf(inv, sales).None? <==> inv.None?
    ensures inv.Some? ==>
      var a, f := AggregationsOf(inv, sales).value, inv.value;
      a.totalUnits == |f.rows|
      && (if "price" in f.columns then a.totalValue == Sum(Ints(f.rows, "price")) && a.avgPrice == MeanOf(Ints(f.rows, "price"))
          else a.totalValue == 0 && a.avgPrice == Finite(0.0))
      && (a.byRvType.Some? <==> "rv_type" in f.columns) && (a.byCondition.Some? <==> "condition" in f.columns)
      && (a.byState.Some? <==> "state" in f.columns) && (a.byRegion.Some? <==> "region" in f.columns)
      && (a.byDealerGroup.Some? <==> "dealer_group" in f.columns)
      && (a.byManufacturer.Some? <==> "manufacturer" in f.columns) && (a.byCity.Some? <==> "city" in f.columns)
      && (a.avgDaysToSell.Some? <==> HasVelocity(sales))
      && (a.velocityByRvType.Some? <==> HasVelocity(sales) && "rv_type" in sales.value.columns)
      && (a.velocityByCondition.Some? <==> HasVelocity(sales) && "condition" in sales.value.columns)
  {
  }

  /** rv_type, condition and region keep the groupby's key order: strictly ascending names. */
  lemma AggregationsKeyOrder(f: Frame, sales: Option<Frame>)
    requires AggregationsDefined(Some(f), sales)
    ensures var a := AggregationsOf(Some(f), sales).value;
      (a.byRvType.Some? ==> NamesAscending(a.byRvType.value))
      && (a.byCondition.Some? ==> NamesAscending(a.byCondition.value))
      && (a.byRegion.Some? ==> NamesAscending(a.byRegion.value))
  {
    GroupsAscending(f.rows, "rv_type");
    GroupsAscending(f.rows, "condition");
    GroupsAscending(f.rows, "region");
  }

  /** `ranked` holds the groups `gs`, each once, by count descending. */
  predicate Ranked(ranked: seq<Group>, gs: seq<Group>) {
    SortedDesc(ranked, GroupCount) && multiset(ranked) == multiset(gs)
  }

  /** state, dealer_group and manufacturer are ordered by count, descending,
      and hold every group once. */
  lemma AggregationsByCount(f: Frame, sales: Option<Frame>)
    requires AggregationsDefined(Some(f), sales)
    ensures var a := AggregationsOf(Some(f), sales).value;
      (a.byState.Some? ==> Ranked(a.byState.value, GroupsOf(f.rows, "state")))
      && (a.byDealerGroup.Some? ==> Ranked(a.byDealerGroup.value, GroupsOf(f.rows, "dealer_group")))
      && (a.byManufacturer.Some? ==> Ranked(a.byManufacturer.value, GroupsOf(f.rows, "manufacturer")))
  {
    var a := AggregationsOf(Some(f), sales).value;
    assert a.byState == ByCount(f, "state");
    assert a.byDealerGroup == ByCount(f, "dealer_group");
    assert a.byManufacturer == ByCount(f, "manufacturer");
    ByCountRanked(f, "state");
    ByCountRanked(f, "dealer_group");
    ByCountRanked(f, "manufacturer");
  }

  lemma ByCountRanked(f: Frame, col: string)
    ensures ByCount(f, col).Some? ==> Ranked(ByCount(f, col).value, GroupsOf(f.rows, col))
  {
    SortDescProperties(GroupsOf(f.rows, col), GroupCount);
  }

  /** At most 50 cities, the largest by count: no city left out has a larger count than a kept one. */
  lemma AggregationsCities(f: Frame, sales: Option<Frame>)
    requires AggregationsDefined(Some(f), sales) && "city" in f.columns
    ensures var cs := AggregationsOf(Some(f), sales).value.byCity.value;
      var all := GroupsOf(f.rows, "city");
      |cs| == SliceLength(|all|, CityLimit) && SortedDesc(cs, GroupCount)
      && multiset(cs) <= multiset(all)
      && forall g, c :: g in all && g !in cs && c in cs ==> GroupCount(c) >= GroupCount(g)
  {
    var all := GroupsOf(f.rows, "city");
    assert AggregationsOf(Some(f), sales).value.byCity == Some(Take(SortDesc(all, GroupCount), CityLimit));
    TopByCount(all, CityLimit);
  }

  /** The first n groups by count: as many as there are up to n, largest first,
      each group at most once, and none smaller than a group left out. */
  lemma TopByCount(all: seq<Group>, n: nat)
    ensures var cs := Take(SortDesc(all, GroupCount), n);
      |cs| == SliceLength(|all|, n) && SortedDesc(cs, GroupCount)
      && multiset(cs) <= multiset(all)
      && forall g, c :: g in all && g !in cs && c in cs ==> GroupCount(c) >= GroupCount(g)
  {
    var sorted := SortDesc(all, GroupCount);
    var k := SliceLength(|all|, n);
    TopPrefix(all, GroupCount, k);
    assert Take(sorted, n) == sorted[..k];
  }

  predicate NamesAscending(gs: seq<Group>) {
    forall i, j :: 0 <= i < j < |gs| ==> Less(gs[i].name, gs[j].name)
  }

  lemma GroupsAscending(rows: seq<Row>, col: string)
    ensures NamesAscending(GroupsOf(rows, col))
  {
    GroupKeysMeaning(rows, col);
  }

  /** Each group names a value the column holds and counts exactly the rows
      with that value and a stock number. */
  lemma GroupMeaning(rows: seq<Row>, col: string, k: nat)
    requires k < |GroupsOf(rows, col)|
    ensures var g := GroupsOf(rows, col)[k];
      (exists r :: r in rows && Cell(r, col) == Str(g.name))
      && g.count == NonNullCount(GroupRows(rows, col, g.name), "stock_number")
      && g.count <= |GroupRows(rows, col, g.name)|
      && forall r :: r in GroupRows(rows, col, g.name) <==> r in rows && Cell(r, col) == Str(g.name)
  {
    GroupKeysMeaning(rows, col);
    var ks := GroupKeys(rows, col);
    assert ks[k] in ks;
  }

  // ---------------------------------------------------------------------------
  // The cache

  datatype Cache = Cache(
    products: Option<Frame>,
    floorplans: Option<Frame>,
    dealers: Option<Frame>,
    dates: Option<Frame>,
    inventory: Option<Frame>,
    sales: Option<Frame>,
    aggregations: Option<Aggregations>)

  /** build_cache is defined: its merges and groupbys find their columns. */
  predicate Buildable(t: Tables) {
    JoinsDefined(t) && AggregationsDefined(InventoryOf(t), SalesOf(t))
  }

  function CacheOf(t: Tables): (c: Cache)
    requires Buildable(t)
    ensures c.products == t.products && c.floorplans == t.floorplans
    ensures c.dealers == t.dealers && c.dates == t.dates
    ensures c.aggregations.None? <==> c.inventory.None?
  {
    Cache(t.products, t.floorplans, t.dealers, t.dates, InventoryOf(t), SalesOf(t),
          AggregationsOf(InventoryOf(t), SalesOf(t)))
  }

  /** build_cache: the joins rebind `inventory` and `sales` stage by stage. */
  method BuildCache(t: Tables) returns (c: Cache)
    requires Buildable(t)
    ensures c == CacheOf(t)
  {
    var inventory: Option<Frame> := None;
    if t.inventoryRaw.Some? && t.products.Some? {
      var inv := Merge(t.inventoryRaw.value, t.products.value, ProductColumns, ProductKey, ProductKey);
      if t.floorplans.Some? {
        inv := Merge(inv, t.floorplans.value, FloorplanColumns, FloorplanKey, FloorplanKey);
      }
      if t.dealers.Some? {
        inv := Merge(inv, t.dealers.value, DealerColumns, DealerKey, DealerKey);
      }
      inventory := Some(inv);
    }
    var sales: Option<Frame> := None;
    if t.salesRaw.Some? && t.products.Some? {
      var s := Merge(t.salesRaw.value, t.products.value, ProductColumns, ProductKey, ProductKey);
      if t.floorplans.Some? {
        s := Merge(s, t.floorplans.value, FloorplanColumns, FloorplanKey, FloorplanKey);
      }
      if t.dealers.Some? {
        s := Merge(s, t.dealers.value, DealerColumns, DealerKey, DealerKey);
      }
      if t.dates.Some? {
        s := Merge(s, t.dates.value, DateColumns, "sold_date_skey", "dim_date_skey");
      }
      sales := Some(s);
    }
    c := Cache(t.products, t.floorplans, t.dealers, t.dates, inventory, sales, AggregationsOf(inventory, sales));
  }

  // ---------------------------------------------------------------------------
  // Queries

  /** get_inventory's filters, in its order. */
  function InventoryCriteria(rvType: Option<string>, condition: Option<string>, state: Option<string>,
                             dealerGroup: Option<string>, minPrice: Option<int>, maxPrice: Option<int>): seq<Criterion> {
    EqualsIf(rvType, "rv_type") + EqualsIf(condition, "condition") + EqualsIf(state, "state")
    + EqualsIf(dealerGroup, "dealer_group") + BoundsOf(minPrice, maxPrice)
  }

  /** get_inventory: an empty frame without inventory; `head(limit)` only for a truthy limit. */
  function InventoryQuery(c: Cache, crs: seq<Criterion>, limit: Option<int>): Frame
    requires c.inventory.Some? ==> Applicable(c.inventory.value, crs)
  {
    if c.inventory.None? then EmptyFrame()
    else
      var df := ApplyAll(c.inventory.value, crs);
      if TruthyInt(limit) then Head(df, limit.value) else df
  }

  lemma InventoryQueryMeaning(c: Cache, crs: seq<Criterion>, limit: Option<int>)
    requires c.inventory.Some? ==> Valid(c.inventory.value) && Applicable(c.inventory.value, crs)
    ensures c.inventory.None? ==> InventoryQuery(c, crs, limit) == EmptyFrame()
    ensures c.inventory.Some? ==>
      var all := ApplyAll(c.inventory.value, crs).rows;
      InventoryQuery(c, crs, limit).rows == (if TruthyInt(limit) then Take(all, limit.value) else all)
      && forall r :: r in all <==> r in c.inventory.value.rows && AllHold(crs, r)
  {
    if c.inventory.Some? {
      ApplyAllMeaning(c.inventory.value, crs);
    }
  }

  /** `groupby(col).size().to_dict()`: each value the column holds, with its row count. */
  function SizesOf(f: Frame, col: string): (m: map<string, int>)
    ensures col in f.columns ==> m.Keys == set v | v in GroupKeys(f.rows, col)
    ensures col !in f.columns ==> m == map[]
  {
    if col in f.columns then map v | v in GroupKeys(f.rows, col) :: |GroupRows(f.rows, col, v)| else map[]
  }

  /** A value is a key exactly when some row holds it, and it maps to the
      number of rows holding it, which is at least one. */
  lemma SizesMeaning(f: Frame, col: string)
    requires col in f.columns
    ensures forall v :: v in SizesOf(f, col) <==> exists r :: r in f.rows && Cell(r, col) == Str(v)
    ensures forall v :: v in SizesOf(f, col) ==>
      SizesOf(f, col)[v] == |GroupRows(f.rows, col, v)| >= 1
      && forall r :: r in GroupRows(f.rows, col, v) <==> r in f.rows && Cell(r, col) == Str(v)
  {
    GroupKeysMeaning(f.rows, col);
  }

  /** The answer of get_aggregations: the precomputed dict, or totals over the filtered rows. */
  datatype AggregationsAnswer =
    | Precomputed(agg: Option<Aggregations>)
    | Computed(totalUnits: int, totalValue: int, avgPrice: Float,
               byRvType: map<string, int>, byCondition: map<string, int>, byState: map<string, int>)

  /** get_aggregations over the cache `c`. */
  function AggregationsQuery(c: Cache, rvType: Option<string>, condition: Option<string>, state: Option<string>): AggregationsAnswer
    requires c.inventory.Some? ==> Applicable(c.inventory.value, InventoryCriteria(rvType, condition, state, None, None, None))
  {
    if !(Truthy(rvType) || Truthy(condition) || Truthy(state)) then Precomputed(c.aggregations)
    else
      var inv := InventoryQuery(c, InventoryCriteria(rvType, condition, state, None, None, None), None);
      var n := |inv.rows|;
      Computed(n, if n > 0 then Sum(Ints(inv.rows, "price")) else 0,
               if n > 0 then MeanOf(Ints(inv.rows, "price")) else Finite(0.0),
               SizesOf(inv, "rv_type"), SizesOf(inv, "condition"), SizesOf(inv, "state"))
  }

  /** No filter returns the precomputed aggregations unchanged. Otherwise the
      totals are over the rows the filters keep: their number, and the sum and
      mean of their prices (0 when none match), with each size map counting
      the kept rows per value; without an inventory everything is zero or empty. */
  lemma AggregationsQueryMeaning(c: Cache, rvType: Option<string>, condition: Option<string>, state: Option<string>)
    requires c.inventory.Some? ==> Valid(c.inventory.value)
    requires c.inventory.Some? ==> Applicable(c.inventory.value, InventoryCriteria(rvType, condition, state, None, None, None))
    ensures !(Truthy(rvType) || Truthy(condition) || Truthy(state)) ==>
      AggregationsQuery(c, rvType, condition, state) == Precomputed(c.aggregations)
    ensures (Truthy(rvType) || Truthy(condition) || Truthy(state)) && c.inventory.None? ==>
      AggregationsQuery(c, rvType, condition, state) == Computed(0, 0, Finite(0.0), map[], map[], map[])
    ensures (Truthy(rvType) || Truthy(condition) || Truthy(state)) && c.inventory.Some? ==>
      var crs := InventoryCriteria(rvType, condition, state, None, None, None);
      var a := AggregationsQuery(c, rvType, condition, state);
      var g := ApplyAll(c.inventory.value, crs);
      a.Computed? && a.totalUnits == |g.rows|
      && (forall r :: r in g.rows <==> r in c.inventory.value.rows && AllHold(crs, r))
      && (a.totalUnits == 0 ==> a.totalValue == 0 && a.avgPrice == Finite(0.0))
      && (a.totalUnits > 0 ==> a.totalValue == Sum(Ints(g.rows, "price")) && a.avgPrice == MeanOf(Ints(g.rows, "price")))
      && a.byRvType == SizesOf(g, "rv_type") && a.byCondition == SizesOf(g, "condition")
      && a.byState == SizesOf(g, "state")
  {
    if c.inventory.Some? {
      ApplyAllMeaning(c.inventory.value, InventoryCriteria(rvType, condition, state, None, None, None));
    }
  }

  /** The module-level `_cache` of get_cache. */
  class CacheStore {
    var cache: Option<Cache>

    constructor()
      ensures cache == None
    {
      cache := None;
    }

    /** get_cache: builds on the first call, then returns the same cache. */
    method GetCache(t: Tables) returns (c: Cache)
      requires cache.None? ==> Buildable(t)
      modifies this
      ensures cache == Some(c)
      ensures c == if old(cache).Some? then old(cache).value else CacheOf(t)
    {
      if cache.None? {
        var built := BuildCache(t);
        cache := Some(built);
      }
      c := cache.value;
    }

    /** get_inventory through the shared cache. */
    method GetInventory(t: Tables, rvType: Option<string>, condition: Option<string>, state: Option<string>,
                        dealerGroup: Option<string>, minPrice: Option<int>, maxPrice: Option<int>,
                        limit: Option<int>) returns (df: Frame)
      requires cache.None? ==> Buildable(t)
      requires var c := if cache.Some? then cache.value else CacheOf(t);
        c.inventory.Some? ==> Applicable(c.inventory.value, InventoryCriteria(rvType, condition, state, dealerGroup, minPrice, maxPrice))
      modifies this
      ensures cache == Some(if old(cache).Some? then old(cache).value else CacheOf(t))
      ensures df == InventoryQuery(cache.value, InventoryCriteria(rvType, condition, state, dealerGroup, minPrice, maxPrice), limit)
    {
      var c := GetCache(t);
      df := InventoryQuery(c, InventoryCriteria(rvType, condition, state, dealerGroup, minPrice, maxPrice), limit);
    }

    /** get_aggregations through the shared cache. */
    method GetAggregations(t: Tables, rvType: Option<string>, condition: Option<string>, state: Option<string>)
      returns (a: AggregationsAnswer)
      requires cache.None? ==> Buildable(t)
      requires var c := if cache.Some? then cache.value else CacheOf(t);
        c.inventory.Some? ==> Applicable(c.inventory.value, InventoryCriteria(rvType, condition, state, None, None, None))
      modifies this
      ensures cache == Some(if old(cache).Some? then old(cache).value else CacheOf(t))
      ensures a == AggregationsQuery(cache.value, rvType, condition, state)
    {
      var c := GetCache(t);
      a := AggregationsQuery(c, rvType, condition, state);
    }
  }
}
