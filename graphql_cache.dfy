/** The GraphQL backend's in-memory caches (class FabricGraphQLClient in
    api/main.py): the access token, the three dimension caches keyed by
    surrogate key, the joined inventory cache and the queries served
    from it. HTTP calls are replaced by an `Upstream` value holding what
    the queries would return. */
module GraphQLCache {
  import opened Wrappers
  import opened Text
  import opened Sorting
  import opened Responses

  /** A token is renewed this many seconds before it expires. */
  const RefreshMarginSeconds := 300
  /** Keys per `in:` filter when fetching dimension rows. */
  const BatchSize := 100

  // ---------------------------------------------------------------------------
  // Records

  /** A `_products_cache` entry: only these three fields are kept. */
  datatype ProductEntry = ProductEntry(rvType: Option<string>, manufacturer: Option<string>, model: Option<string>)

  datatype FloorplanEntry = FloorplanEntry(floorplan: Option<string>)

  datatype DealerEntry = DealerEntry(
    dealerGroup: Option<string>,
    state: Option<string>,
    dealership: Option<string>,
    region: Option<string>,
    city: Option<string>,
    county: Option<string>)

  /** The three dimension caches. */
  datatype Dims = Dims(
    products: map<int, ProductEntry>,
    floorplans: map<int, FloorplanEntry>,
    dealers: map<int, DealerEntry>)

  /** A fact_inventory_currents row as fetched, without nested data. */
  datatype RawItem = RawItem(
    stockNumber: Option<string>,
    price: Option<int>,
    condition: Option<string>,
    daysOnLot: Option<int>,
    productModelKey: Option<int>,
    productKey: Option<int>,
    dealershipKey: Option<int>)

  /** One `_inventory_cache` record: a fact row joined with its dimensions. */
  datatype CachedItem = CachedItem(
    stockNumber: Option<string>,
    price: int,
    condition: Option<string>,
    daysOnLot: int,
    rvType: Option<string>,
    manufacturer: Option<string>,
    model: Option<string>,
    modelYear: Option<int>,
    floorplan: Option<string>,
    dealerGroup: Option<string>,
    state: Option<string>,
    region: Option<string>,
    city: Option<string>,
    county: Option<string>,
    dealership: Option<string>,
    location: string,
    productModelKey: Option<int>,
    productKey: Option<int>,
    dealershipKey: Option<int>)

  /** What the GraphQL endpoint answers: the item lists of the three
      dimension queries, as (key, entry) rows, and the inventory items. */
  datatype Upstream = Upstream(
    productRows: seq<(int, ProductEntry)>,
    floorplanRows: seq<(int, FloorplanEntry)>,
    dealerRows: seq<(int, DealerEntry)>,
    inventory: seq<RawItem>)

  /** What the credential's get_token returns. */
  datatype AccessToken = AccessToken(token: string, expiresOn: int)

  // ---------------------------------------------------------------------------
  // Keyed caches: `cache[row[key]] = entry` over a list of rows

  /** The dictionary built by assigning the rows in order; a later row wins. */
  function KeyedBy<V>(rows: seq<(int, V)>): map<int, V> {
    if rows == [] then map[]
    else KeyedBy(rows[..|rows| - 1])[rows[|rows| - 1].0 := rows[|rows| - 1].1]
  }

  lemma {:induction false} KeyedByKeys<V>(rows: seq<(int, V)>)
    ensures forall k :: k in KeyedBy(rows) <==> exists i :: 0 <= i < |rows| && rows[i].0 == k
  {
    if rows != [] {
      var init := rows[..|rows| - 1];
      KeyedByKeys(init);
      forall k | k in KeyedBy(rows) ensures exists i :: 0 <= i < |rows| && rows[i].0 == k {
        if k != rows[|rows| - 1].0 {
          assert k in KeyedBy(init);
          var i :| 0 <= i < |init| && init[i].0 == k;
          assert rows[i].0 == k;
        }
      }
      forall k | exists i :: 0 <= i < |rows| && rows[i].0 == k ensures k in KeyedBy(rows) {
        var i :| 0 <= i < |rows| && rows[i].0 == k;
        if i < |rows| - 1 { assert init[i].0 == k; }
      }
    }
  }

  /** The entry kept for a key is the one on its last row. */
  lemma {:induction false} KeyedByLastWins<V>(rows: seq<(int, V)>, i: nat)
    requires i < |rows|
    requires forall j :: i < j < |rows| ==> rows[j].0 != rows[i].0
    ensures rows[i].0 in KeyedBy(rows) && KeyedBy(rows)[rows[i].0] == rows[i].1
  {
    if i < |rows| - 1 {
      var init := rows[..|rows| - 1];
      KeyedByLastWins(init, i);
    }
  }

  /** The same loop, as load_cache and fetch_dimension_data_for_skeys run it. */
  method IndexRows<V>(rows: seq<(int, V)>) returns (m: map<int, V>)
    ensures m == KeyedBy(rows)
  {
    m := map[];
    var i := 0;
    while i < |rows|
      invariant 0 <= i <= |rows|
      invariant m == KeyedBy(rows[..i])
    {
      assert rows[..i + 1][..i] == rows[..i];
      m := m[rows[i].0 := rows[i].1];
      i := i + 1;
    }
    assert rows[..i] == rows;
  }

  function IndexDims(up: Upstream): Dims {
    Dims(KeyedBy(up.productRows), KeyedBy(up.floorplanRows), KeyedBy(up.dealerRows))
  }

  // ---------------------------------------------------------------------------
  // Token

  /** `_get_token`'s test: no token yet, or a truthy expiry less than the margin away. */
  predicate NeedsRefresh(token: Option<string>, expires: Option<int>, now: int) {
    token.None? || (TruthyInt(expires) && now > expires.value - RefreshMarginSeconds)
  }

  /** Once renewal is due it stays due as time passes. */
  lemma RefreshStaysDue(token: Option<string>, expires: Option<int>, now: int, later: int)
    requires NeedsRefresh(token, expires, now) && now <= later
    ensures NeedsRefresh(token, expires, later)
  {
  }

  /** A token is renewed exactly when its expiry is nonzero and within the margin. */
  lemma RefreshWindow(t: string, e: int, now: int)
    ensures NeedsRefresh(Some(t), Some(e), now) <==> e != 0 && now >= e - RefreshMarginSeconds + 1
  {
  }

  // ---------------------------------------------------------------------------
  // The inventory join

  function Lookup<V>(m: map<int, V>, k: Option<int>): Option<V> {
    if k.Some? && k.value in m then Some(m[k.value]) else None
  }

  /** "city, state" when both are truthy, else the state, else "". */
  function LocationOf(city: Option<string>, state: Option<string>): (loc: string)
    ensures loc == "" <==> !Truthy(state)
    ensures Truthy(state) ==> |state.value| <= |loc| && loc[|loc| - |state.value|..] == state.value
    ensures Truthy(city) && Truthy(state) ==> |city.value| < |loc| && loc[..|city.value|] == city.value
    ensures Truthy(city) && Truthy(state) ==> loc == city.value + ", " + state.value
    ensures !Truthy(city) && Truthy(state) ==> loc == state.value
  {
    if Truthy(city) && Truthy(state) then city.value + ", " + state.value
    else if Truthy(state) then state.value
    else ""
  }

  /** One cache record: a missing dimension (unknown or absent key) reads as {},
      so every field it would supply is None. */
  function JoinItem(dims: Dims, item: RawItem): (c: CachedItem)
    ensures c.stockNumber == item.stockNumber && c.condition == item.condition
    ensures c.price == item.price.GetOr(0) && c.daysOnLot == item.daysOnLot.GetOr(0)
    ensures c.productModelKey == item.productModelKey && c.productKey == item.productKey
    ensures c.dealershipKey == item.dealershipKey
    ensures c.modelYear == None
    ensures Lookup(dims.products, item.productModelKey).None? ==>
      c.rvType == None && c.manufacturer == None && c.model == None
    ensures var p := Lookup(dims.products, item.productModelKey);
      p.Some? ==> c.rvType == p.value.rvType && c.manufacturer == p.value.manufacturer && c.model == p.value.model
    ensures Lookup(dims.floorplans, item.productKey).None? ==> c.floorplan == None
    ensures var f := Lookup(dims.floorplans, item.productKey);
      f.Some? ==> c.floorplan == f.value.floorplan
    ensures Lookup(dims.dealers, item.dealershipKey).None? ==>
      c.dealerGroup == None && c.state == None && c.region == None && c.city == None
      && c.county == None && c.dealership == None && c.location == ""
    ensures var d := Lookup(dims.dealers, item.dealershipKey);
      d.Some? ==>
        c.dealerGroup == d.value.dealerGroup && c.state == d.value.state && c.region == d.value.region
        && c.city == d.value.city && c.county == d.value.county && c.dealership == d.value.dealership
    ensures c.location == LocationOf(c.city, c.state)
    ensures c.location == "" <==> !Truthy(c.state)
  {
    var p := Lookup(dims.products, item.productModelKey);
    var f := Lookup(dims.floorplans, item.productKey);
    var d := Lookup(dims.dealers, item.dealershipKey);
    var dealer := d.GetOr(DealerEntry(None, None, None, None, None, None));
    CachedItem(
      item.stockNumber,
      item.price.GetOr(0),
      item.condition,
      item.daysOnLot.GetOr(0),
      if p.Some? then p.value.rvType else None,
      if p.Some? then p.value.manufacturer else None,
      if p.Some? then p.value.model else None,
      None,
      if f.Some? then f.value.floorplan else None,
      dealer.dealerGroup,
      dealer.state,
      dealer.region,
      dealer.city,
      dealer.county,
      dealer.dealership,
      LocationOf(dealer.city, dealer.state),
      item.productModelKey,
      item.productKey,
      item.dealershipKey)
  }

  /** Only the entries under an item's own keys affect its record. */
  lemma JoinItemLocal(d1: Dims, d2: Dims, item: RawItem)
    requires Lookup(d1.products, item.productModelKey) == Lookup(d2.products, item.productModelKey)
    requires Lookup(d1.floorplans, item.productKey) == Lookup(d2.floorplans, item.productKey)
    requires Lookup(d1.dealers, item.dealershipKey) == Lookup(d2.dealers, item.dealershipKey)
    ensures JoinItem(d1, item) == JoinItem(d2, item)
  {
  }

  /** The inventory cache: one record per fetched item, in fetch order. */
  function JoinAll(dims: Dims, items: seq<RawItem>): (r: seq<CachedItem>)
    ensures |r| == |items|
    ensures forall k :: 0 <= k < |items| ==> r[k] == JoinItem(dims, items[k])
  {
    seq(|items|, k requires 0 <= k < |items| => JoinItem(dims, items[k]))
  }

  // ---------------------------------------------------------------------------
  // Filters

  /** get_cached_inventory's parameters (get_filtered_aggregations has no dealer). */
  datatype Query = Query(
    dealer: Option<string>,
    dealerGroup: Option<string>,
    rvType: Option<string>,
    manufacturer: Option<string>,
    condition: Option<string>,
    state: Option<string>,
    minPrice: Option<int>,
    maxPrice: Option<int>)

  datatype Field = Dealership | DealerGroup | RvType | Manufacturer | Condition | State

  /** One list comprehension of the filter chain. */
  datatype Criterion = Equals(field: Field, value: string) | AtLeast(bound: int) | AtMost(bound: int)

  function FieldOf(i: CachedItem, f: Field): Option<string> {
    match f
    case Dealership => i.dealership
    case DealerGroup => i.dealerGroup
    case RvType => i.rvType
    case Manufacturer => i.manufacturer
    case Condition => i.condition
    case State => i.state
  }

  predicate Holds(cr: Criterion, i: CachedItem) {
    match cr
    case Equals(f, v) => FieldOf(i, f) == Some(v)
    case AtLeast(b) => i.price >= b
    case AtMost(b) => i.price <= b
  }

  function EqualsIf(o: Option<string>, f: Field): seq<Criterion> {
    if Truthy(o) then [Equals(f, o.value)] else []
  }

  /** The comprehensions the chain applies, in order: a text filter only when
      its value is truthy, a price bound whenever it is given (0 included). */
  function Active(q: Query): seq<Criterion> {
    EqualsIf(q.dealer, Dealership) + EqualsIf(q.dealerGroup, DealerGroup)
    + EqualsIf(q.rvType, RvType) + EqualsIf(q.manufacturer, Manufacturer)
    + EqualsIf(q.condition, Condition) + EqualsIf(q.state, State)
    + (if q.minPrice.Some? then [AtLeast(q.minPrice.value)] else [])
    + (if q.maxPrice.Some? then [AtMost(q.maxPrice.value)] else [])
  }

  predicate AllHold(crs: seq<Criterion>, i: CachedItem) {
    forall cr | cr in crs :: Holds(cr, i)
  }

  predicate Matches(q: Query, i: CachedItem) {
    AllHold(Active(q), i)
  }

  lemma AllHoldEqualsIf(o: Option<string>, f: Field, i: CachedItem)
    ensures AllHold(EqualsIf(o, f), i) <==> (Truthy(o) ==> FieldOf(i, f) == o)
  {
    if Truthy(o) {
      assert Equals(f, o.value) in EqualsIf(o, f);
    }
  }

  lemma AllHoldBound(o: Option<int>, lower: bool, i: CachedItem)
    ensures var crs := if o.None? then [] else if lower then [AtLeast(o.value)] else [AtMost(o.value)];
      AllHold(crs, i) <==> (o.Some? ==> if lower then i.price >= o.value else i.price <= o.value)
  {
    if o.Some? {
      assert AtLeast(o.value) in [AtLeast(o.value)];
      assert AtMost(o.value) in [AtMost(o.value)];
    }
  }

  lemma AllHoldConcat(a: seq<Criterion>, b: seq<Criterion>, i: CachedItem)
    ensures AllHold(a + b, i) <==> AllHold(a, i) && AllHold(b, i)
  {
    assert forall cr :: cr in a + b <==> cr in a || cr in b;
  }

  /** What a query keeps, field by field. */
  lemma MatchesMeaning(q: Query, i: CachedItem)
    ensures Matches(q, i) <==>
      (Truthy(q.dealer) ==> i.dealership == q.dealer)
      && (Truthy(q.dealerGroup) ==> i.dealerGroup == q.dealerGroup)
      && (Truthy(q.rvType) ==> i.rvType == q.rvType)
      && (Truthy(q.manufacturer) ==> i.manufacturer == q.manufacturer)
      && (Truthy(q.condition) ==> i.condition == q.condition)
      && (Truthy(q.state) ==> i.state == q.state)
      && (q.minPrice.Some? ==> i.price >= q.minPrice.value)
      && (q.maxPrice.Some? ==> i.price <= q.maxPrice.value)
  {
    ActiveSplit(q);
    AllHoldConcat(TextCriteria(q), PriceCriteria(q), i);
    TextHolds(q, i);
    PriceHolds(q, i);
  }

  function TextCriteria(q: Query): seq<Criterion> {
    EqualsIf(q.dealer, Dealership) + EqualsIf(q.dealerGroup, DealerGroup)
    + EqualsIf(q.rvType, RvType) + EqualsIf(q.manufacturer, Manufacturer)
    + EqualsIf(q.condition, Condition) + EqualsIf(q.state, State)
  }

  function PriceCriteria(q: Query): seq<Criterion> {
    (if q.minPrice.Some? then [AtLeast(q.minPrice.value)] else [])
    + (if q.maxPrice.Some? then [AtMost(q.maxPrice.value)] else [])
  }

  lemma ActiveSplit(q: Query)
    ensures Active(q) == TextCriteria(q) + PriceCriteria(q)
  {
    var t := TextCriteria(q);
    var lo := if q.minPrice.Some? then [AtLeast(q.minPrice.value)] else [];
    var hi := if q.maxPrice.Some? then [AtMost(q.maxPrice.value)] else [];
    assert t + lo + hi == t + (lo + hi);
  }

  lemma TextHolds(q: Query, i: CachedItem)
    ensures AllHold(TextCriteria(q), i) <==>
      (Truthy(q.dealer) ==> i.dealership == q.dealer)
      && (Truthy(q.dealerGroup) ==> i.dealerGroup == q.dealerGroup)
      && (Truthy(q.rvType) ==> i.rvType == q.rvType)
      && (Truthy(q.manufacturer) ==> i.manufacturer == q.manufacturer)
      && (Truthy(q.condition) ==> i.condition == q.condition)
      && (Truthy(q.state) ==> i.state == q.state)
  {
    var e1, e2, e3 := EqualsIf(q.dealer, Dealership), EqualsIf(q.dealerGroup, DealerGroup), EqualsIf(q.rvType, RvType);
    var e4, e5, e6 := EqualsIf(q.manufacturer, Manufacturer), EqualsIf(q.condition, Condition), EqualsIf(q.state, State);
    AllHoldConcat(e1 + e2 + e3 + e4 + e5, e6, i);
    AllHoldConcat(e1 + e2 + e3 + e4, e5, i);
    AllHoldConcat(e1 + e2 + e3, e4, i);
    AllHoldConcat(e1 + e2, e3, i);
    AllHoldConcat(e1, e2, i);
    AllHoldEqualsIf(q.dealer, Dealership, i);
    AllHoldEqualsIf(q.dealerGroup, DealerGroup, i);
    AllHoldEqualsIf(q.rvType, RvType, i);
    AllHoldEqualsIf(q.manufacturer, Manufacturer, i);
    AllHoldEqualsIf(q.condition, Condition, i);
    AllHoldEqualsIf(q.state, State, i);
  }

  lemma PriceHolds(q: Query, i: CachedItem)
    ensures AllHold(PriceCriteria(q), i) <==>
      (q.minPrice.Some? ==> i.price >= q.minPrice.value)
      && (q.maxPrice.Some? ==> i.price <= q.maxPrice.value)
  {
    var lo := if q.minPrice.Some? then [AtLeast(q.minPrice.value)] else [];
    var hi := if q.maxPrice.Some? then [AtMost(q.maxPrice.value)] else [];
    AllHoldConcat(lo, hi, i);
    AllHoldBound(q.minPrice, true, i);
    AllHoldBound(q.maxPrice, false, i);
  }

  /** `[i for i in s if test(i)]`. */
  function Keep(s: seq<CachedItem>, cr: Criterion): (r: seq<CachedItem>)
    ensures |r| <= |s|
  {
    if s == [] then []
    else (if Holds(cr, s[0]) then [s[0]] else []) + Keep(s[1..], cr)
  }

  /** The chain of comprehensions, applied one after another. */
  function KeepAll(s: seq<CachedItem>, crs: seq<Criterion>): seq<CachedItem>
    decreases crs
  {
    if crs == [] then s else KeepAll(Keep(s, crs[0]), crs[1..])
  }

  /** Reference definition: the elements of s meeting every criterion, in order. */
  function SelectAll(s: seq<CachedItem>, crs: seq<Criterion>): seq<CachedItem> {
    if s == [] then []
    else (if AllHold(crs, s[0]) then [s[0]] else []) + SelectAll(s[1..], crs)
  }

  lemma {:induction false} SelectNothing(s: seq<CachedItem>)
    ensures SelectAll(s, []) == s
  {
    if s != [] {
      SelectNothing(s[1..]);
    }
  }

  lemma {:induction false} SelectAfterKeep(s: seq<CachedItem>, cr: Criterion, rest: seq<Criterion>)
    ensures SelectAll(Keep(s, cr), rest) == SelectAll(s, [cr] + rest)
  {
    if s != [] {
      SelectAfterKeep(s[1..], cr, rest);
      var t := Keep(s[1..], cr);
      assert AllHold([cr] + rest, s[0]) <==> Holds(cr, s[0]) && AllHold(rest, s[0]) by {
        assert forall c :: c in [cr] + rest <==> c == cr || c in rest;
      }
      if Holds(cr, s[0]) {
        assert Keep(s, cr) == [s[0]] + t;
        assert ([s[0]] + t)[1..] == t;
        assert SelectAll([s[0]] + t, rest) == (if AllHold(rest, s[0]) then [s[0]] else []) + SelectAll(t, rest);
      } else {
        assert Keep(s, cr) == t;
      }
    }
  }

  /** Applying the comprehensions in sequence keeps exactly the elements meeting all of them. */
  lemma {:induction false} KeepAllIsSelect(s: seq<CachedItem>, crs: seq<Criterion>)
    ensures KeepAll(s, crs) == SelectAll(s, crs)
    decreases crs
  {
    if crs == [] {
      SelectNothing(s);
    } else {
      KeepAllIsSelect(Keep(s, crs[0]), crs[1..]);
      SelectAfterKeep(s, crs[0], crs[1..]);
      assert [crs[0]] + crs[1..] == crs;
    }
  }

  lemma {:induction false} SelectMembers(s: seq<CachedItem>, crs: seq<Criterion>)
    ensures forall x :: x in SelectAll(s, crs) <==> x in s && AllHold(crs, x)
    ensures multiset(SelectAll(s, crs)) <= multiset(s)
  {
    if s != [] {
      SelectMembers(s[1..], crs);
      assert s == [s[0]] + s[1..];
    }
  }

  // ---------------------------------------------------------------------------
  // Listing rows

  function PriceKey(i: CachedItem): int {
    i.price
  }

  /** f"{model_year} {manufacturer} {model}".strip(), where None renders as "None". */
  function TitleOf(i: CachedItem): string {
    Strip(ShowInt(i.modelYear) + " " + Show(i.manufacturer) + " " + Show(i.model))
  }

  /** The product cache never carries a model year, so every cached title starts with "None". */
  lemma TitleStartsWithNone(c: CachedItem)
    requires c.modelYear == None
    ensures |TitleOf(c)| >= 4 && TitleOf(c)[..4] == "None"
  {
    var s := ShowInt(c.modelYear) + " " + Show(c.manufacturer) + " " + Show(c.model);
    assert ShowInt(c.modelYear) == "None";
    assert s[..4] == "None";
    StripKeepsHead(s, 3);
    assert TitleOf(c)[..4] == s[..4];
  }

  function ToListing(i: CachedItem): (l: Listing)
    ensures l.salePrice == Some(i.price) && l.daysOnLot == Some(i.daysOnLot)
    ensures l.dealerSource == i.dealership && l.rvClass == i.rvType && l.make == i.manufacturer
  {
    Listing(i.stockNumber, Some(TitleOf(i)), i.modelYear, i.manufacturer, i.model, i.floorplan,
            i.rvType, i.condition, Some(i.price), Some(i.location), i.dealership, i.dealerGroup,
            Some(i.daysOnLot))
  }

  function Listings(s: seq<CachedItem>): (r: seq<Listing>)
    ensures |r| == |s|
    ensures forall k :: 0 <= k < |s| ==> r[k] == ToListing(s[k])
  {
    seq(|s|, k requires 0 <= k < |s| => ToListing(s[k]))
  }

  /** The response loop of get_cached_inventory: one listing per record, in order. */
  method FormatListings(page: seq<CachedItem>) returns (results: seq<Listing>)
    ensures results == Listings(page)
  {
    results := [];
    var k := 0;
    while k < |page|
      invariant 0 <= k <= |page|
      invariant results == Listings(page[..k])
    {
      ghost var next := Listings(page[..k + 1]);
      assert forall m :: 0 <= m < k ==> next[m] == results[m];
      assert next[k] == ToListing(page[k]);
      results := results + [ToListing(page[k])];
      k := k + 1;
    }
    assert page[..k] == page;
  }

  /** The records one page holds: matching, highest price first, at most `limit`. */
  function InventoryPage(base: seq<CachedItem>, q: Query, limit: int): seq<CachedItem> {
    Take(SortDesc(KeepAll(base, Active(q)), PriceKey), limit)
  }

  /** The list the in-place sort reorders: the cache itself when no comprehension ran. */
  function CacheAfterQuery(base: seq<CachedItem>, q: Query): seq<CachedItem> {
    if Active(q) == [] then SortDesc(base, PriceKey) else base
  }

  lemma InventoryPageSound(base: seq<CachedItem>, q: Query, limit: int)
    ensures forall x :: x in InventoryPage(base, q, limit) ==> x in base && Matches(q, x)
    ensures SortedDesc(InventoryPage(base, q, limit), PriceKey)
    ensures |InventoryPage(base, q, limit)| == SliceLength(|SelectAll(base, Active(q))|, limit)
  {
    var m := KeepAll(base, Active(q));
    KeepAllIsSelect(base, Active(q));
    SelectMembers(base, Active(q));
    SortDescProperties(m, PriceKey);
    var sorted := SortDesc(m, PriceKey);
    forall x | x in InventoryPage(base, q, limit) ensures x in base && Matches(q, x) {
      assert x in multiset(sorted);
    }
  }

  /** The page is the top of the matches: a matching record left off it is
      priced no higher than anything on it. */
  lemma InventoryPageTop(base: seq<CachedItem>, q: Query, limit: int, x: CachedItem)
    requires x in base && Matches(q, x)
    requires x !in InventoryPage(base, q, limit)
    ensures forall y :: y in InventoryPage(base, q, limit) ==> y.price >= x.price
  {
    var m := KeepAll(base, Active(q));
    KeepAllIsSelect(base, Active(q));
    SelectMembers(base, Active(q));
    SortDescProperties(m, PriceKey);
    var sorted := SortDesc(m, PriceKey);
    assert x in multiset(sorted);
    PrefixDominates(sorted, PriceKey, SliceLength(|sorted|, limit), x);
  }

  /** The in-place sort only reorders the cache. */
  lemma CacheAfterQueryPermutes(base: seq<CachedItem>, q: Query)
    ensures multiset(CacheAfterQuery(base, q)) == multiset(base)
    ensures Active(q) != [] ==> CacheAfterQuery(base, q) == base
  {
    SortDescPermutation(base, PriceKey);
  }

  // ---------------------------------------------------------------------------
  // Filter options

  /** The truthy values one field takes over a cache. */
  function PresentValues<E>(vals: set<E>, f: E -> Option<string>): (r: set<string>)
    ensures forall v :: v in r <==> v != "" && exists e :: e in vals && f(e) == Some(v)
  {
    set e | e in vals && Truthy(f(e)) :: f(e).value
  }

  /** The filter-options response: sorted distinct truthy values, conditions fixed. */
  function FilterOptionsOf(dims: Dims): (r: FilterOptions)
    ensures StrictlySorted(r.rvTypes) && StrictlySorted(r.manufacturers)
    ensures StrictlySorted(r.states) && StrictlySorted(r.regions)
    ensures StrictlySorted(r.cities) && StrictlySorted(r.dealerGroups)
    ensures forall v :: v in r.rvTypes <==>
      v != "" && exists p :: p in dims.products.Values && p.rvType == Some(v)
    ensures forall v :: v in r.manufacturers <==>
      v != "" && exists p :: p in dims.products.Values && p.manufacturer == Some(v)
    ensures forall v :: v in r.states <==>
      v != "" && exists d :: d in dims.dealers.Values && d.state == Some(v)
    ensures forall v :: v in r.regions <==>
      v != "" && exists d :: d in dims.dealers.Values && d.region == Some(v)
    ensures forall v :: v in r.cities <==>
      v != "" && exists d :: d in dims.dealers.Values && d.city == Some(v)
    ensures forall v :: v in r.dealerGroups <==>
      v != "" && exists d :: d in dims.dealers.Values && d.dealerGroup == Some(v)
    ensures r.conditions == ["NEW", "USED"]
  {
    var products := dims.products.Values;
    var dealers := dims.dealers.Values;
    FilterOptions(
      SortedList(PresentValues(products, (p: ProductEntry) => p.rvType)),
      SortedList(PresentValues(dealers, (d: DealerEntry) => d.state)),
      SortedList(PresentValues(dealers, (d: DealerEntry) => d.region)),
      SortedList(PresentValues(dealers, (d: DealerEntry) => d.city)),
      ["NEW", "USED"],
      SortedList(PresentValues(dealers, (d: DealerEntry) => d.dealerGroup)),
      SortedList(PresentValues(products, (p: ProductEntry) => p.manufacturer)))
  }

  /** list_dealers: sorted distinct truthy dealership names. */
  function DealerNames(dims: Dims): (r: seq<string>)
    ensures StrictlySorted(r)
    ensures forall v :: v in r <==>
      v != "" && exists d :: d in dims.dealers.Values && d.dealership == Some(v)
  {
    SortedList(PresentValues(dims.dealers.Values, (d: DealerEntry) => d.dealership))
  }

  // ---------------------------------------------------------------------------
  // Fetching dimension rows for given keys, in batches

  /** `keys[i:i + 100]` for i in range(0, len(keys), 100). */
  function Batches(keys: seq<int>): seq<seq<int>>
    decreases |keys|
  {
    if keys == [] then []
    else if |keys| <= BatchSize then [keys]
    else [keys[..BatchSize]] + Batches(keys[BatchSize..])
  }

  function Flatten(bs: seq<seq<int>>): seq<int> {
    if bs == [] then [] else bs[0] + Flatten(bs[1..])
  }

  /** Every key is sent exactly once, in batches of 1 to 100 keys, as few as possible. */
  lemma {:induction false} BatchesCover(keys: seq<int>)
    ensures Flatten(Batches(keys)) == keys
    ensures forall k :: 0 <= k < |Batches(keys)| ==> 0 < |Batches(keys)[k]| <= BatchSize
    ensures |Batches(keys)| == (|keys| + BatchSize - 1) / BatchSize
    decreases |keys|
  {
    if |keys| > BatchSize {
      var rest := keys[BatchSize..];
      BatchesCover(rest);
      assert keys[..BatchSize] + rest == keys;
      assert Batches(keys)[1..] == Batches(rest);
      assert (|keys| + BatchSize - 1) / BatchSize == (|rest| + BatchSize - 1) / BatchSize + 1;
    }
  }

  /** The rows the batch queries return, in the order they are merged. */
  function Fetched<V>(bs: seq<seq<int>>, fetch: seq<int> -> seq<(int, V)>): seq<(int, V)> {
    if bs == [] then [] else Fetched(bs[..|bs| - 1], fetch) + fetch(bs[|bs| - 1])
  }

  lemma KeyedBySnoc<V>(before: seq<(int, V)>, rows: seq<(int, V)>, j: nat)
    requires j < |rows|
    ensures KeyedBy(before + rows[..j + 1]) == KeyedBy(before + rows[..j])[rows[j].0 := rows[j].1]
  {
    assert (before + rows[..j + 1])[..|before| + j] == before + rows[..j];
  }

  lemma FetchedSnoc<V>(bs: seq<seq<int>>, b: seq<int>, fetch: seq<int> -> seq<(int, V)>)
    ensures Fetched(bs + [b], fetch) == Fetched(bs, fetch) + fetch(b)
  {
    assert (bs + [b])[..|bs|] == bs;
  }

  /** The batch at offset i (a multiple of the batch size) is followed by the batches from hi on. */
  lemma BatchesStep(unique: seq<int>, i: nat, hi: nat)
    requires i < |unique| && hi == if i + BatchSize < |unique| then i + BatchSize else |unique|
    ensures Batches(unique[i..]) == [unique[i..hi]] + Batches(unique[hi..])
  {
    if |unique[i..]| > BatchSize {
      assert unique[i..][..BatchSize] == unique[i..hi];
      assert unique[i..][BatchSize..] == unique[hi..];
    } else {
      assert unique[i..] == unique[i..hi];
      assert unique[hi..] == [];
    }
  }

  /** `for item in rows: results[item.key] = item`: later rows overwrite earlier ones. */
  method MergeRows<V>(results0: map<int, V>, rows: seq<(int, V)>, ghost before: seq<(int, V)>) returns (results: map<int, V>)
    requires results0 == KeyedBy(before)
    ensures results == KeyedBy(before + rows)
  {
    results := results0;
    assert before + rows[..0] == before;
    var j := 0;
    while j < |rows|
      invariant 0 <= j <= |rows|
      invariant results == KeyedBy(before + rows[..j])
    {
      KeyedBySnoc(before, rows, j);
      results := results[rows[j].0 := rows[j].1];
      j := j + 1;
    }
    assert rows[..j] == rows;
  }

  /** fetch_dimension_data_for_skeys. `fetch` stands for one batch query: the
      rows (key, fields) the endpoint returns for a list of keys. `sent` is
      the list of batches queried. */
  method FetchDimension<V>(skeys: seq<int>, fetch: seq<int> -> seq<(int, V)>)
    returns (results: map<int, V>, sent: seq<seq<int>>)
    ensures sent == Batches(Dedup(skeys))
    ensures results == KeyedBy(Fetched(sent, fetch))
    ensures skeys == [] ==> results == map[] && sent == []
  {
    results := map[];
    sent := [];
    if skeys == [] {
      return;
    }
    var unique := Dedup(skeys);
    var i := 0;
    ghost var done := 0;
    while i < |unique|
      invariant done <= |unique| && sent + Batches(unique[done..]) == Batches(unique)
      invariant done < |unique| ==> i == done && i % BatchSize == 0
      invariant done == |unique| ==> i >= |unique|
      invariant results == KeyedBy(Fetched(sent, fetch))
      decreases |unique| - i
    {
      var hi := if i + BatchSize < |unique| then i + BatchSize else |unique|;
      var batch := unique[i..hi];
      var rows := fetch(batch);
      results := MergeRows(results, rows, Fetched(sent, fetch));
      BatchesStep(unique, i, hi);
      FetchedSnoc(sent, batch, fetch);
      ShiftFirst(sent, batch, Batches(unique[hi..]));
      sent := sent + [batch];
      i := i + BatchSize;
      done := hi;
    }
    assert unique[done..] == [];
    assert sent + [] == sent;
  }

  lemma ShiftFirst<T>(a: seq<T>, x: T, rest: seq<T>)
    ensures a + ([x] + rest) == a + [x] + rest
  {
  }

  // ---------------------------------------------------------------------------
  // The inventory cache after load_inventory_cache

  /** The cache if present, else the join of the fetched items with the
      dimension caches (built first if they are not loaded yet). */
  function InventoryAfterLoad(inventory: Option<seq<CachedItem>>, loaded: bool, dims: Dims, up: Upstream): seq<CachedItem> {
    if inventory.Some? then inventory.value
    else JoinAll(if loaded then dims else IndexDims(up), up.inventory)
  }
}
