/** Response shapes both backends fill: AggregatedSummaryResponse, its
    AggregationItem buckets, an inventory listing and FilterOptionsResponse. */
module Responses {
  import opened Wrappers

  /** A Python float that may be NaN (a pandas mean, min or max over only nulls). */
  datatype Float = Finite(value: real) | NaN

  /** One `by_*` entry. `avgDaysOnLot` is present only where the producer adds it. */
  datatype Bucket = Bucket(
    name: string,
    count: int,
    totalValue: int,
    avgPrice: real,
    minPrice: int,
    maxPrice: int,
    avgDaysOnLot: Option<real>)

  datatype Summary = Summary(
    totalUnits: int,
    totalValue: int,
    avgPrice: Float,
    minPrice: Float,
    maxPrice: Float,
    byRvType: seq<Bucket>,
    byDealerGroup: seq<Bucket>,
    byManufacturer: seq<Bucket>,
    byCondition: seq<Bucket>,
    byState: seq<Bucket>,
    byRegion: seq<Bucket>,
    byCity: seq<Bucket>,
    byCounty: seq<Bucket>)

  /** The empty-result contract: every number 0 and every list empty. */
  function EmptySummary(): (r: Summary)
    ensures r.totalUnits == 0 && r.totalValue == 0
    ensures r.avgPrice == Finite(0.0) && r.minPrice == Finite(0.0) && r.maxPrice == Finite(0.0)
    ensures r.byRvType == r.byDealerGroup == r.byManufacturer == r.byCondition == []
    ensures r.byState == r.byRegion == r.byCity == r.byCounty == []
  {
    Summary(0, 0, Finite(0.0), Finite(0.0), Finite(0.0), [], [], [], [], [], [], [], [])
  }

  /** One inventory listing (the fields msrp, first_image, sleeps, length,
      weight and vin are always None in both backends and are not carried). */
  datatype Listing = Listing(
    stockNumber: Option<string>,
    title: Option<string>,
    year: Option<int>,
    make: Option<string>,
    model: Option<string>,
    floorplan: Option<string>,
    rvClass: Option<string>,
    condition: Option<string>,
    salePrice: Option<int>,
    location: Option<string>,
    dealerSource: Option<string>,
    dealerGroup: Option<string>,
    daysOnLot: Option<int>)

  datatype FilterOptions = FilterOptions(
    rvTypes: seq<string>,
    states: seq<string>,
    regions: seq<string>,
    cities: seq<string>,
    conditions: seq<string>,
    dealerGroups: seq<string>,
    manufacturers: seq<string>)
}
