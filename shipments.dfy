/**
 * The dataset contract shared by the three detection layers: one row per
 * export shipment, plus the product catalog, the route table and the buyer
 * table it refers to.  Money is `real`, day counts and quantities are `int`,
 * and a missing (NaN) days_to_payment cell is `None`.
 */
module Shipments {
  import opened Wrappers

  datatype Incoterm = FOB | CIF | EXW | DDP

  datatype CustomsStatus = Cleared | CustomsPending | Rejected

  datatype PaymentStatus = Received | PaymentPending | Overdue

  /** A calendar date, as the shipment_date column holds it ("YYYY-MM-DD"). */
  datatype Date = Date(year: int, month: int, day: int)

  /** Chronological order of dates; equal to the string order of well-formed "YYYY-MM-DD" text. */
  predicate DateLe(a: Date, b: Date) {
    a.year < b.year || (a.year == b.year && (a.month < b.month || (a.month == b.month && a.day <= b.day)))
  }

  /** The calendar month a date falls in, as one integer (a monthly period). */
  function MonthIndex(d: Date): int {
    d.year * 12 + (d.month - 1)
  }

  datatype Shipment = Shipment(
    id: int,
    buyerId: int,
    productId: int,
    incoterm: Incoterm,
    quantity: int,
    unitPrice: real,
    totalFob: real,
    freightCost: real,
    insuranceAmount: real,
    drawbackAmount: real,
    hsCode: string,
    originCountry: string,
    destinationCountry: string,
    containerType: string,
    daysInTransit: int,
    customsStatus: CustomsStatus,
    paymentStatus: PaymentStatus,
    shipmentDate: Date,
    daysToPayment: Option<int>)

  datatype Product = Product(
    id: int,
    name: string,
    category: string,
    material: string,
    standardPrice: real,
    hsCode: string,
    description: string)

  datatype Route = Route(origin: string, destination: string, avgTransitDays: int)

  datatype Buyer = Buyer(id: int, name: string, creditLimit: real, avgPaymentDays: real)

  /** No two rows share a shipment id. */
  predicate UniqueIds(df: seq<Shipment>) {
    forall i, j :: 0 <= i < j < |df| ==> df[i].id != df[j].id
  }

  /** The first catalog entry with the given id (a filtered frame's first row). */
  function FindProduct(catalog: seq<Product>, id: int): (r: Option<Product>)
    ensures r.None? <==> forall k :: 0 <= k < |catalog| ==> catalog[k].id != id
    ensures r.Some? ==> exists k :: 0 <= k < |catalog| && catalog[k] == r.value && r.value.id == id &&
                          forall j :: 0 <= j < k ==> catalog[j].id != id
  {
    if catalog == [] then None
    else if catalog[0].id == id then Some(catalog[0])
    else
      var r := FindProduct(catalog[1..], id);
      if r.Some? then
        var k :| 0 <= k < |catalog[1..]| && catalog[1..][k] == r.value && r.value.id == id &&
                 forall j :: 0 <= j < k ==> catalog[1..][j].id != id;
        assert catalog[k + 1] == r.value;
        r
      else r
  }

  /** The first route with the given origin and destination. */
  function FindRoute(routes: seq<Route>, origin: string, destination: string): (r: Option<Route>)
    ensures r.None? <==> forall k :: 0 <= k < |routes| ==> !(routes[k].origin == origin && routes[k].destination == destination)
    ensures r.Some? ==> exists k :: 0 <= k < |routes| && routes[k] == r.value &&
                          r.value.origin == origin && r.value.destination == destination &&
                          forall j :: 0 <= j < k ==> !(routes[j].origin == origin && routes[j].destination == destination)
  {
    if routes == [] then None
    else if routes[0].origin == origin && routes[0].destination == destination then Some(routes[0])
    else
      var r := FindRoute(routes[1..], origin, destination);
      if r.Some? then
        var k :| 0 <= k < |routes[1..]| && routes[1..][k] == r.value &&
                 r.value.origin == origin && r.value.destination == destination &&
                 forall j :: 0 <= j < k ==> !(routes[1..][j].origin == origin && routes[1..][j].destination == destination);
        assert routes[k + 1] == r.value;
        r
      else r
  }

  /** The first buyer with the given id. */
  function FindBuyer(buyers: seq<Buyer>, id: int): (r: Option<Buyer>)
    ensures r.None? <==> forall k :: 0 <= k < |buyers| ==> buyers[k].id != id
    ensures r.Some? ==> exists k :: 0 <= k < |buyers| && buyers[k] == r.value && r.value.id == id &&
                          forall j :: 0 <= j < k ==> buyers[j].id != id
  {
    if buyers == [] then None
    else if buyers[0].id == id then Some(buyers[0])
    else
      var r := FindBuyer(buyers[1..], id);
      if r.Some? then
        var k :| 0 <= k < |buyers[1..]| && buyers[1..][k] == r.value && r.value.id == id &&
                 forall j :: 0 <= j < k ==> buyers[1..][j].id != id;
        assert buyers[k + 1] == r.value;
        r
      else r
  }
}
