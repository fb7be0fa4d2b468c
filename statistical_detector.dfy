/**
 * Layer 2: statistical detection with IQR envelopes (multiplier 2.0) over
 * groups of at least five shipments, plus two per-buyer trend checks.
 *
 * Each detector is specified by a function that lists its records for one
 * group (...GroupRecords) and a fold of those over the group keys
 * (...Groups, concatenated over the keys); the class methods build the same lists with loops.
 */
module StatisticalDetector {
  import opened Wrappers
  import opened Text
  import opened Numeric
  import opened Shipments
  import opened Anomalies
  import opened Quantiles
  import opened Grouping

  /** Groups with fewer rows than this are skipped. */
  const MinGroupSize: nat := 5

  function ProductKey(s: Shipment): int { s.productId }
  function BuyerKey(s: Shipment): int { s.buyerId }
  function RouteKey(s: Shipment): seq<string> { [s.originCountry, s.destinationCountry] }
  function LaneKey(s: Shipment): seq<string> { [s.originCountry, s.destinationCountry, s.containerType] }
  function ShipmentId(s: Shipment): int { s.id }
  function UnitPrice(s: Shipment): real { s.unitPrice }
  function TransitDays(s: Shipment): real { s.daysInTransit as real }
  function Freight(s: Shipment): real { s.freightCost }
  function MonthOf(s: Shipment): int { MonthIndex(s.shipmentDate) }

  /** The envelope of one column of a group. */
  function GroupBounds(g: seq<Shipment>, column: Shipment -> real): Bounds
    requires |g| > 0
  {
    IqrBounds(Column(g, column), DefaultMultiplier)
  }

  // ---------------------------------------------------------------------
  // 1. Price outliers, per product (keys in first-appearance order)
  // ---------------------------------------------------------------------

  /** (unit - standard) / standard * 100, or 0 when the standard price is not positive. */
  function DeviationPercent(unitPrice: real, standardPrice: real): real {
    if standardPrice > 0.0 then (unitPrice - standardPrice) / standardPrice * 100.0 else 0.0
  }

  function PriceRecord(s: Shipment, p: Product, b: Bounds, n: nat): Anomaly {
    var dev := DeviationPercent(s.unitPrice, p.standardPrice);
    RowAnomaly(s.id, PriceOutlier, 2, if Abs(dev) > 50.0 then High else Medium,
               PriceOutlierEvidence(s.productId, p.name, s.unitPrice, p.standardPrice, dev, b, n),
               Some(s.quantity as real * (s.unitPrice - p.standardPrice)))
  }

  /** The records for the rows of g whose unit price lies outside b, in row order. */
  function PriceOutliers(g: seq<Shipment>, p: Product, b: Bounds, n: nat): seq<Anomaly> {
    if g == [] then []
    else
      var s := g[|g| - 1];
      PriceOutliers(g[..|g| - 1], p, b, n) + (if IsOutlier(s.unitPrice, b) then [PriceRecord(s, p, b, n)] else [])
  }

  function PriceGroupRecords(df: seq<Shipment>, catalog: seq<Product>, productId: int): seq<Anomaly> {
    var g := Where(df, ProductKey, productId);
    if |g| < MinGroupSize then []
    else
      match FindProduct(catalog, productId)
      case None => []
      case Some(p) => PriceOutliers(g, p, GroupBounds(g, UnitPrice), |g|)
  }

  /** The per-group records as a function of the group key. */
  function PriceGroups(df: seq<Shipment>, catalog: seq<Product>): int -> seq<Anomaly> {
    k => PriceGroupRecords(df, catalog, k)
  }

  function PriceRecords(df: seq<Shipment>, catalog: seq<Product>): seq<Anomaly> {
    ConcatMap(Distinct(Column(df, ProductKey)), PriceGroups(df, catalog))
  }


  // ---------------------------------------------------------------------
  // 2. Transit time outliers, per (origin, destination) in sorted order
  // ---------------------------------------------------------------------

  /** The route table's average for the route, or Q3 of the group when the route is unknown. */
  function ExpectedTransit(routes: seq<Route>, origin: string, destination: string, b: Bounds): real {
    match FindRoute(routes, origin, destination)
    case Some(r) => r.avgTransitDays as real
    case None => b.q3
  }

  function TransitRecord(s: Shipment, expected: real, b: Bounds, n: nat): Anomaly {
    var delay := s.daysInTransit as real - expected;
    RowAnomaly(s.id, TransitTimeOutlier, 2, if delay > 20.0 then Critical else Medium,
               TransitEvidence(s.originCountry, s.destinationCountry, s.daysInTransit, expected, delay,
                               s.containerType, b, n),
               Some(delay * 10.0))
  }

  function TransitOutliers(g: seq<Shipment>, expected: real, b: Bounds, n: nat): seq<Anomaly> {
    if g == [] then []
    else
      var s := g[|g| - 1];
      TransitOutliers(g[..|g| - 1], expected, b, n)
        + (if IsOutlier(TransitDays(s), b) then [TransitRecord(s, expected, b, n)] else [])
  }

  /** The route's origin and destination are those of any row of its group. */
  function TransitGroupRecords(df: seq<Shipment>, routes: seq<Route>, key: seq<string>): seq<Anomaly> {
    var g := Where(df, RouteKey, key);
    if |g| < MinGroupSize then []
    else
      var b := GroupBounds(g, TransitDays);
      TransitOutliers(g, ExpectedTransit(routes, g[0].originCountry, g[0].destinationCountry, b), b, |g|)
  }

  /** The per-group records as a function of the group key. */
  function TransitGroups(df: seq<Shipment>, routes: seq<Route>): seq<string> -> seq<Anomaly> {
    k => TransitGroupRecords(df, routes, k)
  }

  function TransitRecords(df: seq<Shipment>, routes: seq<Route>): seq<Anomaly> {
    ConcatMap(GroupKeys(df, RouteKey), TransitGroups(df, routes))
  }


  /** Every route key is an (origin, destination) pair. */
  lemma RouteKeyIsPair(df: seq<Shipment>, k: seq<string>)
    requires k in GroupKeys(df, RouteKey)
    ensures |k| == 2
  {
    var i :| 0 <= i < |df| && RouteKey(df[i]) == k;
  }

  // ---------------------------------------------------------------------
  // 3. Freight cost outliers, per (origin, destination, container) in sorted order
  // ---------------------------------------------------------------------

  /** Outside the envelope, above 1.5 x Q3 and above 500. */
  predicate FreightFlag(s: Shipment, b: Bounds) {
    IsOutlier(s.freightCost, b) && !(s.freightCost <= b.q3 * 1.5 || s.freightCost <= 500.0)
  }

  function FreightRecord(s: Shipment, b: Bounds, n: nat): Anomaly {
    var excess := s.freightCost - b.q3;
    RowAnomaly(s.id, FreightCostOutlier, 2, if excess > 500.0 then High else Medium,
               FreightEvidence(s.originCountry, s.destinationCountry, s.containerType, s.freightCost,
                               b.q3, excess, b, n),
               Some(excess))
  }

  function FreightOutliers(g: seq<Shipment>, b: Bounds, n: nat): seq<Anomaly> {
    if g == [] then []
    else
      var s := g[|g| - 1];
      FreightOutliers(g[..|g| - 1], b, n) + (if FreightFlag(s, b) then [FreightRecord(s, b, n)] else [])
  }

  function FreightGroupRecords(df: seq<Shipment>, key: seq<string>): seq<Anomaly> {
    var g := Where(df, LaneKey, key);
    if |g| < MinGroupSize then []
    else
      var b := GroupBounds(g, Freight);
      if b.q3 == 0.0 then [] else FreightOutliers(g, b, |g|)
  }

  /** The per-group records as a function of the group key. */
  function FreightGroups(df: seq<Shipment>): seq<string> -> seq<Anomaly> {
    k => FreightGroupRecords(df, k)
  }

  function FreightRecords(df: seq<Shipment>): seq<Anomaly> {
    ConcatMap(GroupKeys(df, LaneKey), FreightGroups(df))
  }


  // ---------------------------------------------------------------------
  // 4. Payment behaviour, per buyer (first-appearance order)
  // ---------------------------------------------------------------------

  function DateOrder(a: Shipment, b: Shipment): bool {
    DateLe(a.shipmentDate, b.shipmentDate)
  }

  lemma DateOrderTotal()
    ensures TotalPreorder(DateOrder)
  {
  }

  /** A buyer's shipments ordered by shipment date. */
  function BuyerHistory(df: seq<Shipment>, buyerId: int): (r: seq<Shipment>)
    ensures SortedBy(r, DateOrder) && multiset(r) == multiset(Where(df, BuyerKey, buyerId))
  {
    DateOrderTotal();
    SortBy(Where(df, BuyerKey, buyerId), DateOrder)
  }

  /** days_to_payment.dropna(): the recorded payment delays, in row order. */
  function PaymentDays(g: seq<Shipment>): (r: seq<int>)
    ensures |r| <= |g|
    ensures forall d :: d in r <==> exists i :: 0 <= i < |g| && g[i].daysToPayment == Some(d)
  {
    if g == [] then []
    else
      var init := g[..|g| - 1];
      var s := g[|g| - 1];
      assert forall i :: 0 <= i < |init| ==> init[i] == g[i];
      PaymentDays(init) + (match s.daysToPayment case Some(d) => [d] case None => [])
  }

  /** dropna() keeps row order: the delays of two stretches of rows, one after the other. */
  lemma {:induction false} PaymentDaysAppend(a: seq<Shipment>, b: seq<Shipment>)
    ensures PaymentDays(a + b) == PaymentDays(a) + PaymentDays(b)
  {
    if b == [] {
      assert a + b == a;
    } else {
      var init := b[..|b| - 1];
      assert (a + b)[..|a + b| - 1] == a + init;
      PaymentDaysAppend(a, init);
    }
  }

  function AsReals(xs: seq<int>): (r: seq<real>)
    ensures |r| == |xs| && forall i :: 0 <= i < |xs| ==> r[i] == xs[i] as real
  {
    if xs == [] then [] else AsReals(xs[..|xs| - 1]) + [xs[|xs| - 1] as real]
  }

  /** The buyer's name, or "Buyer <id>" when the buyer table lacks the id. */
  function BuyerName(buyers: seq<Buyer>, buyerId: int): string {
    match FindBuyer(buyers, buyerId)
    case Some(b) => b.name
    case None => "Buyer " + IntString(buyerId)
  }

  function PaymentRecord(buyers: seq<Buyer>, buyerId: int, history: seq<Shipment>,
                         oldPayments: seq<int>, recentPayments: seq<int>, oldAvg: real, recentAvg: real): Anomaly
    requires |history| >= 3
  {
    var deterioration := recentAvg - oldAvg;
    var expected := match FindBuyer(buyers, buyerId) case Some(b) => b.avgPaymentDays case None => oldAvg;
    Anomaly(None, Some(buyerId), Column(history[|history| - 3..], ShipmentId), PaymentBehaviorDeterioration, 2, Medium,
            PaymentTrendEvidence(buyerId, BuyerName(buyers, buyerId), oldAvg, recentAvg, deterioration,
                                 recentPayments, expected, |oldPayments|, |recentPayments|),
            Some(deterioration * 10000.0))
  }

  /**
   * Compare the mean of the last three recorded payment delays with the mean
   * of the earlier ones; flag when the recent mean is more than 5 days
   * later.  With exactly three recorded delays the earlier mean is NaN and
   * the comparison is false.
   */
  function PaymentGroupRecords(df: seq<Shipment>, buyers: seq<Buyer>, buyerId: int): seq<Anomaly> {
    PaymentCheck(buyers, buyerId, BuyerHistory(df, buyerId))
  }

  /** The payment check on one buyer's date-ordered history. */
  function PaymentCheck(buyers: seq<Buyer>, buyerId: int, history: seq<Shipment>): seq<Anomaly> {
    if |history| < MinGroupSize then []
    else
      var payments := PaymentDays(history);
      if |payments| < 3 then []
      else
        var oldPayments := payments[..|payments| - 3];
        var recentPayments := payments[|payments| - 3..];
        var oldAvg := Mean(AsReals(oldPayments));
        var recentAvg := Mean(AsReals(recentPayments)).value;
        if oldAvg.None? || !(recentAvg - oldAvg.value > 5.0) then []
        else [PaymentRecord(buyers, buyerId, history, oldPayments, recentPayments, oldAvg.value, recentAvg)]
  }

  /** The per-group records as a function of the group key. */
  function PaymentGroups(df: seq<Shipment>, buyers: seq<Buyer>): int -> seq<Anomaly> {
    k => PaymentGroupRecords(df, buyers, k)
  }

  function PaymentRecords(df: seq<Shipment>, buyers: seq<Buyer>): seq<Anomaly> {
    ConcatMap(Distinct(Column(df, BuyerKey)), PaymentGroups(df, buyers))
  }


  // ---------------------------------------------------------------------
  // 5. Volume spikes, per buyer (first-appearance order)
  // ---------------------------------------------------------------------

  /** The calendar months of a group's shipments, ascending, each once. */
  function Months(g: seq<Shipment>): (r: seq<int>)
    ensures SortedBy(r, IntLe) && NoDuplicates(r) && |r| <= |g|
    ensures forall m :: m in r <==> exists i :: 0 <= i < |g| && MonthOf(g[i]) == m
  {
    IntOrder();
    var d := Distinct(Column(g, MonthOf));
    var r := SortBy(d, IntLe);
    forall m ensures m in r <==> m in d {
      assert m in r <==> m in multiset(r);
    }
    forall m ensures m in d <==> exists i :: 0 <= i < |g| && MonthOf(g[i]) == m {
      if m in d {
        var i :| 0 <= i < |g| && Column(g, MonthOf)[i] == m;
      }
    }
    SortedDistinct(r, d);
    r
  }

  /** groupby('month')['quantity'].sum() for one month. */
  function MonthVolume(g: seq<Shipment>, month: int): int {
    if g == [] then 0
    else
      var s := g[|g| - 1];
      MonthVolume(g[..|g| - 1], month) + (if MonthOf(s) == month then s.quantity else 0)
  }

  function Volumes(g: seq<Shipment>, months: seq<int>): (r: seq<real>)
    ensures |r| == |months| && forall i :: 0 <= i < |months| ==> r[i] == MonthVolume(g, months[i]) as real
  {
    if months == [] then []
    else Volumes(g, months[..|months| - 1]) + [MonthVolume(g, months[|months| - 1]) as real]
  }

  function VolumeRecord(buyers: seq<Buyer>, buyerId: int, g: seq<Shipment>, months: seq<int>,
                        avgPrevious: real, latest: real): Anomaly
    requires |months| > 0
  {
    var latestMonth := months[|months| - 1];
    var credit := match FindBuyer(buyers, buyerId)
                  case Some(b) => if b.creditLimit != 0.0 then Some(b.creditLimit) else None
                  case None => None;
    Anomaly(None, Some(buyerId), Column(Where(g, MonthOf, latestMonth), ShipmentId), VolumeSpike, 2, Medium,
            VolumeEvidence(buyerId, BuyerName(buyers, buyerId), avgPrevious, latest,
                           if avgPrevious == 0.0 then None else Some(latest / avgPrevious),
                           credit, |months|),
            None)
  }

  /** Flag the buyer when the latest month's volume exceeds twice the mean of the earlier months. */
  function VolumeGroupRecords(df: seq<Shipment>, buyers: seq<Buyer>, buyerId: int): seq<Anomaly> {
    VolumeCheck(buyers, buyerId, Where(df, BuyerKey, buyerId))
  }

  /** The volume check on one buyer's shipments. */
  function VolumeCheck(buyers: seq<Buyer>, buyerId: int, g: seq<Shipment>): seq<Anomaly> {
    var months := Months(g);
    if |months| < 3 then []
    else
      var volumes := Volumes(g, months);
      var avgPrevious := Mean(volumes[..|volumes| - 1]).value;
      var latest := volumes[|volumes| - 1];
      if latest > avgPrevious * 2.0 then [VolumeRecord(buyers, buyerId, g, months, avgPrevious, latest)] else []
  }

  /** The per-group records as a function of the group key. */
  function VolumeGroups(df: seq<Shipment>, buyers: seq<Buyer>): int -> seq<Anomaly> {
    k => VolumeGroupRecords(df, buyers, k)
  }

  function VolumeRecords(df: seq<Shipment>, buyers: seq<Buyer>): seq<Anomaly> {
    ConcatMap(Distinct(Column(df, BuyerKey)), VolumeGroups(df, buyers))
  }


  /** run_all_detections: the five detectors in order. */
  function StatRecords(df: seq<Shipment>, catalog: seq<Product>, routes: seq<Route>, buyers: seq<Buyer>): seq<Anomaly> {
    PriceRecords(df, catalog) + TransitRecords(df, routes) + FreightRecords(df)
      + PaymentRecords(df, buyers) + VolumeRecords(df, buyers)
  }

  // ---------------------------------------------------------------------
  // The detector object
  // ---------------------------------------------------------------------

  class StatisticalDetector {
    const df: seq<Shipment>
    const productCatalog: seq<Product>
    const routes: seq<Route>
    const buyers: seq<Buyer>
    var anomalies: seq<Anomaly>

    constructor (shipments: seq<Shipment>, catalog: seq<Product>, routeTable: seq<Route>, buyerTable: seq<Buyer>)
      ensures df == shipments && productCatalog == catalog && routes == routeTable && buyers == buyerTable
      ensures anomalies == []
    {
      df := shipments;
      productCatalog := catalog;
      routes := routeTable;
      buyers := buyerTable;
      anomalies := [];
    }

    /** One product's group: skip small groups and unknown products, then append its outliers. */
    method ScanProduct(productId: int)
      modifies this
      ensures anomalies == old(anomalies) + PriceGroupRecords(df, productCatalog, productId)
    {
      var group := Where(df, ProductKey, productId);
      if |group| < MinGroupSize {
        return;
      }
      var bounds := GroupBounds(group, UnitPrice);
      var product := FindProduct(productCatalog, productId);
      if product.None? {
        return;
      }
      AppendPriceOutliers(group, product.value, bounds, |group|);
    }

    method AppendPriceOutliers(group: seq<Shipment>, product: Product, bounds: Bounds, n: nat)
      modifies this
      ensures anomalies == old(anomalies) + PriceOutliers(group, product, bounds, n)
    {
      for j := 0 to |group|
        invariant anomalies == old(anomalies) + PriceOutliers(group[..j], product, bounds, n)
      {
        assert group[..j + 1][..j] == group[..j];
        var row := group[j];
        if IsOutlier(row.unitPrice, bounds) {
          anomalies := anomalies + [PriceRecord(row, product, bounds, n)];
        }
      }
      assert group[..|group|] == group;
    }

    method DetectPriceOutliers()
      modifies this
      ensures anomalies == old(anomalies) + PriceRecords(df, productCatalog)
    {
      var keys := Distinct(Column(df, ProductKey));
      for i := 0 to |keys|
        invariant anomalies == old(anomalies) + ConcatMap(keys[..i], PriceGroups(df, productCatalog))
      {
        ConcatMapStep(keys, PriceGroups(df, productCatalog), i);
        ghost var done := ConcatMap(keys[..i], PriceGroups(df, productCatalog));
        ScanProduct(keys[i]);
        AppendAssoc(old(anomalies), done, PriceGroupRecords(df, productCatalog, keys[i]));
      }
      assert keys[..|keys|] == keys;
    }

    /** One route's group: skip small groups, then append the rows outside the transit-time envelope. */
    method ScanRoute(key: seq<string>)
      requires |key| == 2
      modifies this
      ensures anomalies == old(anomalies) + TransitGroupRecords(df, routes, key)
    {
      var origin, destination := key[0], key[1];
      var group := Where(df, RouteKey, key);
      if |group| < MinGroupSize {
        return;
      }
      assert group[0] in group && RouteKey(group[0]) == key;
      var bounds := GroupBounds(group, TransitDays);
      var route := FindRoute(routes, origin, destination);
      var expected := if route.Some? then route.value.avgTransitDays as real else bounds.q3;
      AppendTransitOutliers(group, expected, bounds, |group|);
    }

    method AppendTransitOutliers(group: seq<Shipment>, expected: real, bounds: Bounds, n: nat)
      modifies this
      ensures anomalies == old(anomalies) + TransitOutliers(group, expected, bounds, n)
    {
      for j := 0 to |group|
        invariant anomalies == old(anomalies) + TransitOutliers(group[..j], expected, bounds, n)
      {
        assert group[..j + 1][..j] == group[..j];
        var row := group[j];
        if IsOutlier(row.daysInTransit as real, bounds) {
          anomalies := anomalies + [TransitRecord(row, expected, bounds, n)];
        }
      }
      assert group[..|group|] == group;
    }

    method DetectTransitTimeOutliers()
      modifies this
      ensures anomalies == old(anomalies) + TransitRecords(df, routes)
    {
      var keys := GroupKeys(df, RouteKey);
      for i := 0 to |keys|
        invariant anomalies == old(anomalies) + ConcatMap(keys[..i], TransitGroups(df, routes))
      {
        ConcatMapStep(keys, TransitGroups(df, routes), i);
        ghost var done := ConcatMap(keys[..i], TransitGroups(df, routes));
        RouteKeyIsPair(df, keys[i]);
        ScanRoute(keys[i]);
        AppendAssoc(old(anomalies), done, TransitGroupRecords(df, routes, keys[i]));
      }
      assert keys[..|keys|] == keys;
    }

    /** One (route, container) group: skip small groups and a zero Q3, then append the gated outliers. */
    method ScanLane(key: seq<string>)
      modifies this
      ensures anomalies == old(anomalies) + FreightGroupRecords(df, key)
    {
      var group := Where(df, LaneKey, key);
      if |group| < MinGroupSize {
        return;
      }
      var bounds := GroupBounds(group, Freight);
      if bounds.q3 == 0.0 {
        return;
      }
      AppendFreightOutliers(group, bounds, |group|);
    }

    method AppendFreightOutliers(group: seq<Shipment>, bounds: Bounds, n: nat)
      modifies this
      ensures anomalies == old(anomalies) + FreightOutliers(group, bounds, n)
    {
      for j := 0 to |group|
        invariant anomalies == old(anomalies) + FreightOutliers(group[..j], bounds, n)
      {
        assert group[..j + 1][..j] == group[..j];
        var row := group[j];
        if !IsOutlier(row.freightCost, bounds) {
          continue;
        }
        if row.freightCost <= bounds.q3 * 1.5 || row.freightCost <= 500.0 {
          continue;
        }
        anomalies := anomalies + [FreightRecord(row, bounds, n)];
      }
      assert group[..|group|] == group;
    }

    method DetectFreightOutliers()
      modifies this
      ensures anomalies == old(anomalies) + FreightRecords(df)
    {
      var keys := GroupKeys(df, LaneKey);
      for i := 0 to |keys|
        invariant anomalies == old(anomalies) + ConcatMap(keys[..i], FreightGroups(df))
      {
        ConcatMapStep(keys, FreightGroups(df), i);
        ghost var done := ConcatMap(keys[..i], FreightGroups(df));
        ScanLane(keys[i]);
        AppendAssoc(old(anomalies), done, FreightGroupRecords(df, keys[i]));
      }
      assert keys[..|keys|] == keys;
    }

    /** One buyer's payment history, compared recent against earlier. */
    method ScanBuyerPayments(buyerId: int)
      modifies this
      ensures anomalies == old(anomalies) + PaymentGroupRecords(df, buyers, buyerId)
    {
      var history := BuyerHistory(df, buyerId);
      if |history| < MinGroupSize {
        return;
      }
      var payments := PaymentDays(history);
      if |payments| < 3 {
        return;
      }
      var oldPayments := payments[..|payments| - 3];
      var recentPayments := payments[|payments| - 3..];
      var oldAvg := Mean(AsReals(oldPayments));
      var recentAvg := Mean(AsReals(recentPayments)).value;
      if oldAvg.None? {
        return;
      }
      var deterioration := recentAvg - oldAvg.value;
      if deterioration > 5.0 {
        anomalies := anomalies + [PaymentRecord(buyers, buyerId, history, oldPayments, recentPayments, oldAvg.value, recentAvg)];
      }
    }

    method DetectPaymentBehaviorChange()
      modifies this
      ensures anomalies == old(anomalies) + PaymentRecords(df, buyers)
    {
      var keys := Distinct(Column(df, BuyerKey));
      for i := 0 to |keys|
        invariant anomalies == old(anomalies) + ConcatMap(keys[..i], PaymentGroups(df, buyers))
      {
        ConcatMapStep(keys, PaymentGroups(df, buyers), i);
        ghost var done := ConcatMap(keys[..i], PaymentGroups(df, buyers));
        ScanBuyerPayments(keys[i]);
        AppendAssoc(old(anomalies), done, PaymentGroupRecords(df, buyers, keys[i]));
      }
      assert keys[..|keys|] == keys;
    }

    /** One buyer's monthly volumes, latest month against the mean of the earlier ones. */
    method ScanBuyerVolume(buyerId: int)
      modifies this
      ensures anomalies == old(anomalies) + VolumeGroupRecords(df, buyers, buyerId)
    {
      var group := Where(df, BuyerKey, buyerId);
      var months := Months(group);
      if |months| < 3 {
        return;
      }
      var volumes := Volumes(group, months);
      var avgPrevious := Mean(volumes[..|volumes| - 1]).value;
      var latest := volumes[|volumes| - 1];
      if latest > avgPrevious * 2.0 {
        anomalies := anomalies + [VolumeRecord(buyers, buyerId, group, months, avgPrevious, latest)];
      }
    }

    method DetectVolumeSpikes()
      modifies this
      ensures anomalies == old(anomalies) + VolumeRecords(df, buyers)
    {
      var keys := Distinct(Column(df, BuyerKey));
      for i := 0 to |keys|
        invariant anomalies == old(anomalies) + ConcatMap(keys[..i], VolumeGroups(df, buyers))
      {
        ConcatMapStep(keys, VolumeGroups(df, buyers), i);
        ghost var done := ConcatMap(keys[..i], VolumeGroups(df, buyers));
        ScanBuyerVolume(keys[i]);
        AppendAssoc(old(anomalies), done, VolumeGroupRecords(df, buyers, keys[i]));
      }
      assert keys[..|keys|] == keys;
    }

    method RunAllDetections() returns (result: seq<Anomaly>)
      modifies this
      ensures anomalies == old(anomalies) + StatRecords(df, productCatalog, routes, buyers)
      ensures result == anomalies
    {
      ghost var a0 := anomalies;
      ghost var price, transit, freight := PriceRecords(df, productCatalog), TransitRecords(df, routes), FreightRecords(df);
      ghost var payment, volume := PaymentRecords(df, buyers), VolumeRecords(df, buyers);
      DetectPriceOutliers();
      DetectTransitTimeOutliers();
      AppendAssoc(a0, price, transit);
      DetectFreightOutliers();
      AppendAssoc(a0, price + transit, freight);
      DetectPaymentBehaviorChange();
      AppendAssoc(a0, price + transit + freight, payment);
      DetectVolumeSpikes();
      AppendAssoc(a0, price + transit + freight + payment, volume);
      result := anomalies;
    }

    function GetSummary(): (r: Summary)
      reads this
      ensures r.total == |anomalies|
      ensures forall s :: Lookup(r.bySeverity, s) == CountSeverity(anomalies, s)
      ensures forall t :: Lookup(r.byType, t) == CountType(anomalies, t)
    {
      Summarize(anomalies)
    }
  }
}
