/**
 * What the statistical layer promises: which rows each detector flags (and
 * that it flags nothing else), the severity and evidence of each record,
 * the two buyer-level checks, and that every record is tagged layer 2.
 */
module StatisticalProperties {
  import opened Wrappers
  import opened Numeric
  import opened Shipments
  import opened Anomalies
  import opened Quantiles
  import opened Grouping
  import opened StatisticalDetector

  // ---------------------------------------------------------------------
  // Price outliers
  // ---------------------------------------------------------------------

  /**
   * A row is a price outlier when its product's group has at least five
   * rows, the product is in the catalog, and its unit price lies strictly
   * outside the group's envelope.
   */
  predicate PriceFlagged(df: seq<Shipment>, catalog: seq<Product>, s: Shipment) {
    var g := Where(df, ProductKey, s.productId);
    |g| >= MinGroupSize && FindProduct(catalog, s.productId).Some?
    && IsOutlier(s.unitPrice, GroupBounds(g, UnitPrice))
  }

  function PriceRecordFor(df: seq<Shipment>, catalog: seq<Product>, s: Shipment): Anomaly
    requires PriceFlagged(df, catalog, s)
  {
    var g := Where(df, ProductKey, s.productId);
    PriceRecord(s, FindProduct(catalog, s.productId).value, GroupBounds(g, UnitPrice), |g|)
  }

  lemma PriceOutliersMembers(g: seq<Shipment>, p: Product, b: Bounds, n: nat, a: Anomaly)
    ensures a in PriceOutliers(g, p, b, n) <==>
            exists j :: 0 <= j < |g| && IsOutlier(g[j].unitPrice, b) && a == PriceRecord(g[j], p, b, n)
  {
    if a in PriceOutliers(g, p, b, n) {
      PriceOutliersSound(g, p, b, n, a);
    }
    if exists j :: 0 <= j < |g| && IsOutlier(g[j].unitPrice, b) && a == PriceRecord(g[j], p, b, n) {
      var j :| 0 <= j < |g| && IsOutlier(g[j].unitPrice, b) && a == PriceRecord(g[j], p, b, n);
      PriceOutliersComplete(g, p, b, n, j);
    }
  }

  lemma {:induction false} PriceOutliersSound(g: seq<Shipment>, p: Product, b: Bounds, n: nat, a: Anomaly)
    requires a in PriceOutliers(g, p, b, n)
    ensures exists j :: 0 <= j < |g| && IsOutlier(g[j].unitPrice, b) && a == PriceRecord(g[j], p, b, n)
  {
    assert g != [];
    var init := g[..|g| - 1];
    if a in PriceOutliers(init, p, b, n) {
      PriceOutliersSound(init, p, b, n, a);
      var j :| 0 <= j < |init| && IsOutlier(init[j].unitPrice, b) && a == PriceRecord(init[j], p, b, n);
      SliceIndex(g, |g| - 1, j);
    } else {
      assert IsOutlier(g[|g| - 1].unitPrice, b) && a == PriceRecord(g[|g| - 1], p, b, n);
    }
  }

  lemma {:induction false} PriceOutliersComplete(g: seq<Shipment>, p: Product, b: Bounds, n: nat, j: int)
    requires 0 <= j < |g| && IsOutlier(g[j].unitPrice, b)
    ensures PriceRecord(g[j], p, b, n) in PriceOutliers(g, p, b, n)
  {
    if j < |g| - 1 {
      var init := g[..|g| - 1];
      SliceIndex(g, |g| - 1, j);
      PriceOutliersComplete(init, p, b, n, j);
    }
  }

  /** A group's records: none for a small group or an unknown product, else one per outlying row. */
  lemma PriceGroupMembers(df: seq<Shipment>, catalog: seq<Product>, k: int, a: Anomaly)
    ensures var g := Where(df, ProductKey, k);
            a in PriceGroups(df, catalog)(k) <==>
            |g| >= MinGroupSize && FindProduct(catalog, k).Some? &&
            exists j :: 0 <= j < |g| && IsOutlier(g[j].unitPrice, GroupBounds(g, UnitPrice))
                        && a == PriceRecord(g[j], FindProduct(catalog, k).value, GroupBounds(g, UnitPrice), |g|)
  {
    var g := Where(df, ProductKey, k);
    assert PriceGroups(df, catalog)(k) == PriceGroupRecords(df, catalog, k);
    if |g| >= MinGroupSize && FindProduct(catalog, k).Some? {
      PriceOutliersMembers(g, FindProduct(catalog, k).value, GroupBounds(g, UnitPrice), |g|, a);
    }
  }

  /** Every price record is the record of a flagged row. */
  lemma PriceRecordsSound(df: seq<Shipment>, catalog: seq<Product>, a: Anomaly)
    requires a in PriceRecords(df, catalog)
    ensures exists i :: 0 <= i < |df| && PriceFlagged(df, catalog, df[i]) && a == PriceRecordFor(df, catalog, df[i])
  {
    var keys := Distinct(Column(df, ProductKey));
    ConcatMapMembers(keys, PriceGroups(df, catalog), a);
    var k :| k in keys && a in PriceGroups(df, catalog)(k);
    PriceGroupMembers(df, catalog, k, a);
    var g := Where(df, ProductKey, k);
    var j :| 0 <= j < |g| && IsOutlier(g[j].unitPrice, GroupBounds(g, UnitPrice))
             && a == PriceRecord(g[j], FindProduct(catalog, k).value, GroupBounds(g, UnitPrice), |g|);
    assert g[j] in g;
    assert g[j] in df && ProductKey(g[j]) == k;
    var i :| 0 <= i < |df| && df[i] == g[j];
    assert df[i].productId == k;
    assert Where(df, ProductKey, df[i].productId) == g;
    assert PriceFlagged(df, catalog, df[i]);
  }

  /** A flagged row's record is among its own product's records. */
  lemma PriceRecordInGroup(df: seq<Shipment>, catalog: seq<Product>, i: int)
    requires 0 <= i < |df| && PriceFlagged(df, catalog, df[i])
    ensures PriceRecordFor(df, catalog, df[i]) in PriceGroups(df, catalog)(df[i].productId)
  {
    var k := df[i].productId;
    RowInItsGroup(df, ProductKey, i);
    var g := Where(df, ProductKey, k);
    var j :| 0 <= j < |g| && g[j] == df[i];
    PriceGroupMembers(df, catalog, k, PriceRecordFor(df, catalog, df[i]));
  }

  /** Every flagged row gets its record. */
  lemma PriceRecordsComplete(df: seq<Shipment>, catalog: seq<Product>, i: int)
    requires 0 <= i < |df| && PriceFlagged(df, catalog, df[i])
    ensures PriceRecordFor(df, catalog, df[i]) in PriceRecords(df, catalog)
  {
    var keys := Distinct(Column(df, ProductKey));
    RowInItsGroup(df, ProductKey, i);
    PriceRecordInGroup(df, catalog, i);
    ConcatMapHas(keys, PriceGroups(df, catalog), df[i].productId, PriceRecordFor(df, catalog, df[i]));
  }

  /** The price detector's records are exactly one per flagged row. */
  lemma PriceRecordsExact(df: seq<Shipment>, catalog: seq<Product>, a: Anomaly)
    ensures a in PriceRecords(df, catalog) <==>
            exists i :: 0 <= i < |df| && PriceFlagged(df, catalog, df[i]) && a == PriceRecordFor(df, catalog, df[i])
  {
    if a in PriceRecords(df, catalog) {
      PriceRecordsSound(df, catalog, a);
    }
    if exists i :: 0 <= i < |df| && PriceFlagged(df, catalog, df[i]) && a == PriceRecordFor(df, catalog, df[i]) {
      var i :| 0 <= i < |df| && PriceFlagged(df, catalog, df[i]) && a == PriceRecordFor(df, catalog, df[i]);
      PriceRecordsComplete(df, catalog, i);
    }
  }

  /**
   * With a positive standard price, |deviation| > 50% means the unit price
   * is above 1.5x or below 0.5x the standard price.
   */
  lemma DeviationBand(unitPrice: real, standardPrice: real)
    requires standardPrice > 0.0
    ensures Abs(DeviationPercent(unitPrice, standardPrice)) > 50.0 <==>
            unitPrice > 1.5 * standardPrice || unitPrice < 0.5 * standardPrice
  {
    var d := unitPrice - standardPrice;
    var r := d / standardPrice;
    DivMul(d, standardPrice);
    assert r * standardPrice == d;
    assert DeviationPercent(unitPrice, standardPrice) == r * 100.0;
    if r > 0.5 {
      MulMonotone(0.5, r, standardPrice);
      assert d >= 0.5 * standardPrice;
    } else if r < -0.5 {
      MulMonotone(r, -0.5, standardPrice);
      assert d <= -0.5 * standardPrice;
    } else {
      MulMonotone(-0.5, r, standardPrice);
      MulMonotone(r, 0.5, standardPrice);
      assert -0.5 * standardPrice <= d <= 0.5 * standardPrice;
    }
  }

  /**
   * A price record is layer 2 and cites its row; it is HIGH exactly when the
   * deviation from the catalog price exceeds 50% (for a positive catalog
   * price: outside [0.5x, 1.5x] of it) and MEDIUM whenever the catalog price
   * is not positive; its impact is quantity x (unit - standard).
   */
  lemma PriceRecordFacts(s: Shipment, p: Product, b: Bounds, n: nat)
    ensures PriceRecord(s, p, b, n).layer == 2 && PriceRecord(s, p, b, n).anomalyType == PriceOutlier
    ensures PriceRecord(s, p, b, n).shipmentId == Some(s.id)
    ensures PriceRecord(s, p, b, n).severity == High <==> Abs(DeviationPercent(s.unitPrice, p.standardPrice)) > 50.0
    ensures PriceRecord(s, p, b, n).severity in {High, Medium}
    ensures p.standardPrice > 0.0 ==>
              (PriceRecord(s, p, b, n).severity == High <==>
               s.unitPrice > 1.5 * p.standardPrice || s.unitPrice < 0.5 * p.standardPrice)
    ensures p.standardPrice <= 0.0 ==> PriceRecord(s, p, b, n).severity == Medium
    ensures PriceRecord(s, p, b, n).impactAmount == Some(s.quantity as real * (s.unitPrice - p.standardPrice))
  {
    if p.standardPrice > 0.0 {
      DeviationBand(s.unitPrice, p.standardPrice);
    }
    var r := PriceRecord(s, p, b, n);
    assert r.impactAmount.Some?;
    assert r.impactAmount.value == s.quantity as real * (s.unitPrice - p.standardPrice);
  }

  // ---------------------------------------------------------------------
  // Transit time outliers
  // ---------------------------------------------------------------------

  /** A row is a transit outlier when its route's group has at least five rows and its days lie outside the envelope. */
  predicate TransitFlagged(df: seq<Shipment>, s: Shipment) {
    var g := Where(df, RouteKey, RouteKey(s));
    |g| >= MinGroupSize && IsOutlier(s.daysInTransit as real, GroupBounds(g, TransitDays))
  }

  function TransitRecordFor(df: seq<Shipment>, routes: seq<Route>, s: Shipment): Anomaly
    requires TransitFlagged(df, s)
  {
    var g := Where(df, RouteKey, RouteKey(s));
    var b := GroupBounds(g, TransitDays);
    TransitRecord(s, ExpectedTransit(routes, s.originCountry, s.destinationCountry, b), b, |g|)
  }

  lemma TransitOutliersMembers(g: seq<Shipment>, expected: real, b: Bounds, n: nat, a: Anomaly)
    ensures a in TransitOutliers(g, expected, b, n) <==>
            exists j :: 0 <= j < |g| && IsOutlier(TransitDays(g[j]), b) && a == TransitRecord(g[j], expected, b, n)
  {
    if a in TransitOutliers(g, expected, b, n) {
      TransitOutliersSound(g, expected, b, n, a);
    }
    if exists j :: 0 <= j < |g| && IsOutlier(TransitDays(g[j]), b) && a == TransitRecord(g[j], expected, b, n) {
      var j :| 0 <= j < |g| && IsOutlier(TransitDays(g[j]), b) && a == TransitRecord(g[j], expected, b, n);
      TransitOutliersComplete(g, expected, b, n, j);
    }
  }

  lemma {:induction false} TransitOutliersSound(g: seq<Shipment>, expected: real, b: Bounds, n: nat, a: Anomaly)
    requires a in TransitOutliers(g, expected, b, n)
    ensures exists j :: 0 <= j < |g| && IsOutlier(TransitDays(g[j]), b) && a == TransitRecord(g[j], expected, b, n)
  {
    assert g != [];
    var init := g[..|g| - 1];
    if a in TransitOutliers(init, expected, b, n) {
      TransitOutliersSound(init, expected, b, n, a);
      var j :| 0 <= j < |init| && IsOutlier(TransitDays(init[j]), b) && a == TransitRecord(init[j], expected, b, n);
      SliceIndex(g, |g| - 1, j);
    } else {
      assert IsOutlier(TransitDays(g[|g| - 1]), b) && a == TransitRecord(g[|g| - 1], expected, b, n);
    }
  }

  lemma {:induction false} TransitOutliersComplete(g: seq<Shipment>, expected: real, b: Bounds, n: nat, j: int)
    requires 0 <= j < |g| && IsOutlier(TransitDays(g[j]), b)
    ensures TransitRecord(g[j], expected, b, n) in TransitOutliers(g, expected, b, n)
  {
    if j < |g| - 1 {
      var init := g[..|g| - 1];
      SliceIndex(g, |g| - 1, j);
      TransitOutliersComplete(init, expected, b, n, j);
    }
  }

  lemma TransitGroupMembers(df: seq<Shipment>, routes: seq<Route>, key: seq<string>, a: Anomaly)
    ensures var g := Where(df, RouteKey, key);
            a in TransitGroups(df, routes)(key) <==>
            |g| >= MinGroupSize &&
            var b := GroupBounds(g, TransitDays);
            exists j :: 0 <= j < |g| && IsOutlier(TransitDays(g[j]), b)
                        && a == TransitRecord(g[j], ExpectedTransit(routes, g[0].originCountry, g[0].destinationCountry, b), b, |g|)
  {
    var g := Where(df, RouteKey, key);
    assert TransitGroups(df, routes)(key) == TransitGroupRecords(df, routes, key);
    if |g| >= MinGroupSize {
      var b := GroupBounds(g, TransitDays);
      TransitOutliersMembers(g, ExpectedTransit(routes, g[0].originCountry, g[0].destinationCountry, b), b, |g|, a);
    }
  }

  /** All rows of a route group share the group's origin and destination. */
  lemma SameRoute(df: seq<Shipment>, key: seq<string>, j: int, s: Shipment)
    requires var g := Where(df, RouteKey, key); 0 <= j < |g| && s in g
    ensures var g := Where(df, RouteKey, key);
            g[j].originCountry == s.originCountry && g[j].destinationCountry == s.destinationCountry
  {
    var g := Where(df, RouteKey, key);
    assert g[j] in g;
    assert RouteKey(g[j]) == key == RouteKey(s);
  }

  lemma TransitRecordsSound(df: seq<Shipment>, routes: seq<Route>, a: Anomaly)
    requires a in TransitRecords(df, routes)
    ensures exists i :: 0 <= i < |df| && TransitFlagged(df, df[i]) && a == TransitRecordFor(df, routes, df[i])
  {
    var keys := GroupKeys(df, RouteKey);
    ConcatMapMembers(keys, TransitGroups(df, routes), a);
    var k :| k in keys && a in TransitGroups(df, routes)(k);
    TransitGroupMembers(df, routes, k, a);
    var g := Where(df, RouteKey, k);
    var b := GroupBounds(g, TransitDays);
    var j :| 0 <= j < |g| && IsOutlier(TransitDays(g[j]), b)
             && a == TransitRecord(g[j], ExpectedTransit(routes, g[0].originCountry, g[0].destinationCountry, b), b, |g|);
    assert g[j] in g;
    assert g[j] in df && RouteKey(g[j]) == k;
    SameRoute(df, k, 0, g[j]);
    var i :| 0 <= i < |df| && df[i] == g[j];
    assert Where(df, RouteKey, RouteKey(df[i])) == g;
    assert TransitFlagged(df, df[i]);
  }

  /** A flagged row's record is among its own route's records. */
  lemma TransitRecordInGroup(df: seq<Shipment>, routes: seq<Route>, i: int)
    requires 0 <= i < |df| && TransitFlagged(df, df[i])
    ensures TransitRecordFor(df, routes, df[i]) in TransitGroups(df, routes)(RouteKey(df[i]))
  {
    var k := RouteKey(df[i]);
    var g := Where(df, RouteKey, k);
    assert df[i] in g;
    var j :| 0 <= j < |g| && g[j] == df[i];
    SameRoute(df, k, 0, df[i]);
    TransitGroupMembers(df, routes, k, TransitRecordFor(df, routes, df[i]));
  }

  lemma TransitRecordsComplete(df: seq<Shipment>, routes: seq<Route>, i: int)
    requires 0 <= i < |df| && TransitFlagged(df, df[i])
    ensures TransitRecordFor(df, routes, df[i]) in TransitRecords(df, routes)
  {
    var keys := GroupKeys(df, RouteKey);
    assert RouteKey(df[i]) in keys;
    TransitRecordInGroup(df, routes, i);
    ConcatMapHas(keys, TransitGroups(df, routes), RouteKey(df[i]), TransitRecordFor(df, routes, df[i]));
  }

  /** The transit detector's records are exactly one per flagged row. */
  lemma TransitRecordsExact(df: seq<Shipment>, routes: seq<Route>, a: Anomaly)
    ensures a in TransitRecords(df, routes) <==>
            exists i :: 0 <= i < |df| && TransitFlagged(df, df[i]) && a == TransitRecordFor(df, routes, df[i])
  {
    if a in TransitRecords(df, routes) {
      TransitRecordsSound(df, routes, a);
    }
    if exists i :: 0 <= i < |df| && TransitFlagged(df, df[i]) && a == TransitRecordFor(df, routes, df[i]) {
      var i :| 0 <= i < |df| && TransitFlagged(df, df[i]) && a == TransitRecordFor(df, routes, df[i]);
      TransitRecordsComplete(df, routes, i);
    }
  }

  /**
   * The expected transit time is the route table's average, or the group's
   * Q3 for an unknown route; the delay is actual minus expected (negative
   * for rows below the lower bound); CRITICAL exactly when the delay exceeds
   * 20 days, MEDIUM otherwise; the quoted cost is 10 per day of delay.
   */
  lemma TransitRecordFacts(s: Shipment, routes: seq<Route>, b: Bounds, n: nat)
    ensures var r := TransitRecord(s, ExpectedTransit(routes, s.originCountry, s.destinationCountry, b), b, n);
            var route := FindRoute(routes, s.originCountry, s.destinationCountry);
            r.layer == 2 && r.anomalyType == TransitTimeOutlier && r.shipmentId == Some(s.id)
            && r.evidence.TransitEvidence?
            && r.evidence.expectedDays == (if route.Some? then route.value.avgTransitDays as real else b.q3)
            && r.evidence.delayDays == s.daysInTransit as real - r.evidence.expectedDays
            && (r.severity == Critical <==> r.evidence.delayDays > 20.0)
            && (r.severity == Critical || r.severity == Medium)
            && r.impactAmount.Some? && r.impactAmount.value == r.evidence.delayDays * 10.0
  {
  }

  // ---------------------------------------------------------------------
  // Freight cost outliers
  // ---------------------------------------------------------------------

  /**
   * A row is a freight outlier when its (route, container) group has at
   * least five rows and a non-zero Q3, and its freight lies outside the
   * envelope, above 1.5 x Q3 and above 500.
   */
  predicate FreightFlagged(df: seq<Shipment>, s: Shipment) {
    var g := Where(df, LaneKey, LaneKey(s));
    |g| >= MinGroupSize &&
    var b := GroupBounds(g, Freight);
    b.q3 != 0.0 && IsOutlier(s.freightCost, b) && s.freightCost > 1.5 * b.q3 && s.freightCost > 500.0
  }

  function FreightRecordFor(df: seq<Shipment>, s: Shipment): Anomaly
    requires FreightFlagged(df, s)
  {
    var g := Where(df, LaneKey, LaneKey(s));
    FreightRecord(s, GroupBounds(g, Freight), |g|)
  }

  lemma FreightOutliersMembers(g: seq<Shipment>, b: Bounds, n: nat, a: Anomaly)
    ensures a in FreightOutliers(g, b, n) <==>
            exists j :: 0 <= j < |g| && FreightFlag(g[j], b) && a == FreightRecord(g[j], b, n)
  {
    if a in FreightOutliers(g, b, n) {
      FreightOutliersSound(g, b, n, a);
    }
    if exists j :: 0 <= j < |g| && FreightFlag(g[j], b) && a == FreightRecord(g[j], b, n) {
      var j :| 0 <= j < |g| && FreightFlag(g[j], b) && a == FreightRecord(g[j], b, n);
      FreightOutliersComplete(g, b, n, j);
    }
  }

  lemma {:induction false} FreightOutliersSound(g: seq<Shipment>, b: Bounds, n: nat, a: Anomaly)
    requires a in FreightOutliers(g, b, n)
    ensures exists j :: 0 <= j < |g| && FreightFlag(g[j], b) && a == FreightRecord(g[j], b, n)
  {
    assert g != [];
    var init := g[..|g| - 1];
    if a in FreightOutliers(init, b, n) {
      FreightOutliersSound(init, b, n, a);
      var j :| 0 <= j < |init| && FreightFlag(init[j], b) && a == FreightRecord(init[j], b, n);
      SliceIndex(g, |g| - 1, j);
    } else {
      assert FreightFlag(g[|g| - 1], b) && a == FreightRecord(g[|g| - 1], b, n);
    }
  }

  lemma {:induction false} FreightOutliersComplete(g: seq<Shipment>, b: Bounds, n: nat, j: int)
    requires 0 <= j < |g| && FreightFlag(g[j], b)
    ensures FreightRecord(g[j], b, n) in FreightOutliers(g, b, n)
  {
    if j < |g| - 1 {
      var init := g[..|g| - 1];
      SliceIndex(g, |g| - 1, j);
      FreightOutliersComplete(init, b, n, j);
    }
  }

  lemma FreightGroupMembers(df: seq<Shipment>, key: seq<string>, a: Anomaly)
    ensures var g := Where(df, LaneKey, key);
            a in FreightGroups(df)(key) <==>
            |g| >= MinGroupSize &&
            var b := GroupBounds(g, Freight);
            b.q3 != 0.0 && exists j :: 0 <= j < |g| && FreightFlag(g[j], b) && a == FreightRecord(g[j], b, |g|)
  {
    var g := Where(df, LaneKey, key);
    assert FreightGroups(df)(key) == FreightGroupRecords(df, key);
    if |g| >= MinGroupSize {
      FreightOutliersMembers(g, GroupBounds(g, Freight), |g|, a);
    }
  }

  lemma FreightRecordsSound(df: seq<Shipment>, a: Anomaly)
    requires a in FreightRecords(df)
    ensures exists i :: 0 <= i < |df| && FreightFlagged(df, df[i]) && a == FreightRecordFor(df, df[i])
  {
    var keys := GroupKeys(df, LaneKey);
    ConcatMapMembers(keys, FreightGroups(df), a);
    var k :| k in keys && a in FreightGroups(df)(k);
    FreightGroupMembers(df, k, a);
    var g := Where(df, LaneKey, k);
    var b := GroupBounds(g, Freight);
    var j :| 0 <= j < |g| && FreightFlag(g[j], b) && a == FreightRecord(g[j], b, |g|);
    assert g[j] in g;
    assert g[j] in df && LaneKey(g[j]) == k;
    var i :| 0 <= i < |df| && df[i] == g[j];
    assert Where(df, LaneKey, LaneKey(df[i])) == g;
    assert FreightFlagged(df, df[i]);
  }

  /** A flagged row's record is among its own lane's records. */
  lemma FreightRecordInGroup(df: seq<Shipment>, i: int)
    requires 0 <= i < |df| && FreightFlagged(df, df[i])
    ensures FreightRecordFor(df, df[i]) in FreightGroups(df)(LaneKey(df[i]))
  {
    var a := FreightRecordFor(df, df[i]);
    var g := Where(df, LaneKey, LaneKey(df[i]));
    assert df[i] in g;
    var j :| 0 <= j < |g| && g[j] == df[i];
    var b := GroupBounds(g, Freight);
    assert FreightFlag(g[j], b) && a == FreightRecord(g[j], b, |g|);
    FreightGroupMembers(df, LaneKey(df[i]), a);
  }

  lemma FreightRecordsComplete(df: seq<Shipment>, i: int)
    requires 0 <= i < |df| && FreightFlagged(df, df[i])
    ensures FreightRecordFor(df, df[i]) in FreightRecords(df)
  {
    var keys := GroupKeys(df, LaneKey);
    assert LaneKey(df[i]) in keys;
    FreightRecordInGroup(df, i);
    ConcatMapHas(keys, FreightGroups(df), LaneKey(df[i]), FreightRecordFor(df, df[i]));
  }

  /** The freight detector's records are exactly one per flagged row. */
  lemma FreightRecordsExact(df: seq<Shipment>, a: Anomaly)
    ensures a in FreightRecords(df) <==>
            exists i :: 0 <= i < |df| && FreightFlagged(df, df[i]) && a == FreightRecordFor(df, df[i])
  {
    if a in FreightRecords(df) {
      FreightRecordsSound(df, a);
    }
    if exists i :: 0 <= i < |df| && FreightFlagged(df, df[i]) && a == FreightRecordFor(df, df[i]) {
      var i :| 0 <= i < |df| && FreightFlagged(df, df[i]) && a == FreightRecordFor(df, df[i]);
      FreightRecordsComplete(df, i);
    }
  }

  /**
   * A freight record is layer 2; its freight exceeds 500 and 1.5 x Q3 (the
   * value quoted as the median cost); it is HIGH exactly when the excess
   * over Q3 exceeds 500.
   */
  lemma FreightRecordFacts(df: seq<Shipment>, a: Anomaly)
    requires a in FreightRecords(df)
    ensures a.layer == 2 && a.anomalyType == FreightCostOutlier && a.evidence.FreightEvidence?
    ensures a.evidence.freightCost > 500.0 && a.evidence.freightCost > 1.5 * a.evidence.medianCost
    ensures a.evidence.medianCost == a.evidence.bounds.q3 != 0.0
    ensures a.evidence.excessOverMedian == a.evidence.freightCost - a.evidence.medianCost
    ensures a.severity == High <==> a.evidence.excessOverMedian > 500.0
    ensures a.severity == High || a.severity == Medium
  {
    FreightRecordsSound(df, a);
  }

  // ---------------------------------------------------------------------
  // One record per flagged row
  // ---------------------------------------------------------------------

  /** Every record of the list cites a row of the group of key k. */
  ghost predicate CitesGroupRows<K>(anoms: seq<Anomaly>, df: seq<Shipment>, key: Shipment -> K, k: K) {
    forall a :: a in anoms ==> exists s :: s in Where(df, key, k) && a.shipmentId == Some(s.id)
  }

  /** Over unique ids, a group's records never cite a row of another group. */
  lemma OtherGroupSilent<K>(df: seq<Shipment>, key: Shipment -> K, k: K, i: int, anoms: seq<Anomaly>)
    requires UniqueIds(df) && 0 <= i < |df| && key(df[i]) != k
    requires CitesGroupRows(anoms, df, key, k)
    ensures CountFor(anoms, df[i].id) == 0
  {
    forall m | 0 <= m < |anoms| ensures anoms[m].shipmentId != Some(df[i].id) {
      assert anoms[m] in anoms;
      var s :| s in Where(df, key, k) && anoms[m].shipmentId == Some(s.id);
      var t :| 0 <= t < |df| && df[t] == s;
      assert key(df[t]) == k;
    }
  }

  /** When only key k0 can contribute records about id, the concatenation holds exactly k0's. */
  lemma {:induction false} ConcatMapCount<K>(keys: seq<K>, f: K -> seq<Anomaly>, k0: K, id: int)
    requires NoDuplicates(keys)
    requires forall k :: k in keys && k != k0 ==> CountFor(f(k), id) == 0
    ensures CountFor(ConcatMap(keys, f), id) == if k0 in keys then CountFor(f(k0), id) else 0
  {
    if keys != [] {
      var init := keys[..|keys| - 1];
      var last := keys[|keys| - 1];
      assert keys == init + [last];
      assert NoDuplicates(init) by {
        forall i, j | 0 <= i < j < |init| ensures init[i] != init[j] {
          assert init[i] == keys[i] && init[j] == keys[j];
        }
      }
      ConcatMapCount(init, f, k0, id);
      CountForAppend(ConcatMap(init, f), f(last), id);
    }
  }

  /** Records are only about rows of the group, so an id no row carries has none. */
  lemma PriceOutliersSilent(g: seq<Shipment>, p: Product, b: Bounds, n: nat, id: int)
    requires forall t :: 0 <= t < |g| ==> g[t].id != id
    ensures CountFor(PriceOutliers(g, p, b, n), id) == 0
  {
    var r := PriceOutliers(g, p, b, n);
    forall m | 0 <= m < |r| ensures r[m].shipmentId != Some(id) {
      assert r[m] in r;
      PriceOutliersSound(g, p, b, n, r[m]);
      var t :| 0 <= t < |g| && IsOutlier(g[t].unitPrice, b) && r[m] == PriceRecord(g[t], p, b, n);
    }
  }

  /** Within a group with unique ids, a row gets one price record if it lies outside the envelope and none otherwise. */
  lemma {:induction false} PriceOutliersOnePerRow(g: seq<Shipment>, p: Product, b: Bounds, n: nat, j: int)
    requires UniqueIds(g) && 0 <= j < |g|
    ensures CountFor(PriceOutliers(g, p, b, n), g[j].id) == if IsOutlier(g[j].unitPrice, b) then 1 else 0
  {
    var init := g[..|g| - 1];
    var last := g[|g| - 1];
    PriceOutliersStep(g, p, b, n, g[j].id);
    UniqueIdsPrefix(g, |g| - 1);
    if j == |g| - 1 {
      forall t | 0 <= t < |init| ensures init[t].id != last.id {
        assert init[t] == g[t];
      }
      PriceOutliersSilent(init, p, b, n, last.id);
    } else {
      assert init[j] == g[j];
      PriceOutliersOnePerRow(init, p, b, n, j);
    }
  }

  /** The last row adds its own record, if flagged, to the count of the rows before it. */
  lemma PriceOutliersStep(g: seq<Shipment>, p: Product, b: Bounds, n: nat, id: int)
    requires g != []
    ensures var last := g[|g| - 1];
            CountFor(PriceOutliers(g, p, b, n), id)
            == CountFor(PriceOutliers(g[..|g| - 1], p, b, n), id) + (if IsOutlier(last.unitPrice, b) && last.id == id then 1 else 0)
  {
    var last := g[|g| - 1];
    var before := PriceOutliers(g[..|g| - 1], p, b, n);
    if IsOutlier(last.unitPrice, b) {
      CountForAppend(before, [PriceRecord(last, p, b, n)], id);
      CountForSingle(PriceRecord(last, p, b, n), id);
    } else {
      assert PriceOutliers(g, p, b, n) == before + [];
      assert before + [] == before;
    }
  }

  lemma PriceGroupCites(df: seq<Shipment>, catalog: seq<Product>, k: int)
    ensures CitesGroupRows(PriceGroups(df, catalog)(k), df, ProductKey, k)
  {
    forall a | a in PriceGroups(df, catalog)(k)
      ensures exists s :: s in Where(df, ProductKey, k) && a.shipmentId == Some(s.id)
    {
      PriceGroupMembers(df, catalog, k, a);
      var g := Where(df, ProductKey, k);
      var j :| 0 <= j < |g| && IsOutlier(g[j].unitPrice, GroupBounds(g, UnitPrice))
               && a == PriceRecord(g[j], FindProduct(catalog, k).value, GroupBounds(g, UnitPrice), |g|);
      assert g[j] in g;
    }
  }

  lemma PriceOwnGroupCount(df: seq<Shipment>, catalog: seq<Product>, i: int)
    requires UniqueIds(df) && 0 <= i < |df|
    ensures CountFor(PriceGroups(df, catalog)(df[i].productId), df[i].id)
            == if PriceFlagged(df, catalog, df[i]) then 1 else 0
  {
    var k := df[i].productId;
    var g := Where(df, ProductKey, k);
    assert PriceGroups(df, catalog)(k) == PriceGroupRecords(df, catalog, k);
    if |g| >= MinGroupSize && FindProduct(catalog, k).Some? {
      RowInItsGroup(df, ProductKey, i);
      var j :| 0 <= j < |g| && g[j] == df[i];
      WhereUnique(df, ProductKey, k);
      PriceOutliersOnePerRow(g, FindProduct(catalog, k).value, GroupBounds(g, UnitPrice), |g|, j);
    }
  }

  /**
   * Over a frame with unique ids, detect_price_outliers emits exactly one
   * record about a flagged row and none about any other row.
   */
  lemma PriceRecordsOnePerRow(df: seq<Shipment>, catalog: seq<Product>, i: int)
    requires UniqueIds(df) && 0 <= i < |df|
    ensures CountFor(PriceRecords(df, catalog), df[i].id) == if PriceFlagged(df, catalog, df[i]) then 1 else 0
  {
    var keys := Distinct(Column(df, ProductKey));
    var f := PriceGroups(df, catalog);
    var k0 := df[i].productId;
    RowInItsGroup(df, ProductKey, i);
    forall k | k in keys && k != k0 ensures CountFor(f(k), df[i].id) == 0 {
      PriceGroupCites(df, catalog, k);
      OtherGroupSilent(df, ProductKey, k, i, f(k));
    }
    ConcatMapCount(keys, f, k0, df[i].id);
    PriceOwnGroupCount(df, catalog, i);
  }

  /** Records are only about rows of the group, so an id no row carries has none. */
  lemma TransitOutliersSilent(g: seq<Shipment>, expected: real, b: Bounds, n: nat, id: int)
    requires forall t :: 0 <= t < |g| ==> g[t].id != id
    ensures CountFor(TransitOutliers(g, expected, b, n), id) == 0
  {
    var r := TransitOutliers(g, expected, b, n);
    forall m | 0 <= m < |r| ensures r[m].shipmentId != Some(id) {
      assert r[m] in r;
      TransitOutliersSound(g, expected, b, n, r[m]);
      var t :| 0 <= t < |g| && IsOutlier(TransitDays(g[t]), b) && r[m] == TransitRecord(g[t], expected, b, n);
    }
  }

  /** Within a group with unique ids, a row gets one transit record if its days lie outside the envelope and none otherwise. */
  lemma {:induction false} TransitOutliersOnePerRow(g: seq<Shipment>, expected: real, b: Bounds, n: nat, j: int)
    requires UniqueIds(g) && 0 <= j < |g|
    ensures CountFor(TransitOutliers(g, expected, b, n), g[j].id) == if IsOutlier(TransitDays(g[j]), b) then 1 else 0
  {
    var init := g[..|g| - 1];
    var last := g[|g| - 1];
    TransitOutliersStep(g, expected, b, n, g[j].id);
    UniqueIdsPrefix(g, |g| - 1);
    if j == |g| - 1 {
      forall t | 0 <= t < |init| ensures init[t].id != last.id {
        assert init[t] == g[t];
      }
      TransitOutliersSilent(init, expected, b, n, last.id);
    } else {
      assert init[j] == g[j];
      TransitOutliersOnePerRow(init, expected, b, n, j);
    }
  }

  /** The last row adds its own record, if flagged, to the count of the rows before it. */
  lemma TransitOutliersStep(g: seq<Shipment>, expected: real, b: Bounds, n: nat, id: int)
    requires g != []
    ensures var last := g[|g| - 1];
            CountFor(TransitOutliers(g, expected, b, n), id)
            == CountFor(TransitOutliers(g[..|g| - 1], expected, b, n), id) + (if IsOutlier(TransitDays(last), b) && last.id == id then 1 else 0)
  {
    var last := g[|g| - 1];
    var before := TransitOutliers(g[..|g| - 1], expected, b, n);
    if IsOutlier(TransitDays(last), b) {
      CountForAppend(before, [TransitRecord(last, expected, b, n)], id);
      CountForSingle(TransitRecord(last, expected, b, n), id);
    } else {
      assert TransitOutliers(g, expected, b, n) == before + [];
      assert before + [] == before;
    }
  }

  lemma TransitGroupCites(df: seq<Shipment>, routes: seq<Route>, k: seq<string>)
    ensures CitesGroupRows(TransitGroups(df, routes)(k), df, RouteKey, k)
  {
    forall a | a in TransitGroups(df, routes)(k)
      ensures exists s :: s in Where(df, RouteKey, k) && a.shipmentId == Some(s.id)
    {
      TransitGroupMembers(df, routes, k, a);
      var g := Where(df, RouteKey, k);
      var b := GroupBounds(g, TransitDays);
      var j :| 0 <= j < |g| && IsOutlier(TransitDays(g[j]), b)
               && a == TransitRecord(g[j], ExpectedTransit(routes, g[0].originCountry, g[0].destinationCountry, b), b, |g|);
      assert g[j] in g;
    }
  }

  lemma TransitOwnGroupCount(df: seq<Shipment>, routes: seq<Route>, i: int)
    requires UniqueIds(df) && 0 <= i < |df|
    ensures CountFor(TransitGroups(df, routes)(RouteKey(df[i])), df[i].id)
            == if TransitFlagged(df, df[i]) then 1 else 0
  {
    var k := RouteKey(df[i]);
    var g := Where(df, RouteKey, k);
    assert TransitGroups(df, routes)(k) == TransitGroupRecords(df, routes, k);
    if |g| >= MinGroupSize {
      RowInItsGroup(df, RouteKey, i);
      var j :| 0 <= j < |g| && g[j] == df[i];
      WhereUnique(df, RouteKey, k);
      var b := GroupBounds(g, TransitDays);
      TransitOutliersOnePerRow(g, ExpectedTransit(routes, g[0].originCountry, g[0].destinationCountry, b), b, |g|, j);
    }
  }

  /**
   * Over a frame with unique ids, detect_transit_time_outliers emits exactly
   * one record about a flagged row and none about any other row.
   */
  lemma TransitRecordsOnePerRow(df: seq<Shipment>, routes: seq<Route>, i: int)
    requires UniqueIds(df) && 0 <= i < |df|
    ensures CountFor(TransitRecords(df, routes), df[i].id) == if TransitFlagged(df, df[i]) then 1 else 0
  {
    var keys := GroupKeys(df, RouteKey);
    var f := TransitGroups(df, routes);
    var k0 := RouteKey(df[i]);
    assert k0 in keys;
    forall k | k in keys && k != k0 ensures CountFor(f(k), df[i].id) == 0 {
      TransitGroupCites(df, routes, k);
      OtherGroupSilent(df, RouteKey, k, i, f(k));
    }
    ConcatMapCount(keys, f, k0, df[i].id);
    TransitOwnGroupCount(df, routes, i);
  }

  /** Records are only about rows of the group, so an id no row carries has none. */
  lemma FreightOutliersSilent(g: seq<Shipment>, b: Bounds, n: nat, id: int)
    requires forall t :: 0 <= t < |g| ==> g[t].id != id
    ensures CountFor(FreightOutliers(g, b, n), id) == 0
  {
    var r := FreightOutliers(g, b, n);
    forall m | 0 <= m < |r| ensures r[m].shipmentId != Some(id) {
      assert r[m] in r;
      FreightOutliersSound(g, b, n, r[m]);
      var t :| 0 <= t < |g| && FreightFlag(g[t], b) && r[m] == FreightRecord(g[t], b, n);
    }
  }

  /** Within a group with unique ids, a row gets one freight record if it passes the gated test and none otherwise. */
  lemma {:induction false} FreightOutliersOnePerRow(g: seq<Shipment>, b: Bounds, n: nat, j: int)
    requires UniqueIds(g) && 0 <= j < |g|
    ensures CountFor(FreightOutliers(g, b, n), g[j].id) == if FreightFlag(g[j], b) then 1 else 0
  {
    var init := g[..|g| - 1];
    var last := g[|g| - 1];
    FreightOutliersStep(g, b, n, g[j].id);
    UniqueIdsPrefix(g, |g| - 1);
    if j == |g| - 1 {
      forall t | 0 <= t < |init| ensures init[t].id != last.id {
        assert init[t] == g[t];
      }
      FreightOutliersSilent(init, b, n, last.id);
    } else {
      assert init[j] == g[j];
      FreightOutliersOnePerRow(init, b, n, j);
    }
  }

  /** The last row adds its own record, if flagged, to the count of the rows before it. */
  lemma FreightOutliersStep(g: seq<Shipment>, b: Bounds, n: nat, id: int)
    requires g != []
    ensures var last := g[|g| - 1];
            CountFor(FreightOutliers(g, b, n), id)
            == CountFor(FreightOutliers(g[..|g| - 1], b, n), id) + (if FreightFlag(last, b) && last.id == id then 1 else 0)
  {
    var last := g[|g| - 1];
    var before := FreightOutliers(g[..|g| - 1], b, n);
    if FreightFlag(last, b) {
      CountForAppend(before, [FreightRecord(last, b, n)], id);
      CountForSingle(FreightRecord(last, b, n), id);
    } else {
      assert FreightOutliers(g, b, n) == before + [];
      assert before + [] == before;
    }
  }

  lemma FreightGroupCites(df: seq<Shipment>, k: seq<string>)
    ensures CitesGroupRows(FreightGroups(df)(k), df, LaneKey, k)
  {
    forall a | a in FreightGroups(df)(k)
      ensures exists s :: s in Where(df, LaneKey, k) && a.shipmentId == Some(s.id)
    {
      FreightGroupMembers(df, k, a);
      var g := Where(df, LaneKey, k);
      var b := GroupBounds(g, Freight);
      var j :| 0 <= j < |g| && FreightFlag(g[j], b) && a == FreightRecord(g[j], b, |g|);
      assert g[j] in g;
    }
  }

  lemma FreightOwnGroupCount(df: seq<Shipment>, i: int)
    requires UniqueIds(df) && 0 <= i < |df|
    ensures CountFor(FreightGroups(df)(LaneKey(df[i])), df[i].id) == if FreightFlagged(df, df[i]) then 1 else 0
  {
    var k := LaneKey(df[i]);
    var g := Where(df, LaneKey, k);
    assert FreightGroups(df)(k) == FreightGroupRecords(df, k);
    if |g| >= MinGroupSize && GroupBounds(g, Freight).q3 != 0.0 {
      RowInItsGroup(df, LaneKey, i);
      var j :| 0 <= j < |g| && g[j] == df[i];
      WhereUnique(df, LaneKey, k);
      FreightOutliersOnePerRow(g, GroupBounds(g, Freight), |g|, j);
    }
  }

  /**
   * Over a frame with unique ids, detect_freight_outliers emits exactly one
   * record about a flagged row and none about any other row.
   */
  lemma FreightRecordsOnePerRow(df: seq<Shipment>, i: int)
    requires UniqueIds(df) && 0 <= i < |df|
    ensures CountFor(FreightRecords(df), df[i].id) == if FreightFlagged(df, df[i]) then 1 else 0
  {
    var keys := GroupKeys(df, LaneKey);
    var f := FreightGroups(df);
    var k0 := LaneKey(df[i]);
    assert k0 in keys;
    forall k | k in keys && k != k0 ensures CountFor(f(k), df[i].id) == 0 {
      FreightGroupCites(df, k);
      OtherGroupSilent(df, LaneKey, k, i, f(k));
    }
    ConcatMapCount(keys, f, k0, df[i].id);
    FreightOwnGroupCount(df, i);
  }

  // ---------------------------------------------------------------------
  // Payment behaviour
  // ---------------------------------------------------------------------

  /** The shipment ids of a sequence of rows, taken from the frame, belong to rows of the frame. */
  lemma IdsFromRows(df: seq<Shipment>, rows: seq<Shipment>, id: int)
    requires forall s :: s in rows ==> s in df
    requires id in Column(rows, ShipmentId)
    ensures exists i :: 0 <= i < |df| && df[i] in rows && df[i].id == id
  {
    var j :| 0 <= j < |rows| && Column(rows, ShipmentId)[j] == id;
    assert rows[j] in rows;
    var i :| 0 <= i < |df| && df[i] == rows[j];
  }

  /** The payment check yields at most one record, and it names the buyer. */
  lemma PaymentCheckShape(buyers: seq<Buyer>, b: int, h: seq<Shipment>)
    ensures |PaymentCheck(buyers, b, h)| <= 1
    ensures forall a :: a in PaymentCheck(buyers, b, h) ==> a.buyerId == Some(b)
  {
  }

  /**
   * A payment record is layer 2 and MEDIUM, and is only raised for a history
   * of at least five shipments with at least four recorded payment delays.
   * It cites the last three shipments of the history and quotes the last
   * three delays as its recent sample.
   */
  lemma PaymentCheckFacts(buyers: seq<Buyer>, b: int, h: seq<Shipment>, a: Anomaly)
    requires a in PaymentCheck(buyers, b, h)
    ensures |h| >= MinGroupSize && a.shipmentIds == Column(h[|h| - 3..], ShipmentId) && |a.shipmentIds| == 3
    ensures a.buyerId == Some(b) && a.shipmentId.None? && a.layer == 2 && a.severity == Medium
    ensures a.anomalyType == PaymentBehaviorDeterioration && a.evidence.PaymentTrendEvidence?
    ensures var p := PaymentDays(h);
            |p| >= 4 && a.evidence.lastPayments == p[|p| - 3..]
            && a.evidence.recentSampleSize == 3 && a.evidence.historicalSampleSize == |p| - 3
  {
    var p := PaymentDays(h);
    var oldPayments := p[..|p| - 3];
    var recentPayments := p[|p| - 3..];
    var oldAvg := Mean(AsReals(oldPayments));
    var recentAvg := Mean(AsReals(recentPayments)).value;
    assert a == PaymentRecord(buyers, b, h, oldPayments, recentPayments, oldAvg.value, recentAvg);
  }

  /**
   * A payment record's recent average is the mean of the last three delays,
   * its historical average the mean of the earlier ones, and it is raised
   * only when the first exceeds the second by more than 5 days; it quotes
   * that deterioration x 10000 as its impact.
   */
  lemma PaymentCheckAverages(buyers: seq<Buyer>, b: int, h: seq<Shipment>, a: Anomaly)
    requires a in PaymentCheck(buyers, b, h)
    ensures a.evidence.PaymentTrendEvidence?
    ensures Mean(AsReals(a.evidence.lastPayments)) == Some(a.evidence.recentAvg)
    ensures var p := PaymentDays(h); |p| >= 4 && Mean(AsReals(p[..|p| - 3])) == Some(a.evidence.historicalAvg)
    ensures a.evidence.deterioration == a.evidence.recentAvg - a.evidence.historicalAvg > 5.0
    ensures a.impactAmount == Some(a.evidence.deterioration * 10000.0)
  {
    var oldPayments, recentPayments, oldAvg, recentAvg := PaymentCheckRecord(buyers, b, h, a);
    PaymentRecordAmounts(buyers, b, h, oldPayments, recentPayments, oldAvg, recentAvg, a);
  }

  /** A payment record is the one PaymentRecord builds from the history's earlier and last three delays and their means. */
  lemma PaymentCheckRecord(buyers: seq<Buyer>, b: int, h: seq<Shipment>, a: Anomaly)
    returns (oldPayments: seq<int>, recentPayments: seq<int>, oldAvg: real, recentAvg: real)
    requires a in PaymentCheck(buyers, b, h)
    ensures |h| >= MinGroupSize
    ensures var p := PaymentDays(h);
            |p| >= 4 && oldPayments == p[..|p| - 3] && recentPayments == p[|p| - 3..]
    ensures Mean(AsReals(oldPayments)) == Some(oldAvg) && Mean(AsReals(recentPayments)) == Some(recentAvg)
    ensures recentAvg - oldAvg > 5.0
    ensures a == PaymentRecord(buyers, b, h, oldPayments, recentPayments, oldAvg, recentAvg)
  {
    var p := PaymentDays(h);
    oldPayments := p[..|p| - 3];
    recentPayments := p[|p| - 3..];
    oldAvg := Mean(AsReals(oldPayments)).value;
    recentAvg := Mean(AsReals(recentPayments)).value;
  }

  lemma PaymentRecordAmounts(buyers: seq<Buyer>, b: int, h: seq<Shipment>, oldPayments: seq<int>,
                             recentPayments: seq<int>, oldAvg: real, recentAvg: real, a: Anomaly)
    requires |h| >= 3 && a == PaymentRecord(buyers, b, h, oldPayments, recentPayments, oldAvg, recentAvg)
    ensures a.evidence.PaymentTrendEvidence? && a.evidence.recentAvg == recentAvg && a.evidence.historicalAvg == oldAvg
    ensures a.evidence.lastPayments == recentPayments
    ensures a.evidence.deterioration == recentAvg - oldAvg
    ensures a.impactAmount == Some(a.evidence.deterioration * 10000.0)
  {
  }

  /**
   * On the frame: the history is the buyer's rows ordered by date, and the
   * record cites the last three shipments of that history.
   */
  lemma PaymentRecordFacts(df: seq<Shipment>, buyers: seq<Buyer>, b: int, a: Anomaly)
    requires a in PaymentGroupRecords(df, buyers, b)
    ensures var h := BuyerHistory(df, b);
            |h| >= MinGroupSize && SortedBy(h, DateOrder) && multiset(h) == multiset(Where(df, BuyerKey, b))
            && a.shipmentIds == Column(h[|h| - 3..], ShipmentId)
    ensures a.buyerId == Some(b) && a.layer == 2
  {
    var h := BuyerHistory(df, b);
    PaymentCheckFacts(buyers, b, h, a);
  }

  /** The three shipments a payment record cites are the buyer's own. */
  lemma PaymentRecordCitesOwnRows(df: seq<Shipment>, buyers: seq<Buyer>, b: int, a: Anomaly)
    requires a in PaymentGroupRecords(df, buyers, b)
    ensures forall id :: id in a.shipmentIds ==> exists i :: 0 <= i < |df| && df[i].buyerId == b && df[i].id == id
  {
    PaymentRecordFacts(df, buyers, b, a);
    var h := BuyerHistory(df, b);
    forall id | id in a.shipmentIds ensures exists i :: 0 <= i < |df| && df[i].buyerId == b && df[i].id == id {
      var i := HistoryIdIsOwn(df, b, |h| - 3, id);
    }
  }

  /** A row of a buyer's history is one of that buyer's rows of the frame. */
  lemma HistoryRowIsOwn(df: seq<Shipment>, b: int, s: Shipment)
    requires s in BuyerHistory(df, b)
    ensures s in df && s.buyerId == b
  {
    var w := Where(df, BuyerKey, b);
    assert s in multiset(BuyerHistory(df, b));
    assert s in multiset(w);
    assert s in w;
  }

  /** An id cited from the tail of a buyer's history belongs to one of that buyer's rows. */
  lemma HistoryIdIsOwn(df: seq<Shipment>, b: int, k: int, id: int) returns (i: int)
    requires 0 <= k <= |BuyerHistory(df, b)|
    requires id in Column(BuyerHistory(df, b)[k..], ShipmentId)
    ensures 0 <= i < |df| && df[i].buyerId == b && df[i].id == id
  {
    var h := BuyerHistory(df, b);
    var rows := h[k..];
    var j :| 0 <= j < |rows| && Column(rows, ShipmentId)[j] == id;
    assert rows[j] == h[k + j];
    HistoryRowIsOwn(df, b, rows[j]);
    i :| 0 <= i < |df| && df[i] == rows[j];
  }

  /**
   * The payment trigger on a date-ordered history: at least five shipments,
   * at least four recorded delays, and the mean of the last three delays
   * more than 5 days above the mean of the earlier ones.
   * This is the guard of PaymentCheck written out on purpose: it is the
   * trigger that src/statistical_detector.py:302-348 documents, and
   * PaymentCheckComplete and PaymentRecordsFlagBuyer are stated with it.
   */
  predicate PaymentWorsened(h: seq<Shipment>) {
    var p := PaymentDays(h);
    |h| >= MinGroupSize && |p| >= 4
    && Mean(AsReals(p[|p| - 3..])).value - Mean(AsReals(p[..|p| - 3])).value > 5.0
  }

  /** The payment check flags a history exactly when the trigger holds, with one record. */
  lemma PaymentCheckComplete(buyers: seq<Buyer>, b: int, h: seq<Shipment>)
    ensures |PaymentCheck(buyers, b, h)| == if PaymentWorsened(h) then 1 else 0
  {
  }

  /**
   * On the frame: a buyer is flagged by detect_payment_behavior_change
   * exactly when it has shipments and its date-ordered history meets the
   * trigger.
   */
  lemma PaymentRecordsFlagBuyer(df: seq<Shipment>, buyers: seq<Buyer>, b: int)
    ensures (exists a :: a in PaymentRecords(df, buyers) && a.buyerId == Some(b)) <==>
            HasShipments(df, b) && PaymentWorsened(BuyerHistory(df, b))
  {
    if exists a :: a in PaymentRecords(df, buyers) && a.buyerId == Some(b) {
      PaymentFlagSound(df, buyers, b);
    }
    if HasShipments(df, b) && PaymentWorsened(BuyerHistory(df, b)) {
      PaymentFlagComplete(df, buyers, b);
    }
  }

  /** Buyer b has at least one shipment in the frame. */
  predicate HasShipments(df: seq<Shipment>, b: int) {
    exists i :: 0 <= i < |df| && df[i].buyerId == b
  }

  lemma PaymentFlagSound(df: seq<Shipment>, buyers: seq<Buyer>, b: int)
    requires exists a :: a in PaymentRecords(df, buyers) && a.buyerId == Some(b)
    ensures HasShipments(df, b) && PaymentWorsened(BuyerHistory(df, b))
  {
    var a :| a in PaymentRecords(df, buyers) && a.buyerId == Some(b);
    var keys := Distinct(Column(df, BuyerKey));
    var f := PaymentGroups(df, buyers);
    ConcatMapMembers(keys, f, a);
    var k :| k in keys && a in f(k);
    PaymentGroupFacts(df, buyers, k);
    assert k == b;
    var i :| 0 <= i < |df| && Column(df, BuyerKey)[i] == b;
  }

  lemma PaymentGroupFacts(df: seq<Shipment>, buyers: seq<Buyer>, k: int)
    ensures |PaymentGroups(df, buyers)(k)| == if PaymentWorsened(BuyerHistory(df, k)) then 1 else 0
    ensures forall x :: x in PaymentGroups(df, buyers)(k) ==> x.buyerId == Some(k)
  {
    assert PaymentGroups(df, buyers)(k) == PaymentCheck(buyers, k, BuyerHistory(df, k));
    PaymentCheckShape(buyers, k, BuyerHistory(df, k));
    PaymentCheckComplete(buyers, k, BuyerHistory(df, k));
  }

  lemma PaymentFlagComplete(df: seq<Shipment>, buyers: seq<Buyer>, b: int)
    requires HasShipments(df, b) && PaymentWorsened(BuyerHistory(df, b))
    ensures exists a :: a in PaymentRecords(df, buyers) && a.buyerId == Some(b)
  {
    var keys := Distinct(Column(df, BuyerKey));
    var f := PaymentGroups(df, buyers);
    var i :| 0 <= i < |df| && df[i].buyerId == b;
    RowInItsGroup(df, BuyerKey, i);
    PaymentGroupFacts(df, buyers, b);
    var a := f(b)[0];
    assert a in f(b);
    ConcatMapHas(keys, f, b, a);
  }

  /** With exactly three recorded payment delays the earlier mean is NaN, so the buyer is never flagged. */
  lemma ThreePaymentsNeverFlagged(buyers: seq<Buyer>, b: int, h: seq<Shipment>)
    requires |PaymentDays(h)| == 3
    ensures PaymentCheck(buyers, b, h) == []
  {
  }

  /** The buyer a buyer-level record names. */
  function BuyerTag(a: Anomaly): Option<int> {
    a.buyerId
  }

  lemma PaymentGroupShape(df: seq<Shipment>, buyers: seq<Buyer>, k: int)
    ensures |PaymentGroups(df, buyers)(k)| <= 1
    ensures forall x :: x in PaymentGroups(df, buyers)(k) ==> BuyerTag(x) == Some(k)
  {
    assert PaymentGroups(df, buyers)(k) == PaymentCheck(buyers, k, BuyerHistory(df, k));
    PaymentCheckShape(buyers, k, BuyerHistory(df, k));
  }

  /** The payment detector raises at most one record per buyer. */
  lemma PaymentOnePerBuyer(df: seq<Shipment>, buyers: seq<Buyer>)
    ensures forall i, j :: 0 <= i < j < |PaymentRecords(df, buyers)| ==>
              PaymentRecords(df, buyers)[i].buyerId != PaymentRecords(df, buyers)[j].buyerId
  {
    var keys := Distinct(Column(df, BuyerKey));
    var f := PaymentGroups(df, buyers);
    var r := PaymentRecords(df, buyers);
    assert r == ConcatMap(keys, f);
    forall k | k in keys ensures |f(k)| <= 1 {
      PaymentGroupShape(df, buyers, k);
    }
    forall k, x | k in keys && x in f(k) ensures BuyerTag(x) == Some(k) {
      PaymentGroupShape(df, buyers, k);
    }
    ConcatMapOnePerKey(keys, f, BuyerTag);
    forall i, j | 0 <= i < j < |r| ensures r[i].buyerId != r[j].buyerId {
      assert BuyerTag(r[i]) != BuyerTag(r[j]);
    }
  }

  // ---------------------------------------------------------------------
  // Volume spikes
  // ---------------------------------------------------------------------

  /** The volume check yields at most one record, and it names the buyer. */
  lemma VolumeCheckShape(buyers: seq<Buyer>, b: int, g: seq<Shipment>)
    ensures |VolumeCheck(buyers, b, g)| <= 1
    ensures forall a :: a in VolumeCheck(buyers, b, g) ==> a.buyerId == Some(b)
  {
  }

  /**
   * A volume record is layer 2 and MEDIUM, and is raised only with at least
   * three distinct months of history when the latest month's volume exceeds
   * twice the mean of the earlier months; the spike ratio is missing exactly
   * when that mean is zero.  The latest month is the group's last calendar
   * month, and the record cites the group's shipments of that month.
   */
  lemma VolumeCheckFacts(buyers: seq<Buyer>, b: int, g: seq<Shipment>, a: Anomaly)
    requires a in VolumeCheck(buyers, b, g)
    ensures a.buyerId == Some(b) && a.shipmentId.None? && a.layer == 2 && a.severity == Medium
    ensures a.anomalyType == VolumeSpike && a.evidence.VolumeEvidence? && a.impactAmount.None?
    ensures var months := Months(g);
            |months| >= 3 && a.evidence.monthsAnalyzed == |months|
            && a.shipmentIds == Column(Where(g, MonthOf, months[|months| - 1]), ShipmentId)
            && a.evidence.latestMonthVolume == MonthVolume(g, months[|months| - 1]) as real
    ensures a.evidence.latestMonthVolume > 2.0 * a.evidence.historicalAvgMonthly
    ensures a.evidence.spikeRatio.None? <==> a.evidence.historicalAvgMonthly == 0.0
  {
  }

  /**
   * The volume trigger on a buyer's shipments: at least three calendar
   * months, and the latest month's volume above twice the mean of the
   * earlier months.
   * This is the guard of VolumeCheck written out on purpose: it is the
   * trigger that src/statistical_detector.py:374-411 documents, and
   * VolumeCheckComplete and VolumeRecordsFlagBuyer are stated with it.
   */
  predicate VolumeSpiked(g: seq<Shipment>) {
    var months := Months(g);
    var v := Volumes(g, months);
    |months| >= 3 && v[|v| - 1] > Mean(v[..|v| - 1]).value * 2.0
  }

  /** The volume check flags a buyer exactly when the trigger holds, with one record. */
  lemma VolumeCheckComplete(buyers: seq<Buyer>, b: int, g: seq<Shipment>)
    ensures |VolumeCheck(buyers, b, g)| == if VolumeSpiked(g) then 1 else 0
  {
  }

  /**
   * On the frame: a buyer is flagged by detect_volume_spikes exactly when it
   * has shipments and its shipments meet the trigger.
   */
  lemma VolumeRecordsFlagBuyer(df: seq<Shipment>, buyers: seq<Buyer>, b: int)
    ensures (exists a :: a in VolumeRecords(df, buyers) && a.buyerId == Some(b)) <==>
            HasShipments(df, b) && VolumeSpiked(Where(df, BuyerKey, b))
  {
    if exists a :: a in VolumeRecords(df, buyers) && a.buyerId == Some(b) {
      VolumeFlagSound(df, buyers, b);
    }
    if HasShipments(df, b) && VolumeSpiked(Where(df, BuyerKey, b)) {
      VolumeFlagComplete(df, buyers, b);
    }
  }

  lemma VolumeFlagSound(df: seq<Shipment>, buyers: seq<Buyer>, b: int)
    requires exists a :: a in VolumeRecords(df, buyers) && a.buyerId == Some(b)
    ensures HasShipments(df, b) && VolumeSpiked(Where(df, BuyerKey, b))
  {
    var a :| a in VolumeRecords(df, buyers) && a.buyerId == Some(b);
    var keys := Distinct(Column(df, BuyerKey));
    var f := VolumeGroups(df, buyers);
    ConcatMapMembers(keys, f, a);
    var k :| k in keys && a in f(k);
    VolumeGroupFacts(df, buyers, k);
    assert k == b;
    var i :| 0 <= i < |df| && Column(df, BuyerKey)[i] == b;
  }

  lemma VolumeFlagComplete(df: seq<Shipment>, buyers: seq<Buyer>, b: int)
    requires HasShipments(df, b) && VolumeSpiked(Where(df, BuyerKey, b))
    ensures exists a :: a in VolumeRecords(df, buyers) && a.buyerId == Some(b)
  {
    var keys := Distinct(Column(df, BuyerKey));
    var f := VolumeGroups(df, buyers);
    var i :| 0 <= i < |df| && df[i].buyerId == b;
    RowInItsGroup(df, BuyerKey, i);
    VolumeGroupFacts(df, buyers, b);
    var a := f(b)[0];
    assert a in f(b);
    ConcatMapHas(keys, f, b, a);
  }

  lemma VolumeGroupFacts(df: seq<Shipment>, buyers: seq<Buyer>, k: int)
    ensures |VolumeGroups(df, buyers)(k)| == if VolumeSpiked(Where(df, BuyerKey, k)) then 1 else 0
    ensures forall x :: x in VolumeGroups(df, buyers)(k) ==> x.buyerId == Some(k)
  {
    assert VolumeGroups(df, buyers)(k) == VolumeCheck(buyers, k, Where(df, BuyerKey, k));
    VolumeCheckShape(buyers, k, Where(df, BuyerKey, k));
    VolumeCheckComplete(buyers, k, Where(df, BuyerKey, k));
  }

  /** Row `last` is one of buyer b's rows and no row of b falls in a later month. */
  predicate IsLatestRow(df: seq<Shipment>, b: int, last: int) {
    0 <= last < |df| && df[last].buyerId == b
    && forall i :: 0 <= i < |df| && df[i].buyerId == b ==> MonthOf(df[i]) <= MonthOf(df[last])
  }

  /** The ids are exactly those of buyer b's rows of month m. */
  ghost predicate CitesMonthRows(df: seq<Shipment>, b: int, m: int, ids: seq<int>) {
    forall id :: id in ids <==> exists i :: 0 <= i < |df| && df[i].buyerId == b && MonthOf(df[i]) == m && df[i].id == id
  }

  /**
   * On the frame: the latest month is the buyer's last calendar month, and
   * the record cites exactly the buyer's shipments of that month.
   */
  lemma VolumeRecordFacts(df: seq<Shipment>, buyers: seq<Buyer>, b: int, a: Anomaly) returns (last: int)
    requires a in VolumeGroupRecords(df, buyers, b)
    ensures a.buyerId == Some(b) && a.layer == 2
    ensures IsLatestRow(df, b, last) && CitesMonthRows(df, b, MonthOf(df[last]), a.shipmentIds)
  {
    var g := Where(df, BuyerKey, b);
    assert VolumeGroupRecords(df, buyers, b) == VolumeCheck(buyers, b, g);
    var lm := VolumeCheckCites(buyers, b, g, a);
    last := LatestMonthIsLast(df, b, lm);
    MonthIdsCited(df, b, lm);
  }

  /** A volume record cites the group's rows of its last month. */
  lemma VolumeCheckCites(buyers: seq<Buyer>, b: int, g: seq<Shipment>, a: Anomaly) returns (lm: int)
    requires a in VolumeCheck(buyers, b, g)
    ensures var months := Months(g); |months| > 0 && lm == months[|months| - 1]
    ensures a.buyerId == Some(b) && a.layer == 2
    ensures a.shipmentIds == Column(Where(g, MonthOf, lm), ShipmentId)
  {
    var months := Months(g);
    lm := months[|months| - 1];
  }

  /** The ids of a buyer's rows of one month, taken from its group, are those of the frame's rows of that buyer and month. */
  lemma MonthIdsCited(df: seq<Shipment>, b: int, lm: int)
    ensures CitesMonthRows(df, b, lm, Column(Where(Where(df, BuyerKey, b), MonthOf, lm), ShipmentId))
  {
    forall id {
      MonthRowsCited(df, b, lm, id);
    }
  }

  /** The ids of a buyer's rows of one month are exactly the ids of the frame's rows of that buyer and month. */
  lemma MonthRowsCited(df: seq<Shipment>, b: int, lm: int, id: int)
    ensures id in Column(Where(Where(df, BuyerKey, b), MonthOf, lm), ShipmentId) <==>
            exists i :: 0 <= i < |df| && df[i].buyerId == b && MonthOf(df[i]) == lm && df[i].id == id
  {
    if id in Column(Where(Where(df, BuyerKey, b), MonthOf, lm), ShipmentId) {
      CitedIdHasRow(df, b, lm, id);
    }
    if exists i :: 0 <= i < |df| && df[i].buyerId == b && MonthOf(df[i]) == lm && df[i].id == id {
      var i :| 0 <= i < |df| && df[i].buyerId == b && MonthOf(df[i]) == lm && df[i].id == id;
      RowIdCited(df, b, lm, i);
    }
  }

  lemma CitedIdHasRow(df: seq<Shipment>, b: int, lm: int, id: int)
    requires id in Column(Where(Where(df, BuyerKey, b), MonthOf, lm), ShipmentId)
    ensures exists i :: 0 <= i < |df| && df[i].buyerId == b && MonthOf(df[i]) == lm && df[i].id == id
  {
    var g := Where(df, BuyerKey, b);
    var latest := Where(g, MonthOf, lm);
    IdsFromRows(df, latest, id);
    var i :| 0 <= i < |df| && df[i] in latest && df[i].id == id;
    assert df[i] in g && MonthOf(df[i]) == lm;
    assert BuyerKey(df[i]) == b;
  }

  lemma RowIdCited(df: seq<Shipment>, b: int, lm: int, i: int)
    requires 0 <= i < |df| && df[i].buyerId == b && MonthOf(df[i]) == lm
    ensures df[i].id in Column(Where(Where(df, BuyerKey, b), MonthOf, lm), ShipmentId)
  {
    var g := Where(df, BuyerKey, b);
    var latest := Where(g, MonthOf, lm);
    assert BuyerKey(df[i]) == b;
    assert df[i] in g;
    assert df[i] in latest;
    var k :| 0 <= k < |latest| && latest[k] == df[i];
    assert Column(latest, ShipmentId)[k] == df[i].id;
  }

  /** The last of a buyer's months is a month of one of its rows, and no row is later. */
  lemma LatestMonthIsLast(df: seq<Shipment>, b: int, lm: int) returns (last: int)
    requires var months := Months(Where(df, BuyerKey, b)); |months| > 0 && lm == months[|months| - 1]
    ensures IsLatestRow(df, b, last) && MonthOf(df[last]) == lm
  {
    var g := Where(df, BuyerKey, b);
    var months := Months(g);
    assert lm in months;
    var j :| 0 <= j < |g| && MonthOf(g[j]) == lm;
    assert g[j] in g;
    last :| 0 <= last < |df| && df[last] == g[j];
    forall i | 0 <= i < |df| && df[i].buyerId == b ensures MonthOf(df[i]) <= lm {
      assert BuyerKey(df[i]) == b;
      assert df[i] in g;
      RowMonthAtMostLast(g, df[i]);
    }
  }

  /** A row of a group falls in one of the group's months, so no later than the last. */
  lemma RowMonthAtMostLast(g: seq<Shipment>, s: Shipment)
    requires s in g && |Months(g)| > 0
    ensures MonthOf(s) <= Months(g)[|Months(g)| - 1]
  {
    var months := Months(g);
    var k :| 0 <= k < |g| && g[k] == s;
    assert MonthOf(s) in months;
    var m :| 0 <= m < |months| && months[m] == MonthOf(s);
    if m < |months| - 1 {
      assert IntLe(months[m], months[|months| - 1]);
    }
  }

  lemma VolumeGroupShape(df: seq<Shipment>, buyers: seq<Buyer>, k: int)
    ensures |VolumeGroups(df, buyers)(k)| <= 1
    ensures forall x :: x in VolumeGroups(df, buyers)(k) ==> BuyerTag(x) == Some(k)
  {
    assert VolumeGroups(df, buyers)(k) == VolumeCheck(buyers, k, Where(df, BuyerKey, k));
    VolumeCheckShape(buyers, k, Where(df, BuyerKey, k));
  }

  /** The volume detector raises at most one record per buyer. */
  lemma VolumeOnePerBuyer(df: seq<Shipment>, buyers: seq<Buyer>)
    ensures forall i, j :: 0 <= i < j < |VolumeRecords(df, buyers)| ==>
              VolumeRecords(df, buyers)[i].buyerId != VolumeRecords(df, buyers)[j].buyerId
  {
    var keys := Distinct(Column(df, BuyerKey));
    var f := VolumeGroups(df, buyers);
    var r := VolumeRecords(df, buyers);
    assert r == ConcatMap(keys, f);
    forall k | k in keys ensures |f(k)| <= 1 {
      VolumeGroupShape(df, buyers, k);
    }
    forall k, x | k in keys && x in f(k) ensures BuyerTag(x) == Some(k) {
      VolumeGroupShape(df, buyers, k);
    }
    ConcatMapOnePerKey(keys, f, BuyerTag);
    forall i, j | 0 <= i < j < |r| ensures r[i].buyerId != r[j].buyerId {
      assert BuyerTag(r[i]) != BuyerTag(r[j]);
    }
  }

  // ---------------------------------------------------------------------
  // The whole layer
  // ---------------------------------------------------------------------

  /** Every record of the statistical layer is tagged layer 2. */
  lemma StatRecordsLayerTwo(df: seq<Shipment>, catalog: seq<Product>, routes: seq<Route>, buyers: seq<Buyer>)
    ensures AllInLayer(StatRecords(df, catalog, routes, buyers), 2)
  {
    var r := StatRecords(df, catalog, routes, buyers);
    forall n | 0 <= n < |r| ensures r[n].layer == 2 {
      var a := r[n];
      assert a in r;
      if a in PriceRecords(df, catalog) {
        PriceRecordsSound(df, catalog, a);
      } else if a in TransitRecords(df, routes) {
        TransitRecordsSound(df, routes, a);
      } else if a in FreightRecords(df) {
        FreightRecordsSound(df, a);
      } else if a in PaymentRecords(df, buyers) {
        var keys := Distinct(Column(df, BuyerKey));
        ConcatMapMembers(keys, PaymentGroups(df, buyers), a);
        var k :| k in keys && a in PaymentGroups(df, buyers)(k);
        PaymentRecordFacts(df, buyers, k, a);
      } else {
        assert a in VolumeRecords(df, buyers);
        var keys := Distinct(Column(df, BuyerKey));
        ConcatMapMembers(keys, VolumeGroups(df, buyers), a);
        var k :| k in keys && a in VolumeGroups(df, buyers)(k);
        var last := VolumeRecordFacts(df, buyers, k, a);
      }
    }
  }

  // ---------------------------------------------------------------------
  // Proof helpers: real-arithmetic facts with no counterpart in the source,
  // used only inside the deviation proofs above
  // ---------------------------------------------------------------------

  lemma DivMul(x: real, y: real)
    requires y > 0.0
    ensures (x / y) * y == x
  {
  }
}
