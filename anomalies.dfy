/**
 * The anomaly record every layer emits, and the per-severity / per-type
 * summary the rule and statistical layers report over their records.
 */
module Anomalies {
  import opened Wrappers
  import opened Shipments

  datatype Severity = Critical | High | Medium | Low

  datatype AnomalyType =
    | PriceMismatch
    | IncotermFreightMismatch
    | IncotermExwError
    | InvalidDrawbackClaim
    | MissingPaymentDate
    | PaymentStatusInconsistent
    | ExcessiveInsurance
    | FobInsuranceMismatch
    | InvalidHsCodeFormat
    | PriceOutlier
    | TransitTimeOutlier
    | FreightCostOutlier
    | PaymentBehaviorDeterioration
    | VolumeSpike
    | HsCodeProductMismatch
    | ExtremeTransitDelay

  /** The tag written into the anomaly_type field of a record. */
  function TypeName(t: AnomalyType): string {
    match t
    case PriceMismatch => "PRICE_MISMATCH"
    case IncotermFreightMismatch => "INCOTERM_FREIGHT_MISMATCH"
    case IncotermExwError => "INCOTERM_EXW_ERROR"
    case InvalidDrawbackClaim => "INVALID_DRAWBACK_CLAIM"
    case MissingPaymentDate => "MISSING_PAYMENT_DATE"
    case PaymentStatusInconsistent => "PAYMENT_STATUS_INCONSISTENT"
    case ExcessiveInsurance => "EXCESSIVE_INSURANCE"
    case FobInsuranceMismatch => "FOB_INSURANCE_MISMATCH"
    case InvalidHsCodeFormat => "INVALID_HS_CODE_FORMAT"
    case PriceOutlier => "PRICE_OUTLIER"
    case TransitTimeOutlier => "TRANSIT_TIME_OUTLIER"
    case FreightCostOutlier => "FREIGHT_COST_OUTLIER"
    case PaymentBehaviorDeterioration => "PAYMENT_BEHAVIOR_DETERIORATION"
    case VolumeSpike => "VOLUME_SPIKE"
    case HsCodeProductMismatch => "HS_CODE_PRODUCT_MISMATCH"
    case ExtremeTransitDelay => "EXTREME_TRANSIT_DELAY"
  }

  /** The tag written into the severity field of a record. */
  function SeverityName(s: Severity): string {
    match s
    case Critical => "CRITICAL"
    case High => "HIGH"
    case Medium => "MEDIUM"
    case Low => "LOW"
  }

  /** The statistical envelope a layer-2 detector used: (lower, upper, Q1, Q3, IQR). */
  datatype Bounds = Bounds(lower: real, upper: real, q1: real, q3: real, iqr: real)

  /** One entry of the language model's JSON reply, as parsed. */
  datatype ParsedEntry = ParsedEntry(
    shipmentId: Option<int>,
    isMismatch: bool,          // truthiness of the is_mismatch value
    confidence: Option<real>,  // None when the key is absent
    reason: string)

  /** The evidence mapping, one variant per record shape. */
  datatype Evidence =
    | PriceMismatchEvidence(quantity: int, unitPrice: real, expectedTotalFob: real, actualTotalFob: real, discrepancy: real)
    | IncotermEvidence(incoterm: Incoterm, freightCost: real)
    | DrawbackEvidence(drawbackClaimed: real)
    | PaymentEvidence(paymentStatus: PaymentStatus, daysToPayment: Option<int>)
    | InsuranceEvidence(totalFob: real, insuranceAmount: real, percentage: real)
    | FobInsuranceEvidence(insuranceChargedToSeller: real)
    | HsFormatEvidence(hsCode: string, length: nat, containsLetters: bool)
    | PriceOutlierEvidence(productId: int, productName: string, unitPrice: real, standardPrice: real,
                           deviationPercent: real, bounds: Bounds, sampleSize: nat)
    | TransitEvidence(origin: string, destination: string, actualDays: int, expectedDays: real, delayDays: real,
                      containerType: string, bounds: Bounds, sampleSize: nat)
    | FreightEvidence(origin: string, destination: string, containerType: string, freightCost: real,
                      medianCost: real, excessOverMedian: real, bounds: Bounds, sampleSize: nat)
    | PaymentTrendEvidence(buyerId: int, buyerName: string, historicalAvg: real, recentAvg: real,
                           deterioration: real, lastPayments: seq<int>, expectedByContract: real,
                           historicalSampleSize: nat, recentSampleSize: nat)
    | VolumeEvidence(buyerId: int, buyerName: string, historicalAvgMonthly: real, latestMonthVolume: real,
                     spikeRatio: Option<real>,  // None: division by a zero average (inf)
                     creditLimit: Option<real>, monthsAnalyzed: nat)
    | HsMismatchEvidence(entry: ParsedEntry, confidence: real)
    | ExtremeDelayEvidence(actualDays: int, meanTransit: real, stdTransit: real, threshold: real)

  /**
   * An anomaly record.  Row-level findings carry a shipment id; buyer-level
   * findings carry a buyer id and the list of shipment ids they cite.
   * impactAmount is the money figure quoted in the impact text, if any.
   */
  datatype Anomaly = Anomaly(
    shipmentId: Option<int>,
    buyerId: Option<int>,
    shipmentIds: seq<int>,
    anomalyType: AnomalyType,
    layer: int,
    severity: Severity,
    evidence: Evidence,
    impactAmount: Option<real>)

  /** A row-level record. */
  function RowAnomaly(id: int, t: AnomalyType, layer: int, sev: Severity, ev: Evidence, impact: Option<real>): Anomaly
  {
    Anomaly(Some(id), None, [], t, layer, sev, ev, impact)
  }

  /** Every record of the list is tagged with the given layer. */
  predicate AllInLayer(anoms: seq<Anomaly>, layer: int) {
    forall i :: 0 <= i < |anoms| ==> anoms[i].layer == layer
  }

  // ---------------------------------------------------------------------
  // get_summary: total and value counts by severity and by type
  // ---------------------------------------------------------------------

  function CountSeverity(anoms: seq<Anomaly>, sev: Severity): (n: nat)
    ensures n <= |anoms|
  {
    if anoms == [] then 0
    else (if anoms[0].severity == sev then 1 else 0) + CountSeverity(anoms[1..], sev)
  }

  function CountType(anoms: seq<Anomaly>, t: AnomalyType): (n: nat)
    ensures n <= |anoms|
  {
    if anoms == [] then 0
    else (if anoms[0].anomalyType == t then 1 else 0) + CountType(anoms[1..], t)
  }

  datatype Summary = Summary(total: nat, bySeverity: map<Severity, nat>, byType: map<AnomalyType, nat>)

  function Lookup<K>(m: map<K, nat>, k: K): nat {
    if k in m then m[k] else 0
  }

  /** value_counts(): only the severities and types that occur appear, each with its count. */
  function Summarize(anoms: seq<Anomaly>): (r: Summary)
    ensures r.total == |anoms|
    ensures forall s :: s in r.bySeverity <==> CountSeverity(anoms, s) > 0
    ensures forall s :: Lookup(r.bySeverity, s) == CountSeverity(anoms, s)
    ensures forall t :: t in r.byType <==> CountType(anoms, t) > 0
    ensures forall t :: Lookup(r.byType, t) == CountType(anoms, t)
    ensures anoms == [] ==> r.bySeverity == map[] && r.byType == map[]
  {
    Summary(|anoms|,
            map s: Severity | CountSeverity(anoms, s) > 0 :: CountSeverity(anoms, s),
            map t: AnomalyType | CountType(anoms, t) > 0 :: CountType(anoms, t))
  }

  /** The severity counts of a list add up to its length. */
  lemma {:induction false} SeverityCountsSum(anoms: seq<Anomaly>)
    ensures CountSeverity(anoms, Critical) + CountSeverity(anoms, High) + CountSeverity(anoms, Medium)
            + CountSeverity(anoms, Low) == |anoms|
  {
    if anoms != [] {
      SeverityCountsSum(anoms[1..]);
    }
  }

  /** The summary's severity counts add up to its total. */
  lemma SummarySeveritiesAddUp(anoms: seq<Anomaly>)
    ensures var r := Summarize(anoms);
            Lookup(r.bySeverity, Critical) + Lookup(r.bySeverity, High) + Lookup(r.bySeverity, Medium)
            + Lookup(r.bySeverity, Low) == r.total
  {
    SeverityCountsSum(anoms);
  }

  lemma {:induction false} CountTypeAppend(a: seq<Anomaly>, b: seq<Anomaly>, t: AnomalyType)
    ensures CountType(a + b, t) == CountType(a, t) + CountType(b, t)
  {
    if a == [] {
      assert a + b == b;
    } else {
      assert (a + b)[1..] == a[1..] + b;
      CountTypeAppend(a[1..], b, t);
    }
  }

  /** How many records of a list are about the given shipment. */
  function CountFor(anoms: seq<Anomaly>, id: int): (n: nat)
    ensures n <= |anoms|
    ensures n == 0 <==> forall i :: 0 <= i < |anoms| ==> anoms[i].shipmentId != Some(id)
  {
    if anoms == [] then 0
    else
      var init := anoms[..|anoms| - 1];
      assert forall i :: 0 <= i < |init| ==> init[i] == anoms[i];
      CountFor(init, id) + (if anoms[|anoms| - 1].shipmentId == Some(id) then 1 else 0)
  }

  lemma CountForSingle(x: Anomaly, id: int)
    ensures CountFor([x], id) == if x.shipmentId == Some(id) then 1 else 0
  {
    assert [x][..0] == [];
  }

  lemma {:induction false} CountForAppend(a: seq<Anomaly>, b: seq<Anomaly>, id: int)
    ensures CountFor(a + b, id) == CountFor(a, id) + CountFor(b, id)
  {
    if b == [] {
      assert a + b == a;
    } else {
      var init := b[..|b| - 1];
      assert (a + b)[..|a + b| - 1] == a + init;
      CountForAppend(a, init, id);
    }
  }
}
