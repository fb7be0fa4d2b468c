/**
 * The two pieces of the dashboard that compute over the anomaly list: the
 * cost-savings estimate and the filter of the anomaly explorer.
 */
module Dashboard {
  import opened Wrappers
  import opened Shipments
  import opened Anomalies
  import opened Numeric
  import Pipeline
  import LlmDetector

  // ---------------------------------------------------------------------
  // calculate_cost_savings
  // ---------------------------------------------------------------------

  /** The five running totals of the savings estimate. */
  datatype Savings = Savings(
    directSavings: real,
    riskAvoidance: real,
    avoidedPenalties: real,
    preventedDisputes: real,
    insuranceOptimization: real)

  const NoSavings := Savings(0.0, 0.0, 0.0, 0.0, 0.0)

  function Plus(a: Savings, b: Savings): Savings {
    Savings(a.directSavings + b.directSavings, a.riskAvoidance + b.riskAvoidance,
            a.avoidedPenalties + b.avoidedPenalties, a.preventedDisputes + b.preventedDisputes,
            a.insuranceOptimization + b.insuranceOptimization)
  }

  // evidence.get(key, 0): the field when the evidence carries that key, else 0

  function EvidenceDiscrepancy(ev: Evidence): real {
    if ev.PriceMismatchEvidence? then ev.discrepancy else 0.0
  }

  function EvidenceFreightCost(ev: Evidence): real {
    match ev
    case IncotermEvidence(_, freightCost) => freightCost
    case FreightEvidence(_, _, _, freightCost, _, _, _, _) => freightCost
    case _ => 0.0
  }

  function EvidenceDrawbackClaimed(ev: Evidence): real {
    if ev.DrawbackEvidence? then ev.drawbackClaimed else 0.0
  }

  function EvidenceTotalFob(ev: Evidence): real {
    if ev.InsuranceEvidence? then ev.totalFob else 0.0
  }

  function EvidenceUnitPrice(ev: Evidence): real {
    match ev
    case PriceMismatchEvidence(_, unitPrice, _, _, _) => unitPrice
    case PriceOutlierEvidence(_, _, unitPrice, _, _, _, _) => unitPrice
    case _ => 0.0
  }

  function EvidenceStandardPrice(ev: Evidence): real {
    if ev.PriceOutlierEvidence? then ev.standardPrice else 0.0
  }

  /** The money one record adds to the totals; a type without a branch adds nothing. */
  function Increment(a: Anomaly): Savings {
    var ev := a.evidence;
    match a.anomalyType
    case PriceMismatch => NoSavings.(directSavings := Abs(EvidenceDiscrepancy(ev)))
    case IncotermFreightMismatch => NoSavings.(preventedDisputes := 500.0)
    case IncotermExwError => NoSavings.(directSavings := EvidenceFreightCost(ev))
    case InvalidDrawbackClaim => NoSavings.(avoidedPenalties := EvidenceDrawbackClaimed(ev) * 1.5)
    case ExcessiveInsurance => NoSavings.(insuranceOptimization := EvidenceTotalFob(ev) * 0.03)
    case InvalidHsCodeFormat => NoSavings.(preventedDisputes := 2500.0)
    case PriceOutlier => NoSavings.(directSavings := Abs((EvidenceUnitPrice(ev) - EvidenceStandardPrice(ev)) * 2430.0))
    case TransitTimeOutlier => NoSavings.(preventedDisputes := 1000.0)
    case PaymentBehaviorDeterioration => NoSavings.(riskAvoidance := 5000.0)
    case _ => NoSavings
  }

  /** The types calculate_cost_savings has a branch for. */
  predicate Priced(t: AnomalyType) {
    match t
    case PriceMismatch | IncotermFreightMismatch | IncotermExwError | InvalidDrawbackClaim | ExcessiveInsurance
       | InvalidHsCodeFormat | PriceOutlier | TransitTimeOutlier | PaymentBehaviorDeterioration => true
    case _ => false
  }

  /** The totals after the records of the list, in order, from zero. */
  function SavingsOf(anoms: seq<Anomaly>): Savings {
    if anoms == [] then NoSavings else Plus(SavingsOf(anoms[..|anoms| - 1]), Increment(anoms[|anoms| - 1]))
  }

  /** Walk the list once, adding each record's amount to the total its type names. */
  method CalculateCostSavings(anomalies: seq<Anomaly>) returns (savings: Savings)
    ensures savings == SavingsOf(anomalies)
  {
    savings := NoSavings;
    for i := 0 to |anomalies|
      invariant savings == SavingsOf(anomalies[..i])
    {
      SavingsStep(anomalies, i);
      savings := AddRecord(savings, anomalies[i]);
    }
    assert anomalies[..|anomalies|] == anomalies;
  }

  /** The elif chain of one iteration: the record's type picks the total and the amount. */
  method AddRecord(totals: Savings, anom: Anomaly) returns (savings: Savings)
    ensures savings == Plus(totals, Increment(anom))
  {
    savings := totals;
    var evidence := anom.evidence;
    match anom.anomalyType {
      case PriceMismatch =>
        savings := savings.(directSavings := savings.directSavings + Abs(EvidenceDiscrepancy(evidence)));
      case IncotermFreightMismatch =>
        savings := savings.(preventedDisputes := savings.preventedDisputes + 500.0);
      case IncotermExwError =>
        savings := savings.(directSavings := savings.directSavings + EvidenceFreightCost(evidence));
      case InvalidDrawbackClaim =>
        savings := savings.(avoidedPenalties := savings.avoidedPenalties + EvidenceDrawbackClaimed(evidence) * 1.5);
      case ExcessiveInsurance =>
        savings := savings.(insuranceOptimization := savings.insuranceOptimization + EvidenceTotalFob(evidence) * 0.03);
      case InvalidHsCodeFormat =>
        savings := savings.(preventedDisputes := savings.preventedDisputes + 2500.0);
      case PriceOutlier =>
        var gap := EvidenceUnitPrice(evidence) - EvidenceStandardPrice(evidence);
        savings := savings.(directSavings := savings.directSavings + Abs(gap * 2430.0));
      case TransitTimeOutlier =>
        savings := savings.(preventedDisputes := savings.preventedDisputes + 1000.0);
      case PaymentBehaviorDeterioration =>
        savings := savings.(riskAvoidance := savings.riskAvoidance + 5000.0);
      case _ =>
    }
  }

  lemma SavingsStep(anoms: seq<Anomaly>, i: nat)
    requires i < |anoms|
    ensures SavingsOf(anoms[..i + 1]) == Plus(SavingsOf(anoms[..i]), Increment(anoms[i]))
  {
    assert anoms[..i + 1][..i] == anoms[..i];
  }

  /** A record of a type without a branch leaves every total where it was. */
  lemma UnpricedAddsNothing(anoms: seq<Anomaly>, a: Anomaly)
    requires !Priced(a.anomalyType)
    ensures SavingsOf(anoms + [a]) == SavingsOf(anoms)
  {
    assert (anoms + [a])[..|anoms|] == anoms;
  }

  /** The totals of a concatenation are the sums of the totals of its parts. */
  lemma {:induction false} SavingsAppend(a: seq<Anomaly>, b: seq<Anomaly>)
    ensures SavingsOf(a + b) == Plus(SavingsOf(a), SavingsOf(b))
  {
    if b == [] {
      assert a + b == a;
    } else {
      var init := b[..|b| - 1];
      assert (a + b)[..|a + b| - 1] == a + init;
      SavingsAppend(a, init);
    }
  }

  /** The estimate does not depend on the order of two runs of records. */
  lemma SavingsOrderFree(a: seq<Anomaly>, b: seq<Anomaly>)
    ensures SavingsOf(a + b) == SavingsOf(b + a)
  {
    SavingsAppend(a, b);
    SavingsAppend(b, a);
  }

  lemma CountTypeSnoc(anoms: seq<Anomaly>, t: AnomalyType)
    requires anoms != []
    ensures CountType(anoms, t) == CountType(anoms[..|anoms| - 1], t) + (if anoms[|anoms| - 1].anomalyType == t then 1 else 0)
  {
    var last := anoms[|anoms| - 1];
    assert anoms == anoms[..|anoms| - 1] + [last];
    CountTypeAppend(anoms[..|anoms| - 1], [last], t);
  }

  /**
   * The flat amounts: 500 per Incoterm/freight mismatch, 2500 per malformed
   * HS code and 1000 per transit outlier are the prevented disputes, and
   * 5000 per deteriorating buyer the avoided risk.
   */
  lemma {:induction false} FlatAmounts(anoms: seq<Anomaly>)
    ensures SavingsOf(anoms).preventedDisputes
            == 500.0 * (CountType(anoms, IncotermFreightMismatch) as real)
               + 2500.0 * (CountType(anoms, InvalidHsCodeFormat) as real)
               + 1000.0 * (CountType(anoms, TransitTimeOutlier) as real)
    ensures SavingsOf(anoms).riskAvoidance == 5000.0 * (CountType(anoms, PaymentBehaviorDeterioration) as real)
  {
    if anoms != [] {
      FlatAmounts(anoms[..|anoms| - 1]);
      FlatIncrement(anoms[|anoms| - 1]);
      CountTypeSnoc(anoms, IncotermFreightMismatch);
      CountTypeSnoc(anoms, InvalidHsCodeFormat);
      CountTypeSnoc(anoms, TransitTimeOutlier);
      CountTypeSnoc(anoms, PaymentBehaviorDeterioration);
    }
  }

  lemma FlatIncrement(a: Anomaly)
    ensures Increment(a).preventedDisputes
            == (if a.anomalyType == IncotermFreightMismatch then 500.0 else 0.0)
               + (if a.anomalyType == InvalidHsCodeFormat then 2500.0 else 0.0)
               + (if a.anomalyType == TransitTimeOutlier then 1000.0 else 0.0)
    ensures Increment(a).riskAvoidance == if a.anomalyType == PaymentBehaviorDeterioration then 5000.0 else 0.0
  {
  }

  /** A list with no priced record saves nothing. */
  lemma {:induction false} NothingPricedNoSavings(anoms: seq<Anomaly>)
    requires forall i :: 0 <= i < |anoms| ==> !Priced(anoms[i].anomalyType)
    ensures SavingsOf(anoms) == NoSavings
  {
    if anoms != [] {
      NothingPricedNoSavings(anoms[..|anoms| - 1]);
    }
  }

  /** The price-based amounts are absolute values, so direct savings from them never go negative. */
  lemma {:induction false} PriceAmountsNonNegative(anoms: seq<Anomaly>)
    requires forall i :: 0 <= i < |anoms| ==> anoms[i].anomalyType != IncotermExwError
    ensures SavingsOf(anoms).directSavings >= 0.0
  {
    if anoms != [] {
      var init := anoms[..|anoms| - 1];
      assert forall i :: 0 <= i < |init| ==> init[i] == anoms[i];
      PriceAmountsNonNegative(init);
      DirectAmountNonNegative(anoms[|anoms| - 1]);
    }
  }

  lemma DirectAmountNonNegative(a: Anomaly)
    requires a.anomalyType != IncotermExwError
    ensures Increment(a).directSavings >= 0.0
  {
  }

  // ---------------------------------------------------------------------
  // The explorer filter
  // ---------------------------------------------------------------------

  /** The three fields the filter reads from a loaded record; None when the key is absent. */
  datatype ExplorerRow = ExplorerRow(severity: Option<string>, layer: Option<int>, anomalyType: Option<string>)

  /** The row a pipeline record becomes once written out. */
  function RowOf(a: Anomaly): ExplorerRow {
    ExplorerRow(Some(SeverityName(a.severity)), Some(a.layer), Some(TypeName(a.anomalyType)))
  }

  function RowsOf(anoms: seq<Anomaly>): (r: seq<ExplorerRow>)
    ensures |r| == |anoms| && forall i :: 0 <= i < |anoms| ==> r[i] == RowOf(anoms[i])
  {
    if anoms == [] then [] else RowsOf(anoms[..|anoms| - 1]) + [RowOf(anoms[|anoms| - 1])]
  }

  /** A row is shown when its severity (default MEDIUM), layer (default 2) and type (default "") are all selected. */
  predicate Selected(row: ExplorerRow, severities: seq<string>, layers: seq<int>, types: seq<string>) {
    row.severity.GetOr("MEDIUM") in severities
    && row.layer.GetOr(2) in layers
    && row.anomalyType.GetOr("") in types
  }

  /** The rows shown, in list order. */
  function Filtered(rows: seq<ExplorerRow>, severities: seq<string>, layers: seq<int>, types: seq<string>)
    : (r: seq<ExplorerRow>)
    ensures |r| <= |rows|
  {
    if rows == [] then []
    else
      var last := rows[|rows| - 1];
      Filtered(rows[..|rows| - 1], severities, layers, types)
      + (if Selected(last, severities, layers, types) then [last] else [])
  }

  /** A row is shown exactly when it is in the list and selected. */
  lemma {:induction false} FilteredMembers(rows: seq<ExplorerRow>, severities: seq<string>, layers: seq<int>,
                                           types: seq<string>)
    ensures forall x :: x in Filtered(rows, severities, layers, types)
                        <==> x in rows && Selected(x, severities, layers, types)
  {
    if rows != [] {
      FilteredMembers(rows[..|rows| - 1], severities, layers, types);
      assert rows == rows[..|rows| - 1] + [rows[|rows| - 1]];
    }
  }

  /** Filtering a concatenation filters each part: the shown rows keep the list's order. */
  lemma {:induction false} FilteredAppend(a: seq<ExplorerRow>, b: seq<ExplorerRow>, severities: seq<string>,
                                          layers: seq<int>, types: seq<string>)
    ensures Filtered(a + b, severities, layers, types)
            == Filtered(a, severities, layers, types) + Filtered(b, severities, layers, types)
  {
    if b == [] {
      assert a + b == a;
    } else {
      var init := b[..|b| - 1];
      assert (a + b)[..|a + b| - 1] == a + init;
      FilteredAppend(a, init, severities, layers, types);
    }
  }

  /** Filtering twice with the same selection shows the same rows. */
  lemma {:induction false} FilteredIdempotent(rows: seq<ExplorerRow>, severities: seq<string>, layers: seq<int>,
                                              types: seq<string>)
    ensures Filtered(Filtered(rows, severities, layers, types), severities, layers, types)
            == Filtered(rows, severities, layers, types)
  {
    if rows != [] {
      var init := rows[..|rows| - 1];
      var last := rows[|rows| - 1];
      var f := Filtered(init, severities, layers, types);
      FilteredIdempotent(init, severities, layers, types);
      FilteredAppend(f, [last], severities, layers, types);
      assert [last][..0] == [];
      if Selected(last, severities, layers, types) {
        assert Filtered([last], severities, layers, types) == [last];
        assert Filtered(rows, severities, layers, types) == f + [last];
      } else {
        assert Filtered([last], severities, layers, types) == [];
        assert Filtered(rows, severities, layers, types) == f;
      }
    }
  }

  /** A record without the three keys is read as a MEDIUM layer-2 record of type "". */
  lemma MissingKeysReadDefaults(severities: seq<string>, layers: seq<int>, types: seq<string>)
    ensures Selected(ExplorerRow(None, None, None), severities, layers, types)
            <==> "MEDIUM" in severities && 2 in layers && "" in types
  {
  }

  /** The whole selection (every severity, layers 1 to 3, every type) shows every pipeline record. */
  lemma FullSelectionShowsAll(df: seq<Shipment>, catalog: seq<Product>, routes: seq<Route>, buyers: seq<Buyer>,
                              client: Option<LlmDetector.Client>, std: Option<real>, types: seq<string>)
    requires forall t :: TypeName(t) in types
    ensures var rows := RowsOf(Pipeline.PipelineRecords(df, catalog, routes, buyers, client, std));
            Filtered(rows, ["CRITICAL", "HIGH", "MEDIUM", "LOW"], [1, 2, 3], types) == rows
  {
    Pipeline.PipelineLayersOrdered(df, catalog, routes, buyers, client, std);
    LayersOneToThreeShown(Pipeline.PipelineRecords(df, catalog, routes, buyers, client, std), types);
  }

  lemma LayersOneToThreeShown(anoms: seq<Anomaly>, types: seq<string>)
    requires forall t :: TypeName(t) in types
    requires forall k :: 0 <= k < |anoms| ==> 1 <= anoms[k].layer <= 3
    ensures Filtered(RowsOf(anoms), ["CRITICAL", "HIGH", "MEDIUM", "LOW"], [1, 2, 3], types) == RowsOf(anoms)
  {
    forall k | 0 <= k < |anoms|
      ensures anoms[k].layer in [1, 2, 3]
    {
      var l := anoms[k].layer;
      assert l == 1 || l == 2 || l == 3;
    }
    forall s: Severity
      ensures SeverityName(s) in ["CRITICAL", "HIGH", "MEDIUM", "LOW"]
    {
    }
    AllRowsShown(anoms, ["CRITICAL", "HIGH", "MEDIUM", "LOW"], [1, 2, 3], types);
  }

  lemma {:induction false} AllRowsShown(anoms: seq<Anomaly>, severities: seq<string>, layers: seq<int>,
                                        types: seq<string>)
    requires forall s :: SeverityName(s) in severities
    requires forall t :: TypeName(t) in types
    requires forall k :: 0 <= k < |anoms| ==> anoms[k].layer in layers
    ensures Filtered(RowsOf(anoms), severities, layers, types) == RowsOf(anoms)
  {
    if anoms != [] {
      var init := anoms[..|anoms| - 1];
      AllRowsShown(init, severities, layers, types);
      assert RowsOf(anoms)[..|anoms| - 1] == RowsOf(init);
    }
  }
}
