/**
 * Layer 1: deterministic business-rule checks.  Each check scans the whole
 * shipment table once and appends one record per row that breaks the rule;
 * run_all_rules runs the checks in a fixed order.
 */
module RuleEngine {
  import opened Wrappers
  import opened Text
  import opened Numeric
  import opened Shipments
  import opened Anomalies
  import Grouping

  /** The nine row predicates, in the order run_all_rules applies them. */
  datatype RuleCheck =
    | PriceCheck
    | CifFreightCheck
    | ExwFreightCheck
    | DrawbackCheck
    | MissingPaymentDateCheck
    | PaymentStatusCheck
    | ExcessiveInsuranceCheck
    | FobInsuranceCheck
    | HsCodeFormatCheck

  const RuleOrder: seq<RuleCheck> := [
    PriceCheck, CifFreightCheck, ExwFreightCheck, DrawbackCheck, MissingPaymentDateCheck,
    PaymentStatusCheck, ExcessiveInsuranceCheck, FobInsuranceCheck, HsCodeFormatCheck]

  function CalculatedFob(s: Shipment): real {
    s.quantity as real * s.unitPrice
  }

  /** |total_fob - quantity * unit_price|, the evidence's discrepancy. */
  function FobDifference(s: Shipment): real {
    Abs(s.totalFob - CalculatedFob(s))
  }

  /**
   * fob_difference_pct > 1.0, where the percentage divides by total_fob.
   * A zero total gives +inf (flagged) unless the calculated total is also
   * zero (NaN, not flagged); a negative total gives a ratio <= 0.
   */
  predicate PriceMismatchFires(s: Shipment) {
    if s.totalFob > 0.0 then FobDifference(s) / s.totalFob * 100.0 > 1.0
    else if s.totalFob == 0.0 then CalculatedFob(s) != 0.0
    else false
  }

  /** The row predicate of each check. */
  predicate Fires(rule: RuleCheck, s: Shipment) {
    match rule
    case PriceCheck => PriceMismatchFires(s)
    case CifFreightCheck => s.incoterm == CIF && s.freightCost == 0.0
    case ExwFreightCheck => s.incoterm == EXW && s.freightCost > 0.0
    case DrawbackCheck => s.customsStatus == Rejected && s.drawbackAmount > 0.0
    case MissingPaymentDateCheck => s.paymentStatus == Received && s.daysToPayment.None?
    case PaymentStatusCheck =>
      // a missing value compares false with both bounds
      s.paymentStatus == PaymentPending && s.daysToPayment.Some? && 0 < s.daysToPayment.value < 180
    case ExcessiveInsuranceCheck => s.insuranceAmount > s.totalFob * 0.02
    case FobInsuranceCheck => s.incoterm == FOB && s.insuranceAmount > 0.0
    case HsCodeFormatCheck => !(|s.hsCode| == 8 && AllDecimal(s.hsCode))
  }

  function RuleType(rule: RuleCheck): AnomalyType {
    match rule
    case PriceCheck => PriceMismatch
    case CifFreightCheck => IncotermFreightMismatch
    case ExwFreightCheck => IncotermExwError
    case DrawbackCheck => InvalidDrawbackClaim
    case MissingPaymentDateCheck => MissingPaymentDate
    case PaymentStatusCheck => PaymentStatusInconsistent
    case ExcessiveInsuranceCheck => ExcessiveInsurance
    case FobInsuranceCheck => FobInsuranceMismatch
    case HsCodeFormatCheck => InvalidHsCodeFormat
  }

  function RuleSeverity(rule: RuleCheck): Severity {
    match rule
    case PriceCheck => High
    case CifFreightCheck => Critical
    case ExwFreightCheck => High
    case DrawbackCheck => Critical
    case MissingPaymentDateCheck => Medium
    case PaymentStatusCheck => Medium
    case ExcessiveInsuranceCheck => Low
    case FobInsuranceCheck => Medium
    case HsCodeFormatCheck => Critical
  }

  /** Insurance as a percentage of FOB value, 0 when the FOB value is not positive. */
  function InsurancePercent(s: Shipment): real {
    if s.totalFob > 0.0 then s.insuranceAmount / s.totalFob * 100.0 else 0.0
  }

  function RuleEvidence(rule: RuleCheck, s: Shipment): Evidence {
    match rule
    case PriceCheck =>
      PriceMismatchEvidence(s.quantity, s.unitPrice, CalculatedFob(s), s.totalFob, FobDifference(s))
    case CifFreightCheck => IncotermEvidence(CIF, s.freightCost)
    case ExwFreightCheck => IncotermEvidence(EXW, s.freightCost)
    case DrawbackCheck => DrawbackEvidence(s.drawbackAmount)
    case MissingPaymentDateCheck => PaymentEvidence(Received, None)
    case PaymentStatusCheck => PaymentEvidence(PaymentPending, s.daysToPayment)
    case ExcessiveInsuranceCheck => InsuranceEvidence(s.totalFob, s.insuranceAmount, InsurancePercent(s))
    case FobInsuranceCheck => FobInsuranceEvidence(s.insuranceAmount)
    case HsCodeFormatCheck => HsFormatEvidence(s.hsCode, |s.hsCode|, !(|s.hsCode| > 0 && AllDigitChars(s.hsCode)))
  }

  /** The money figure the impact text quotes. */
  function RuleImpact(rule: RuleCheck, s: Shipment): Option<real> {
    match rule
    case PriceCheck => Some(FobDifference(s))
    case ExwFreightCheck => Some(s.freightCost)
    case DrawbackCheck => Some(s.drawbackAmount * 1.5)  // estimated penalty
    case ExcessiveInsuranceCheck => Some(s.insuranceAmount - s.totalFob * 0.02)
    case FobInsuranceCheck => Some(s.insuranceAmount)
    case _ => None
  }

  function Record(rule: RuleCheck, s: Shipment): (a: Anomaly) {
    RowAnomaly(s.id, RuleType(rule), 1, RuleSeverity(rule), RuleEvidence(rule, s), RuleImpact(rule, s))
  }

  /** What a check appends for one row: its record if the row fails, else nothing. */
  function RowRecords(rule: RuleCheck, s: Shipment): seq<Anomaly> {
    if Fires(rule, s) then [Record(rule, s)] else []
  }

  /** The records one check appends, one per failing row, in row order. */
  function Select(df: seq<Shipment>, rule: RuleCheck): seq<Anomaly> {
    if df == [] then []
    else
      var last := df[|df| - 1];
      Select(df[..|df| - 1], rule) + RowRecords(rule, last)
  }

  /** Scanning one more row appends that row's record, if it fails the check. */
  lemma SelectStep(df: seq<Shipment>, rule: RuleCheck, i: int)
    requires 0 <= i < |df|
    ensures Select(df[..i + 1], rule) == Select(df[..i], rule) + RowRecords(rule, df[i])
  {
    assert df[..i + 1][..i] == df[..i];
  }

  /** The checks' records concatenated in the order the checks run. */
  function RecordsOfChecks(df: seq<Shipment>, rules: seq<RuleCheck>): seq<Anomaly> {
    if rules == [] then [] else Select(df, rules[0]) + RecordsOfChecks(df, rules[1..])
  }

  /** Everything run_all_rules produces over a table. */
  function RuleRecords(df: seq<Shipment>): seq<Anomaly> {
    RecordsOfChecks(df, RuleOrder)
  }

  /** Running one more check appends its records after those of the checks before it. */
  lemma {:induction false} ChecksSnoc(df: seq<Shipment>, rules: seq<RuleCheck>, rule: RuleCheck)
    ensures RecordsOfChecks(df, rules + [rule]) == RecordsOfChecks(df, rules) + Select(df, rule)
  {
    if rules == [] {
      assert [rule][1..] == [];
    } else {
      assert (rules + [rule])[1..] == rules[1..] + [rule];
      ChecksSnoc(df, rules[1..], rule);
    }
  }

  lemma RuleRecordsUnfold(df: seq<Shipment>)
    ensures RuleRecords(df) == Select(df, PriceCheck) + Select(df, CifFreightCheck) + Select(df, ExwFreightCheck)
      + Select(df, DrawbackCheck) + Select(df, MissingPaymentDateCheck) + Select(df, PaymentStatusCheck)
      + Select(df, ExcessiveInsuranceCheck) + Select(df, FobInsuranceCheck) + Select(df, HsCodeFormatCheck)
  {
    var r0: seq<RuleCheck> := [];
    var r1 := r0 + [PriceCheck];
    var r2 := r1 + [CifFreightCheck];
    var r3 := r2 + [ExwFreightCheck];
    var r4 := r3 + [DrawbackCheck];
    var r5 := r4 + [MissingPaymentDateCheck];
    var r6 := r5 + [PaymentStatusCheck];
    var r7 := r6 + [ExcessiveInsuranceCheck];
    var r8 := r7 + [FobInsuranceCheck];
    var r9 := r8 + [HsCodeFormatCheck];
    assert r9 == RuleOrder;
    assert RecordsOfChecks(df, r0) == [];
    ChecksSnoc(df, r0, PriceCheck);
    assert RecordsOfChecks(df, r1) == Select(df, PriceCheck);
    ChecksSnoc(df, r1, CifFreightCheck);
    ChecksSnoc(df, r2, ExwFreightCheck);
    ChecksSnoc(df, r3, DrawbackCheck);
    ChecksSnoc(df, r4, MissingPaymentDateCheck);
    ChecksSnoc(df, r5, PaymentStatusCheck);
    ChecksSnoc(df, r6, ExcessiveInsuranceCheck);
    ChecksSnoc(df, r7, FobInsuranceCheck);
    ChecksSnoc(df, r8, HsCodeFormatCheck);
  }

  lemma AppendAssoc3(x: seq<Anomaly>, a: seq<Anomaly>, b: seq<Anomaly>)
    ensures x + (a + b) == (x + a) + b
  {
  }

  /** Appending the rule records to a list appends the nine checks' records one after another. */
  lemma AppendRuleRecords(x: seq<Anomaly>, df: seq<Shipment>)
    ensures x + RuleRecords(df) == x + Select(df, PriceCheck) + Select(df, CifFreightCheck) + Select(df, ExwFreightCheck)
      + Select(df, DrawbackCheck) + Select(df, MissingPaymentDateCheck) + Select(df, PaymentStatusCheck)
      + Select(df, ExcessiveInsuranceCheck) + Select(df, FobInsuranceCheck) + Select(df, HsCodeFormatCheck)
  {
    RuleRecordsUnfold(df);
    var r1 := Select(df, PriceCheck);
    var r2 := r1 + Select(df, CifFreightCheck);
    var r3 := r2 + Select(df, ExwFreightCheck);
    var r4 := r3 + Select(df, DrawbackCheck);
    var r5 := r4 + Select(df, MissingPaymentDateCheck);
    var r6 := r5 + Select(df, PaymentStatusCheck);
    var r7 := r6 + Select(df, ExcessiveInsuranceCheck);
    var r8 := r7 + Select(df, FobInsuranceCheck);
    var r9 := r8 + Select(df, HsCodeFormatCheck);
    AppendAssoc3(x, r1, Select(df, CifFreightCheck));
    AppendAssoc3(x, r2, Select(df, ExwFreightCheck));
    AppendAssoc3(x, r3, Select(df, DrawbackCheck));
    AppendAssoc3(x, r4, Select(df, MissingPaymentDateCheck));
    AppendAssoc3(x, r5, Select(df, PaymentStatusCheck));
    AppendAssoc3(x, r6, Select(df, ExcessiveInsuranceCheck));
    AppendAssoc3(x, r7, Select(df, FobInsuranceCheck));
    AppendAssoc3(x, r8, Select(df, HsCodeFormatCheck));
  }

  class RuleEngine {
    const df: seq<Shipment>
    const productCatalog: seq<Product>
    const routes: seq<Route>
    const buyers: seq<Buyer>
    var anomalies: seq<Anomaly>

    constructor (shipments: seq<Shipment>, catalog: seq<Product>, routeTable: seq<Route>, buyerTable: seq<Buyer>)
      ensures df == shipments && productCatalog == catalog && routes == routeTable && buyers == buyerTable
      ensures anomalies == []
    {
      df := shipments;
      productCatalog := catalog;
      routes := routeTable;
      buyers := buyerTable;
      anomalies := [];
    }

    /** Append the check's record for this row if the row fails the check. */
    method CheckRow(rule: RuleCheck, row: Shipment)
      modifies this
      ensures anomalies == old(anomalies) + RowRecords(rule, row)
    {
      if Fires(rule, row) {
        anomalies := anomalies + [Record(rule, row)];
      }
    }

    /** One pass over the table for one check. */
    method Scan(rule: RuleCheck)
      modifies this
      ensures anomalies == old(anomalies) + Select(df, rule)
    {
      ghost var start := anomalies;
      var i := 0;
      while i < |df|
        invariant 0 <= i <= |df|
        invariant anomalies == start + Select(df[..i], rule)
      {
        SelectStep(df, rule, i);
        Grouping.AppendAssoc(start, Select(df[..i], rule), RowRecords(rule, df[i]));
        CheckRow(rule, df[i]);
        i := i + 1;
      }
      assert df[..i] == df;
    }

    method CheckPriceMismatch()
      modifies this
      ensures anomalies == old(anomalies) + Select(df, PriceCheck)
    {
      Scan(PriceCheck);
    }

    method CheckIncotermCompliance()
      modifies this
      ensures anomalies == old(anomalies) + Select(df, CifFreightCheck) + Select(df, ExwFreightCheck)
    {
      Scan(CifFreightCheck);
      Scan(ExwFreightCheck);
    }

    method CheckDrawbackValidity()
      modifies this
      ensures anomalies == old(anomalies) + Select(df, DrawbackCheck)
    {
      Scan(DrawbackCheck);
    }

    method CheckPaymentConsistency()
      modifies this
      ensures anomalies == old(anomalies) + Select(df, MissingPaymentDateCheck) + Select(df, PaymentStatusCheck)
    {
      Scan(MissingPaymentDateCheck);
      Scan(PaymentStatusCheck);
    }

    method CheckInsuranceValidity()
      modifies this
      ensures anomalies == old(anomalies) + Select(df, ExcessiveInsuranceCheck) + Select(df, FobInsuranceCheck)
    {
      Scan(ExcessiveInsuranceCheck);
      Scan(FobInsuranceCheck);
    }

    method CheckHsCodeFormat()
      modifies this
      ensures anomalies == old(anomalies) + Select(df, HsCodeFormatCheck)
    {
      Scan(HsCodeFormatCheck);
    }

    /** All checks in order; returns the accumulated list. */
    method RunAllRules() returns (result: seq<Anomaly>)
      modifies this
      ensures anomalies == old(anomalies) + RuleRecords(df)
      ensures result == anomalies
    {
      CheckPriceMismatch();
      CheckIncotermCompliance();
      CheckDrawbackValidity();
      CheckPaymentConsistency();
      CheckInsuranceValidity();
      CheckHsCodeFormat();
      result := anomalies;
      AppendRuleRecords(old(anomalies), df);
    }

    /** get_summary over the records found so far. */
    function GetSummary(): (r: Summary)
      reads this
      ensures r.total == |anomalies|
      ensures Lookup(r.bySeverity, Critical) + Lookup(r.bySeverity, High) + Lookup(r.bySeverity, Medium)
              + Lookup(r.bySeverity, Low) == r.total
    {
      SummarySeveritiesAddUp(anomalies);
      Summarize(anomalies)
    }
  }

  // ---------------------------------------------------------------------
  // Properties of the rule layer
  // ---------------------------------------------------------------------

  /** How many rows with this id fail the check. */
  function FailingRows(df: seq<Shipment>, id: int, rule: RuleCheck): nat {
    if df == [] then 0
    else
      var last := df[|df| - 1];
      FailingRows(df[..|df| - 1], id, rule) + (if last.id == id && Fires(rule, last) then 1 else 0)
  }

  /** How many records of a list are about this shipment and of this type. */
  function CountKey(anoms: seq<Anomaly>, id: int, t: AnomalyType): nat {
    if anoms == [] then 0
    else (if anoms[0].shipmentId == Some(id) && anoms[0].anomalyType == t then 1 else 0) + CountKey(anoms[1..], id, t)
  }

  lemma {:induction false} CountKeyAppend(a: seq<Anomaly>, b: seq<Anomaly>, id: int, t: AnomalyType)
    ensures CountKey(a + b, id, t) == CountKey(a, id, t) + CountKey(b, id, t)
  {
    if a == [] {
      assert a + b == b;
    } else {
      assert (a + b)[1..] == a[1..] + b;
      CountKeyAppend(a[1..], b, id, t);
    }
  }

  /** Every record a check appends is layer 1 with the check's type and severity. */
  lemma {:induction false} SelectTyped(df: seq<Shipment>, rule: RuleCheck)
    ensures forall a :: a in Select(df, rule) ==>
              a.layer == 1 && a.anomalyType == RuleType(rule) && a.severity == RuleSeverity(rule)
  {
    if df != [] {
      SelectTyped(df[..|df| - 1], rule);
    }
  }

  /** A check appends a record only for a row that fails it. */
  lemma {:induction false} SelectSound(df: seq<Shipment>, rule: RuleCheck, a: Anomaly) returns (i: int)
    requires a in Select(df, rule)
    ensures 0 <= i < |df| && Fires(rule, df[i]) && a == Record(rule, df[i])
  {
    var prefix := df[..|df| - 1];
    if a in Select(prefix, rule) {
      i := SelectSound(prefix, rule, a);
      Grouping.SliceIndex(df, |df| - 1, i);
    } else {
      i := |df| - 1;
    }
  }

  /** Every row that fails a check gets that check's record. */
  lemma {:induction false} SelectComplete(df: seq<Shipment>, rule: RuleCheck, i: int)
    requires 0 <= i < |df| && Fires(rule, df[i])
    ensures Record(rule, df[i]) in Select(df, rule)
  {
    var prefix := df[..|df| - 1];
    if i < |df| - 1 {
      Grouping.SliceIndex(df, |df| - 1, i);
      SelectComplete(prefix, rule, i);
    }
  }

  /**
   * A check's output is exactly one record per failing row: layer 1, the
   * check's type and severity, in row order.
   */
  lemma SelectIsOneRecordPerFailingRow(df: seq<Shipment>, rule: RuleCheck)
    ensures AllInLayer(Select(df, rule), 1)
    ensures forall a :: a in Select(df, rule) ==> a.anomalyType == RuleType(rule) && a.severity == RuleSeverity(rule)
    ensures forall a :: a in Select(df, rule) <==> exists i :: 0 <= i < |df| && Fires(rule, df[i]) && a == Record(rule, df[i])
  {
    SelectTyped(df, rule);
    forall a | a in Select(df, rule)
      ensures exists i :: 0 <= i < |df| && Fires(rule, df[i]) && a == Record(rule, df[i])
    {
      var i := SelectSound(df, rule, a);
    }
    forall i | 0 <= i < |df| && Fires(rule, df[i])
      ensures Record(rule, df[i]) in Select(df, rule)
    {
      SelectComplete(df, rule, i);
    }
  }

  lemma {:induction false} SelectCountKey(df: seq<Shipment>, rule: RuleCheck, id: int, t: AnomalyType)
    ensures CountKey(Select(df, rule), id, t) == if t == RuleType(rule) then FailingRows(df, id, rule) else 0
  {
    if df != [] {
      var last := df[|df| - 1];
      var tail := RowRecords(rule, last);
      SelectCountKey(df[..|df| - 1], rule, id, t);
      CountKeyAppend(Select(df[..|df| - 1], rule), tail, id, t);
      CountKeyOfRow(rule, last, id, t);
    }
  }

  /** What one row adds to the count of a check's records. */
  lemma CountKeyOfRow(rule: RuleCheck, s: Shipment, id: int, t: AnomalyType)
    ensures CountKey(RowRecords(rule, s), id, t)
            == if s.id == id && Fires(rule, s) && t == RuleType(rule) then 1 else 0
  {
    if Fires(rule, s) {
      assert CountKey([Record(rule, s)], id, t)
             == (if s.id == id && t == RuleType(rule) then 1 else 0) + CountKey([], id, t);
    }
  }

  lemma RuleTypeInjective(r1: RuleCheck, r2: RuleCheck)
    ensures RuleType(r1) == RuleType(r2) ==> r1 == r2
  {
  }

  predicate NoDuplicateChecks(rules: seq<RuleCheck>) {
    forall i, j :: 0 <= i < j < |rules| ==> rules[i] != rules[j]
  }

  lemma {:induction false} ChecksCountKey(df: seq<Shipment>, rules: seq<RuleCheck>, rule: RuleCheck, id: int)
    requires NoDuplicateChecks(rules)
    ensures CountKey(RecordsOfChecks(df, rules), id, RuleType(rule)) == if rule in rules then FailingRows(df, id, rule) else 0
  {
    if rules != [] {
      assert NoDuplicateChecks(rules[1..]);
      ChecksCountKey(df, rules[1..], rule, id);
      CountKeyAppend(Select(df, rules[0]), RecordsOfChecks(df, rules[1..]), id, RuleType(rule));
      SelectCountKey(df, rules[0], id, RuleType(rule));
      RuleTypeInjective(rules[0], rule);
      if rules[0] == rule {
        assert rule !in rules[1..];
      } else {
        assert rule in rules <==> rule in rules[1..];
      }
    }
  }

  /** With unique ids, a row is counted once if it fails the check and not at all otherwise. */
  lemma {:induction false} FailingRowsUnique(df: seq<Shipment>, k: int, rule: RuleCheck)
    requires UniqueIds(df) && 0 <= k < |df|
    ensures FailingRows(df, df[k].id, rule) == if Fires(rule, df[k]) then 1 else 0
  {
    var n := |df|;
    var prefix := df[..n - 1];
    if k == n - 1 {
      FailingRowsAbsent(prefix, df[k].id, rule);
    } else {
      assert UniqueIds(prefix);
      FailingRowsUnique(prefix, k, rule);
      assert prefix[k] == df[k];
    }
  }

  lemma {:induction false} FailingRowsAbsent(df: seq<Shipment>, id: int, rule: RuleCheck)
    requires forall i :: 0 <= i < |df| ==> df[i].id != id
    ensures FailingRows(df, id, rule) == 0
  {
    if df != [] {
      FailingRowsAbsent(df[..|df| - 1], id, rule);
    }
  }

  /**
   * Over a table with unique ids, run_all_rules emits exactly one record of a
   * check's type for every row that fails the check, and none for a row that
   * passes it (so CIF with zero freight yields exactly one
   * INCOTERM_FREIGHT_MISMATCH, a received payment with a date never yields
   * MISSING_PAYMENT_DATE, and so on).
   */
  lemma ExactlyOneRecordPerFailure(df: seq<Shipment>, k: int, rule: RuleCheck)
    requires UniqueIds(df) && 0 <= k < |df|
    ensures CountKey(RuleRecords(df), df[k].id, RuleType(rule)) == if Fires(rule, df[k]) then 1 else 0
  {
    assert NoDuplicateChecks(RuleOrder);
    assert rule in RuleOrder;
    ChecksCountKey(df, RuleOrder, rule, df[k].id);
    FailingRowsUnique(df, k, rule);
  }

  /** Every record the rule layer emits is a layer-1 record. */
  lemma {:induction false} RuleRecordsAreLayerOne(df: seq<Shipment>, rules: seq<RuleCheck>)
    ensures AllInLayer(RecordsOfChecks(df, rules), 1)
  {
    if rules != [] {
      SelectIsOneRecordPerFailingRow(df, rules[0]);
      RuleRecordsAreLayerOne(df, rules[1..]);
    }
  }

  // ---------------------------------------------------------------------
  // Worked scenarios
  // ---------------------------------------------------------------------

  /** qty 1000 x 5.50 against a declared 7000: flagged HIGH, discrepancy 1500, about 21% of total_fob. */
  lemma PriceMismatchScenario(s: Shipment)
    requires s.quantity == 1000 && s.unitPrice == 5.5 && s.totalFob == 7000.0
    ensures Fires(PriceCheck, s)
    ensures Record(PriceCheck, s).severity == High
    ensures Record(PriceCheck, s).evidence.discrepancy == 1500.0
    ensures 21.0 < FobDifference(s) / s.totalFob * 100.0 < 22.0
  {
  }

  /** EXW with freight 2500: INCOTERM_EXW_ERROR, HIGH, evidence freight 2500. */
  lemma ExwScenario(s: Shipment)
    requires s.incoterm == EXW && s.freightCost == 2500.0
    ensures Fires(ExwFreightCheck, s) && !Fires(CifFreightCheck, s)
    ensures Record(ExwFreightCheck, s).severity == High
    ensures Record(ExwFreightCheck, s).evidence.freightCost == 2500.0
  {
  }

  /** A 7-digit code is flagged, an 8-digit one is not. */
  lemma HsCodeScenario(s: Shipment, t: Shipment)
    requires s.hsCode == "8471300" && t.hsCode == "84713000"
    ensures Fires(HsCodeFormatCheck, s) && Record(HsCodeFormatCheck, s).severity == Critical
    ensures !Fires(HsCodeFormatCheck, t)
  {
  }

  /**
   * Digits are Unicode digits, as `\d` and str.isdigit() read them: eight
   * Arabic-Indic digits pass the format check, and a superscript two is a
   * digit for the evidence but not for the format.
   */
  lemma UnicodeDigitScenario(s: Shipment, t: Shipment)
    requires s.hsCode == "\U{0660}\U{0661}\U{0662}\U{0663}\U{0664}\U{0665}\U{0666}\U{0667}"
    requires t.hsCode == "1234567\U{00B2}"
    ensures !Fires(HsCodeFormatCheck, s)
    ensures Fires(HsCodeFormatCheck, t)
    ensures Record(HsCodeFormatCheck, t).evidence == HsFormatEvidence(t.hsCode, 8, false)
  {
    assert t.hsCode[7] == '\U{00B2}' && !IsDecimal(t.hsCode[7]);
  }

  /** The two insurance checks are independent: an FOB row insured above 2% gets both records. */
  lemma InsuranceChecksIndependent(s: Shipment)
    requires s.incoterm == FOB && s.totalFob == 1000.0 && s.insuranceAmount == 50.0
    ensures Fires(ExcessiveInsuranceCheck, s) && Fires(FobInsuranceCheck, s)
  {
  }
}
