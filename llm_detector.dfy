/**
 * Layer 3, the deterministic part of the language-model detector: it picks
 * the top-decile shipments by FOB value, joins them with the catalog, skips
 * the ones whose HS prefix clearly matches the product's keywords, and sends
 * the rest to the model in batches of at most 15, replaying cached replies.
 * Only confident mismatches (confidence >= 0.8) become HIGH records.  A
 * second check flags transit times above mean + 3 standard deviations.
 *
 * The model itself is a Client value: the reply to a batch (or a raised
 * error), the prompt text sent for it, and the JSON parser.
 */
module LlmDetector {
  import opened Wrappers
  import opened Text
  import opened Numeric
  import opened Shipments
  import opened Anomalies
  import opened Quantiles
  import opened Grouping

  /** A candidate shipment joined with its catalog product, as sent to the model. */
  datatype Enriched = Enriched(shipmentId: int, hsCode: string, productName: string, description: string,
                               material: string, category: string, fobValue: real)

  /** What the chat endpoint answers for a batch: an error, or the reply text. */
  datatype Reply = Raised | Content(text: string)

  /**
   * The model behind the client: its reply to a batch, the prompt rendered
   * for the batch (whose words are counted), and json.loads on a reply
   * slice (None when it does not parse).
   */
  datatype Client = Client(
    complete: seq<Enriched> -> Reply,
    render: seq<Enriched> -> string,
    parse: string -> Option<seq<ParsedEntry>>)

  // ---------------------------------------------------------------------
  // Candidate selection and enrichment
  // ---------------------------------------------------------------------

  const CandidateQuantile: real := 0.9

  function TotalFob(s: Shipment): real { s.totalFob }

  function FobColumn(df: seq<Shipment>): (r: seq<real>)
    ensures |r| == |df| && forall i :: 0 <= i < |df| ==> r[i] == df[i].totalFob
  {
    if df == [] then [] else FobColumn(df[..|df| - 1]) + [df[|df| - 1].totalFob]
  }

  /** The rows whose FOB value is at least the threshold, in row order. */
  function AtLeast(df: seq<Shipment>, threshold: real): (r: seq<Shipment>)
    ensures |r| <= |df|
    ensures forall s :: s in r <==> s in df && s.totalFob >= threshold
  {
    if df == [] then []
    else
      var last := df[|df| - 1];
      assert df == df[..|df| - 1] + [last];
      AtLeast(df[..|df| - 1], threshold) + (if last.totalFob >= threshold then [last] else [])
  }

  /** The filter keeps row order: it distributes over concatenation. */
  lemma {:induction false} AtLeastAppend(a: seq<Shipment>, b: seq<Shipment>, threshold: real)
    ensures AtLeast(a + b, threshold) == AtLeast(a, threshold) + AtLeast(b, threshold)
  {
    if b == [] {
      assert a + b == a;
    } else {
      var init := b[..|b| - 1];
      assert (a + b)[..|a + b| - 1] == a + init;
      AtLeastAppend(a, init, threshold);
    }
  }

  /**
   * The rows at or above the 90th percentile of total FOB.  An empty frame
   * has a NaN percentile, which no row reaches.
   */
  function Candidates(df: seq<Shipment>): seq<Shipment> {
    if df == [] then [] else AtLeast(df, Quantile(FobColumn(df), CandidateQuantile))
  }

  /** A row with the largest FOB value is always a candidate. */
  lemma TopRowIsCandidate(df: seq<Shipment>, i: int)
    requires 0 <= i < |df|
    requires forall j :: 0 <= j < |df| ==> df[j].totalFob <= df[i].totalFob
    ensures df[i] in Candidates(df)
  {
    var xs := FobColumn(df);
    var s := SortReals(xs);
    QuantileBetween(s, CandidateQuantile);
    assert s[|s| - 1] in multiset(xs);
    var j :| 0 <= j < |xs| && xs[j] == s[|s| - 1];
    assert Quantile(xs, CandidateQuantile) <= df[i].totalFob;
  }

  function EnrichRow(s: Shipment, p: Product): Enriched {
    Enriched(s.id, s.hsCode, p.name, p.description, p.material, p.category, s.totalFob)
  }

  /** The rows whose product is in the catalog, joined with it, in row order; the others are dropped. */
  function Enrich(rows: seq<Shipment>, catalog: seq<Product>): (r: seq<Enriched>)
    ensures |r| <= |rows|
  {
    if rows == [] then []
    else
      var s := rows[|rows| - 1];
      Enrich(rows[..|rows| - 1], catalog) + EnrichOne(s, catalog)
  }

  /** One row joined with its product, or nothing when the catalog lacks it. */
  function EnrichOne(s: Shipment, catalog: seq<Product>): (r: seq<Enriched>)
    ensures |r| <= 1
  {
    match FindProduct(catalog, s.productId)
    case Some(p) => [EnrichRow(s, p)]
    case None => []
  }

  /** Row i of the list, joined with its catalog product, is the entry e. */
  predicate JoinedAt(rows: seq<Shipment>, catalog: seq<Product>, i: int, e: Enriched) {
    0 <= i < |rows| && FindProduct(catalog, rows[i].productId).Some?
    && e == EnrichRow(rows[i], FindProduct(catalog, rows[i].productId).value)
  }

  /** An enriched entry comes from exactly a row whose product the catalog lists. */
  lemma EnrichMembers(rows: seq<Shipment>, catalog: seq<Product>, e: Enriched)
    ensures e in Enrich(rows, catalog) <==> exists i :: JoinedAt(rows, catalog, i, e)
  {
    if e in Enrich(rows, catalog) {
      EnrichedFromRow(rows, catalog, e);
    }
    if exists i :: JoinedAt(rows, catalog, i, e) {
      var i :| JoinedAt(rows, catalog, i, e);
      RowEnriched(rows, catalog, i, e);
    }
  }

  lemma {:induction false} EnrichedFromRow(rows: seq<Shipment>, catalog: seq<Product>, e: Enriched)
    requires e in Enrich(rows, catalog)
    ensures exists i :: JoinedAt(rows, catalog, i, e)
  {
    var init := rows[..|rows| - 1];
    var last := rows[|rows| - 1];
    assert Enrich(rows, catalog) == Enrich(init, catalog) + EnrichOne(last, catalog);
    if e in Enrich(init, catalog) {
      EnrichedFromRow(init, catalog, e);
      var i :| JoinedAt(init, catalog, i, e);
      assert JoinedAt(rows, catalog, i, e);
    } else {
      assert JoinedAt(rows, catalog, |rows| - 1, e);
    }
  }

  lemma {:induction false} RowEnriched(rows: seq<Shipment>, catalog: seq<Product>, i: int, e: Enriched)
    requires JoinedAt(rows, catalog, i, e)
    ensures e in Enrich(rows, catalog)
  {
    var init := rows[..|rows| - 1];
    var last := rows[|rows| - 1];
    assert Enrich(rows, catalog) == Enrich(init, catalog) + EnrichOne(last, catalog);
    if i < |rows| - 1 {
      assert JoinedAt(init, catalog, i, e);
      RowEnriched(init, catalog, i, e);
    }
  }

  // ---------------------------------------------------------------------
  // The keyword pre-filter
  // ---------------------------------------------------------------------

  /** The keywords that confirm an HS chapter, for the eight chapters the filter knows. */
  function RuleKeywords(prefix: string): Option<seq<string>> {
    if prefix == "61" then Some(["shirt", "knit", "sweater", "jersey", "apparel", "garment"])
    else if prefix == "62" then Some(["apparel", "clothing", "fabric", "textile", "cotton", "dress"])
    else if prefix == "69" then Some(["ceramic", "tile", "pottery", "clay"])
    else if prefix == "73" then Some(["fastener", "bolt", "screw", "nut", "stainless", "metal"])
    else if prefix == "72" then Some(["iron", "steel", "metal bar", "plate", "coil", "rod"])
    else if prefix == "84" then Some(["machine", "engine", "motor", "pump", "compressor", "equipment"])
    else if prefix == "85" then Some(["electric", "electronic", "led", "light", "circuit", "transformer"])
    else if prefix == "94" then Some(["chair", "furniture", "wood", "teak", "sofa", "table", "desk"])
    else None
  }

  /** The first two characters of the stripped code, or "" for a shorter code. */
  function HsPrefix(code: string): (r: string)
    ensures |r| == 2 || r == []
  {
    var h := Strip(code);
    if |h| >= 2 then h[..2] else ""
  }

  /** "name material category", lower-cased. */
  function MatchText(e: Enriched): string {
    Lower(e.productName + " " + e.material + " " + e.category)
  }

  predicate AnyContains(text: string, keywords: seq<string>) {
    exists k :: 0 <= k < |keywords| && Contains(text, keywords[k])
  }

  /** The code's chapter is one the filter knows and the text names one of its keywords. */
  predicate IsObviousMatch(e: Enriched) {
    match RuleKeywords(HsPrefix(e.hsCode))
    case None => false
    case Some(keywords) => AnyContains(MatchText(e), keywords)
  }

  /** The filter knows exactly the chapters 61, 62, 69, 72, 73, 84, 85 and 94. */
  lemma KnownChapters(prefix: string)
    ensures RuleKeywords(prefix).Some? <==>
            prefix in ["61", "62", "69", "72", "73", "84", "85", "94"]
  {
  }

  /** A code of fewer than two characters, or of an unknown chapter, is never an obvious match. */
  lemma UnknownChapterNotObvious(e: Enriched)
    requires |Strip(e.hsCode)| < 2 || RuleKeywords(Strip(e.hsCode)[..2]).None?
    ensures !IsObviousMatch(e)
  {
  }

  /** The product description plays no part in the filter. */
  lemma DescriptionIgnored(e: Enriched, d: string)
    ensures IsObviousMatch(e.(description := d)) == IsObviousMatch(e)
  {
  }

  /** A keyword found at a known position makes the entry an obvious match for its chapter. */
  lemma ObviousByKeyword(e: Enriched, k: int, at: int)
    requires RuleKeywords(HsPrefix(e.hsCode)).Some?
    requires var keywords := RuleKeywords(HsPrefix(e.hsCode)).value;
             0 <= k < |keywords| && OccursAt(MatchText(e), keywords[k], at)
    ensures IsObviousMatch(e)
  {
  }

  /** A furniture code on a chair is an obvious match and is not sent to the model. */
  lemma ChairIsObvious(e: Enriched)
    requires e.hsCode == "9401" && e.productName == "Chair" && e.material == "" && e.category == ""
    ensures IsObviousMatch(e)
  {
    assert e.hsCode[0] == '9' && e.hsCode[3] == '1';
    StripUnchanged(e.hsCode);
    assert HsPrefix(e.hsCode) == "94";
    var text := MatchText(e);
    assert |text| == 7;
    assert text[..5] == "chair";
    ObviousByKeyword(e, 0, 0);
  }

  /** The Kelvin sign lower-cases to 'k', so a "DESK" spelt with it still matches 'desk'. */
  lemma KelvinDeskIsObvious(e: Enriched)
    requires e.hsCode == "9403" && e.productName == "DES\U{212A}" && e.material == "" && e.category == ""
    ensures IsObviousMatch(e)
  {
    assert e.hsCode[0] == '9' && e.hsCode[3] == '3';
    StripUnchanged(e.hsCode);
    assert HsPrefix(e.hsCode) == "94";
    var text := MatchText(e);
    assert |text| == 6;
    assert text[..4] == "desk";
    ObviousByKeyword(e, 6, 0);
  }

  /** The entries the filter cannot settle, in order. */
  function Uncertain(entries: seq<Enriched>): (r: seq<Enriched>)
    ensures |r| <= |entries|
    ensures forall e :: e in r <==> e in entries && !IsObviousMatch(e)
  {
    if entries == [] then []
    else
      var last := entries[|entries| - 1];
      assert entries == entries[..|entries| - 1] + [last];
      Uncertain(entries[..|entries| - 1]) + (if IsObviousMatch(last) then [] else [last])
  }

  // ---------------------------------------------------------------------
  // Batching
  // ---------------------------------------------------------------------

  const MaxPerCall: nat := 15

  /** range(0, len(xs), n): consecutive slices of n, the last one possibly shorter. */
  function Slices<T>(xs: seq<T>, n: nat): (r: seq<seq<T>>)
    requires n > 0
    ensures forall k :: 0 <= k < |r| ==> 0 < |r[k]| <= n
    decreases |xs|
  {
    if xs == [] then []
    else if |xs| <= n then [xs]
    else [xs[..n]] + Slices(xs[n..], n)
  }

  /** What is left of xs after the first i values (nothing once i passes the end). */
  function Drop<T>(xs: seq<T>, i: nat): seq<T> {
    if i <= |xs| then xs[i..] else []
  }

  lemma SlicesStep<T>(xs: seq<T>, n: nat, i: nat)
    requires n > 0 && i < |xs|
    ensures var end := if i + n <= |xs| then i + n else |xs|;
            Slices(Drop(xs, i), n) == [xs[i..end]] + Slices(Drop(xs, i + n), n)
  {
    if i + n >= |xs| {
      assert Drop(xs, i + n) == [];
      var rest := Drop(xs, i);
      assert rest == xs[i..] && 0 < |rest| <= n;
      assert Slices(rest, n) == [rest];
      assert Slices(Drop(xs, i + n), n) == [];
      assert xs[i..|xs|] == rest;
    } else {
      var rest := Drop(xs, i);
      assert |rest| > n;
      assert rest[..n] == xs[i..i + n];
      assert rest[n..] == Drop(xs, i + n);
    }
  }

  function Flatten<T>(bs: seq<seq<T>>): seq<T> {
    if bs == [] then [] else bs[0] + Flatten(bs[1..])
  }

  /** The slices put back together give the list again. */
  lemma {:induction false} SlicesFlatten<T>(xs: seq<T>, n: nat)
    requires n > 0
    ensures Flatten(Slices(xs, n)) == xs
    decreases |xs|
  {
    if |xs| > n {
      SlicesFlatten(xs[n..], n);
      assert xs == xs[..n] + xs[n..];
    }
  }

  /** The part of a batch one call carries: its first 15 entries. */
  function CallData(batch: seq<Enriched>): (r: seq<Enriched>)
    ensures |r| <= MaxPerCall && |r| <= |batch| && r == batch[..|r|]
    ensures |batch| <= MaxPerCall ==> r == batch
  {
    if |batch| <= MaxPerCall then batch else batch[..MaxPerCall]
  }

  /** The entries the calls carry, batch after batch. */
  function Sent(bs: seq<seq<Enriched>>): seq<Enriched> {
    if bs == [] then [] else CallData(bs[0]) + Sent(bs[1..])
  }

  /** With slices of at most 15, every uncertain entry is carried exactly once, in order. */
  lemma {:induction false} EverySentOnce(xs: seq<Enriched>, n: nat)
    requires 0 < n <= MaxPerCall
    ensures Sent(Slices(xs, n)) == xs
    decreases |xs|
  {
    if |xs| > n {
      var bs := Slices(xs, n);
      assert bs[0] == xs[..n] && bs[1..] == Slices(xs[n..], n);
      assert CallData(xs[..n]) == xs[..n];
      EverySentOnce(xs[n..], n);
      calc {
        Sent(bs);
        CallData(bs[0]) + Sent(bs[1..]);
        xs[..n] + xs[n..];
        xs;
      }
    } else if xs != [] {
      assert Slices(xs, n) == [xs];
      assert Sent([xs]) == CallData(xs) + Sent([]);
    }
  }

  // ---------------------------------------------------------------------
  // Replies
  // ---------------------------------------------------------------------

  /**
   * content[find('['): rfind(']') + 1]; None when there is no '[' or the
   * slice is empty (json.loads fails on it).
   */
  function ExtractArrayText(content: string): (r: Option<string>)
    ensures r.Some? ==> |r.value| >= 2 && r.value[0] == '[' && r.value[|r.value| - 1] == ']'
    ensures r.Some? ==> exists i :: ArraySliceAt(content, r.value, i)
    ensures r.Some? <==> exists i, j :: 0 <= i < j < |content| && content[i] == '[' && content[j] == ']'
  {
    match IndexOf(content, '[')
    case None => None
    case Some(start) =>
      match LastIndexOf(content, ']')
      case None => None
      case Some(end) =>
        if end > start then
          assert ArraySliceAt(content, content[start..end + 1], start);
          Some(content[start..end + 1])
        else
          assert forall i, j :: 0 <= i < j < |content| && content[i] == '[' && content[j] == ']' ==> false by {
            forall i, j | 0 <= i < j < |content| && content[i] == '[' && content[j] == ']' ensures false {
            }
          }
          None
  }

  /** t sits at index i of content, with no '[' before it and no ']' after it. */
  predicate ArraySliceAt(content: string, t: string, i: int) {
    0 <= i <= |content| - |t| && content[i..i + |t|] == t
    && '[' !in content[..i] && ']' !in content[i + |t|..]
  }

  /** The parsed reply: [] when there is no array text or it does not parse. */
  function ParseReply(client: Client, content: string): seq<ParsedEntry> {
    match ExtractArrayText(content)
    case None => []
    case Some(t) => client.parse(t).GetOr([])
  }

  const MinConfidence: real := 0.8

  /** A kept entry: truthy is_mismatch and confidence at least 0.8 (a missing confidence counts as 0). */
  predicate IsConfident(e: ParsedEntry) {
    e.isMismatch && e.confidence.GetOr(0.0) >= MinConfidence
  }

  /** The confident mismatches, in reply order. */
  function Confident(entries: seq<ParsedEntry>): (r: seq<ParsedEntry>)
    ensures |r| <= |entries|
    ensures forall e :: e in r <==> e in entries && IsConfident(e)
  {
    if entries == [] then []
    else
      var last := entries[|entries| - 1];
      assert entries == entries[..|entries| - 1] + [last];
      Confident(entries[..|entries| - 1]) + (if IsConfident(last) then [last] else [])
  }

  /** The filter keeps reply order: it distributes over concatenation. */
  lemma {:induction false} ConfidentAppend(a: seq<ParsedEntry>, b: seq<ParsedEntry>)
    ensures Confident(a + b) == Confident(a) + Confident(b)
  {
    if b == [] {
      assert a + b == a;
    } else {
      var init := b[..|b| - 1];
      assert (a + b)[..|a + b| - 1] == a + init;
      ConfidentAppend(a, init);
    }
  }

  predicate AllConfident(entries: seq<ParsedEntry>) {
    forall k :: 0 <= k < |entries| ==> IsConfident(entries[k])
  }

  /** One HIGH layer-3 record per mismatch. */
  function HsRecord(e: ParsedEntry): Anomaly {
    Anomaly(e.shipmentId, None, [], HsCodeProductMismatch, 3, High,
            HsMismatchEvidence(e, e.confidence.GetOr(MinConfidence)), None)
  }

  function HsRecords(entries: seq<ParsedEntry>): (r: seq<Anomaly>)
    ensures |r| == |entries|
    ensures forall k :: 0 <= k < |entries| ==> r[k] == HsRecord(entries[k])
  {
    if entries == [] then [] else HsRecords(entries[..|entries| - 1]) + [HsRecord(entries[|entries| - 1])]
  }

  /**
   * Each record of a confident mismatch list names the entry's shipment,
   * is an HS mismatch of layer 3 and severity HIGH, and quotes a
   * confidence of at least 0.8.
   */
  lemma HsRecordsFacts(entries: seq<ParsedEntry>)
    requires AllConfident(entries)
    ensures var r := HsRecords(entries);
            AllInLayer(r, 3) &&
            forall k :: 0 <= k < |r| ==>
              r[k].shipmentId == entries[k].shipmentId && r[k].anomalyType == HsCodeProductMismatch
              && r[k].severity == High && r[k].evidence.confidence >= MinConfidence
  {
  }

  // ---------------------------------------------------------------------
  // Token estimate
  // ---------------------------------------------------------------------

  /** max(1, int(words x 1.3)): never below one, never below the word count. */
  function EstimateTokens(text: string): (r: nat)
    ensures r >= 1 && r >= WordCount(text)
  {
    var w := WordCount(text);
    var est := (w as real * 1.3).Floor;
    assert w <= est;
    if est > 1 then est else 1
  }

  /** Above the floor of one, the estimate is at most 1.3 tokens per word. */
  lemma EstimateTokensAtMost(text: string)
    ensures var r := EstimateTokens(text);
            r == 1 || r as real <= WordCount(text) as real * 1.3
  {
  }

  // ---------------------------------------------------------------------
  // Extreme transit delays
  // ---------------------------------------------------------------------

  function DaysColumn(df: seq<Shipment>): (r: seq<real>)
    ensures |r| == |df| && forall i :: 0 <= i < |df| ==> r[i] == df[i].daysInTransit as real
  {
    if df == [] then [] else DaysColumn(df[..|df| - 1]) + [df[|df| - 1].daysInTransit as real]
  }

  function ExtremeThreshold(mean: real, std: real): real {
    mean + 3.0 * std
  }

  function ExtremeRecord(s: Shipment, mean: real, std: real): Anomaly {
    RowAnomaly(s.id, ExtremeTransitDelay, 3, Medium,
               ExtremeDelayEvidence(s.daysInTransit, mean, std, ExtremeThreshold(mean, std)), None)
  }

  /** One MEDIUM record per row whose transit time exceeds the threshold, in row order. */
  function ExtremeRows(df: seq<Shipment>, mean: real, std: real): (r: seq<Anomaly>)
    ensures |r| <= |df|
  {
    if df == [] then []
    else
      var s := df[|df| - 1];
      ExtremeRows(df[..|df| - 1], mean, std)
        + (if s.daysInTransit as real > ExtremeThreshold(mean, std) then [ExtremeRecord(s, mean, std)] else [])
  }

  /**
   * The extreme-delay records, given the sample standard deviation of the
   * transit times (None when it is NaN, i.e. fewer than two rows).
   */
  function ExtremeRecords(df: seq<Shipment>, std: Option<real>): seq<Anomaly> {
    var mean := Mean(DaysColumn(df));
    if mean.None? || std.None? then [] else ExtremeRows(df, mean.value, std.value)
  }

  lemma ExtremeRowsMembers(df: seq<Shipment>, mean: real, std: real, a: Anomaly)
    ensures a in ExtremeRows(df, mean, std) <==>
            exists i :: 0 <= i < |df| && df[i].daysInTransit as real > ExtremeThreshold(mean, std)
                        && a == ExtremeRecord(df[i], mean, std)
  {
    if a in ExtremeRows(df, mean, std) {
      ExtremeRowsSound(df, mean, std, a);
    }
    if exists i :: 0 <= i < |df| && df[i].daysInTransit as real > ExtremeThreshold(mean, std)
                   && a == ExtremeRecord(df[i], mean, std) {
      var i :| 0 <= i < |df| && df[i].daysInTransit as real > ExtremeThreshold(mean, std)
               && a == ExtremeRecord(df[i], mean, std);
      ExtremeRowsComplete(df, mean, std, i);
    }
  }

  lemma {:induction false} ExtremeRowsSound(df: seq<Shipment>, mean: real, std: real, a: Anomaly)
    requires a in ExtremeRows(df, mean, std)
    ensures exists i :: 0 <= i < |df| && df[i].daysInTransit as real > ExtremeThreshold(mean, std)
                        && a == ExtremeRecord(df[i], mean, std)
  {
    assert df != [];
    var init := df[..|df| - 1];
    if a in ExtremeRows(init, mean, std) {
      ExtremeRowsSound(init, mean, std, a);
      var i :| 0 <= i < |init| && init[i].daysInTransit as real > ExtremeThreshold(mean, std)
               && a == ExtremeRecord(init[i], mean, std);
      SliceIndex(df, |df| - 1, i);
    } else {
      assert df[|df| - 1].daysInTransit as real > ExtremeThreshold(mean, std)
             && a == ExtremeRecord(df[|df| - 1], mean, std);
    }
  }

  lemma {:induction false} ExtremeRowsComplete(df: seq<Shipment>, mean: real, std: real, i: int)
    requires 0 <= i < |df| && df[i].daysInTransit as real > ExtremeThreshold(mean, std)
    ensures ExtremeRecord(df[i], mean, std) in ExtremeRows(df, mean, std)
  {
    if i < |df| - 1 {
      var init := df[..|df| - 1];
      SliceIndex(df, |df| - 1, i);
      ExtremeRowsComplete(init, mean, std, i);
    }
  }

  lemma ExtremeRowsSnoc(df: seq<Shipment>, mean: real, std: real, i: int)
    requires 0 <= i < |df|
    ensures ExtremeRows(df[..i + 1], mean, std)
            == ExtremeRows(df[..i], mean, std)
               + (if df[i].daysInTransit as real > ExtremeThreshold(mean, std) then [ExtremeRecord(df[i], mean, std)] else [])
  {
    assert df[..i + 1][..i] == df[..i];
  }

  /** One pass of the delay loop, on detector states: appending row i's record extends the prefix by one row. */
  lemma ExtremeStep(st0: DetectorState, st: DetectorState, df: seq<Shipment>, mean: real, std: real, i: int)
    requires 0 <= i < |df|
    requires st == st0.(anomalies := st0.anomalies + ExtremeRows(df[..i], mean, std))
    ensures var flagged := if df[i].daysInTransit as real > ExtremeThreshold(mean, std) then [ExtremeRecord(df[i], mean, std)] else [];
            st.(anomalies := st.anomalies + flagged) == st0.(anomalies := st0.anomalies + ExtremeRows(df[..i + 1], mean, std))
  {
    ExtremeRowsSnoc(df, mean, std, i);
  }

  /** A row at or below the threshold makes the list shorter than the frame. */
  lemma {:induction false} ExtremeRowsMissOne(df: seq<Shipment>, mean: real, std: real, k: int)
    requires 0 <= k < |df| && df[k].daysInTransit as real <= ExtremeThreshold(mean, std)
    ensures |ExtremeRows(df, mean, std)| < |df|
  {
    if k < |df| - 1 {
      ExtremeRowsMissOne(df[..|df| - 1], mean, std, k);
    }
  }

  /** Every delay record is a MEDIUM layer-3 EXTREME_TRANSIT_DELAY record of one row. */
  lemma ExtremeRecordsLayer3(df: seq<Shipment>, std: Option<real>)
    ensures var ex := ExtremeRecords(df, std);
            AllInLayer(ex, 3)
            && forall k :: 0 <= k < |ex| ==> ex[k].anomalyType == ExtremeTransitDelay && ex[k].severity == Medium
  {
    var ex := ExtremeRecords(df, std);
    var mean := Mean(DaysColumn(df));
    if mean.Some? && std.Some? {
      forall k | 0 <= k < |ex|
        ensures ex[k].layer == 3 && ex[k].anomalyType == ExtremeTransitDelay && ex[k].severity == Medium
      {
        assert ex[k] in ex;
        ExtremeRowsMembers(df, mean.value, std.value, ex[k]);
      }
    }
  }

  /** The sum of squared deviations from m. */
  function SquaredDeviations(xs: seq<real>, m: real): (r: real)
    ensures r >= 0.0
  {
    if xs == [] then 0.0
    else
      var d := xs[|xs| - 1] - m;
      SquaredDeviations(xs[..|xs| - 1], m) + d * d
  }

  /**
   * std is Series.std() of xs (sample standard deviation, n - 1 in the
   * denominator): NaN, i.e. None, below two values, otherwise the
   * non-negative root of the sample variance.
   */
  predicate IsSampleStd(xs: seq<real>, std: Option<real>) {
    if |xs| < 2 then std.None?
    else std.Some? && std.value >= 0.0
         && std.value * std.value * ((|xs| - 1) as real) == SquaredDeviations(xs, Mean(xs).value)
  }

  /** With fewer than two shipments the threshold is NaN and nothing is flagged. */
  lemma FewRowsNoDelays(df: seq<Shipment>, std: Option<real>)
    requires IsSampleStd(DaysColumn(df), std) && |df| < 2
    ensures ExtremeRecords(df, std) == []
  {
  }

  /** When every shipment took the same time, none is an extreme delay. */
  lemma UniformTransitNoDelays(df: seq<Shipment>, std: Option<real>, days: int)
    requires std.Some? ==> std.value >= 0.0
    requires forall i :: 0 <= i < |df| ==> df[i].daysInTransit == days
    ensures ExtremeRecords(df, std) == []
  {
    var xs := DaysColumn(df);
    if df != [] && std.Some? {
      MeanBounds(xs, days as real, days as real);
      var mean := Mean(xs).value;
      var r := ExtremeRows(df, mean, std.value);
      if r != [] {
        ExtremeRowsMembers(df, mean, std.value, r[0]);
        assert false;
      }
    }
  }

  /** The delay check never flags every shipment of a non-empty frame. */
  lemma DelaysNeverCoverAll(df: seq<Shipment>, std: Option<real>)
    requires IsSampleStd(DaysColumn(df), std) && df != []
    ensures |ExtremeRecords(df, std)| < |df|
  {
    if std.Some? {
      NotAllExtreme(df, std.value);
    }
  }

  /** Some value of a non-empty list is at most its mean. */
  lemma SomeAtMostMean(xs: seq<real>)
    requires xs != []
    ensures exists k :: 0 <= k < |xs| && xs[k] <= Mean(xs).value
  {
    var m := Mean(xs).value;
    if forall k :: 0 <= k < |xs| ==> xs[k] > m {
      SumAbove(xs, m);
      assert false;
    }
  }

  lemma {:induction false} SumAbove(xs: seq<real>, m: real)
    requires xs != [] && forall k :: 0 <= k < |xs| ==> xs[k] > m
    ensures Sum(xs) > m * (|xs| as real)
  {
    var init := xs[..|xs| - 1];
    if init != [] {
      SumAbove(init, m);
    }
  }

  /**
   * With a non-negative standard deviation the check never flags every row
   * of a non-empty frame: some row is at or below the mean.
   */
  lemma NotAllExtreme(df: seq<Shipment>, std: real)
    requires df != [] && std >= 0.0
    ensures |ExtremeRecords(df, Some(std))| < |df|
  {
    var xs := DaysColumn(df);
    SomeAtMostMean(xs);
    var k :| 0 <= k < |xs| && xs[k] <= Mean(xs).value;
    ExtremeRowsMissOne(df, Mean(xs).value, std, k);
  }

  // ---------------------------------------------------------------------
  // Detector state: records, call and token accounting, reply cache
  // ---------------------------------------------------------------------

  /** The cache key: the task type and the ordered shipment ids of the call (hashed in the source). */
  datatype CacheKey = CacheKey(task: string, ids: seq<int>)

  function Ids(entries: seq<Enriched>): (r: seq<int>)
    ensures |r| == |entries| && forall k :: 0 <= k < |entries| ==> r[k] == entries[k].shipmentId
  {
    if entries == [] then [] else Ids(entries[..|entries| - 1]) + [entries[|entries| - 1].shipmentId]
  }

  function HsKey(data: seq<Enriched>): CacheKey {
    CacheKey("hs_strict", Ids(data))
  }

  /** Everything the detector updates, as one value. */
  datatype DetectorState = DetectorState(
    anomalies: seq<Anomaly>,
    llmCalls: nat,
    cache: map<CacheKey, seq<ParsedEntry>>,
    inputTokens: nat,
    outputTokens: nat,
    hsCalls: nat,
    hsTokens: nat,
    hsSkipped: nat,
    hsFindings: nat)

  const Initial: DetectorState := DetectorState([], 0, map[], 0, 0, 0, 0, 0, 0)

  /**
   * One batch: a cached reply is replayed without a call; otherwise the
   * model is asked, and on a reply its confident mismatches become records,
   * the call and its tokens are counted and the mismatches are cached.  A
   * raised error changes nothing.
   */
  function BatchStep(st: DetectorState, client: Client, cacheOn: bool, batch: seq<Enriched>): DetectorState {
    var data := CallData(batch);
    var key := HsKey(data);
    if cacheOn && key in st.cache then Replay(st, st.cache[key], |data|)
    else
      match client.complete(data)
      case Raised => st
      case Content(raw) =>
        var content := Strip(raw);
        Answer(st, key, Confident(ParseReply(client, content)),
               EstimateTokens(client.render(data)), EstimateTokens(content))
  }

  /** A cache hit: the cached mismatches become records again and the batch counts as skipped. */
  function Replay(st: DetectorState, cached: seq<ParsedEntry>, skipped: nat): DetectorState {
    st.(anomalies := st.anomalies + HsRecords(cached), hsSkipped := st.hsSkipped + skipped)
  }

  /** An answered call: records, one more call, its tokens, and the reply cached under its key. */
  function Answer(st: DetectorState, key: CacheKey, mismatches: seq<ParsedEntry>, inTokens: nat, outTokens: nat): DetectorState {
    DetectorState(st.anomalies + HsRecords(mismatches), st.llmCalls + 1, st.cache[key := mismatches],
                  st.inputTokens + inTokens, st.outputTokens + outTokens, st.hsCalls + 1,
                  st.hsTokens + inTokens + outTokens, st.hsSkipped, st.hsFindings + |mismatches|)
  }

  /** The batches in order. */
  function FoldBatches(st: DetectorState, client: Client, cacheOn: bool, bs: seq<seq<Enriched>>): DetectorState
    decreases |bs|
  {
    if bs == [] then st else FoldBatches(BatchStep(st, client, cacheOn, bs[0]), client, cacheOn, bs[1..])
  }

  lemma FoldCons(st: DetectorState, client: Client, cacheOn: bool, b: seq<Enriched>, bs: seq<seq<Enriched>>)
    ensures FoldBatches(st, client, cacheOn, [b] + bs) == FoldBatches(BatchStep(st, client, cacheOn, b), client, cacheOn, bs)
  {
    assert ([b] + bs)[1..] == bs;
  }

  /** Folding the slices from position i is one batch step on the slice at i, then the fold from i + n. */
  lemma FoldSliceStep(st: DetectorState, client: Client, cacheOn: bool, xs: seq<Enriched>, n: nat, i: nat,
                      batch: seq<Enriched>, next: nat)
    requires n > 0 && i < |xs| && next == i + n
    requires batch == xs[i..if next <= |xs| then next else |xs|]
    ensures FoldBatches(st, client, cacheOn, Slices(Drop(xs, i), n))
            == FoldBatches(BatchStep(st, client, cacheOn, batch), client, cacheOn, Slices(Drop(xs, next), n))
  {
    SlicesStep(xs, n, i);
    FoldCons(st, client, cacheOn, batch, Slices(Drop(xs, next), n));
  }

  /** The batches validate_hs_codes_strict cuts. */
  function HsBatches(df: seq<Shipment>, catalog: seq<Product>, batchSize: nat): seq<seq<Enriched>>
    requires batchSize > 0
  {
    Slices(Uncertain(Enrich(Candidates(df), catalog)), batchSize)
  }

  /** run_all_detections with a client: the HS batches of 15, then the extreme delays. */
  function Layer3(st: DetectorState, df: seq<Shipment>, catalog: seq<Product>, client: Client, cacheOn: bool,
                  std: Option<real>): DetectorState
  {
    var s := FoldBatches(st, client, cacheOn, HsBatches(df, catalog, MaxPerCall));
    s.(anomalies := s.anomalies + ExtremeRecords(df, std))
  }

  /** The layer-3 records of a fresh detector; none without a client. */
  function Layer3Records(df: seq<Shipment>, catalog: seq<Product>, client: Option<Client>, std: Option<real>): seq<Anomaly> {
    match client
    case None => []
    case Some(c) => Layer3(Initial, df, catalog, c, true, std).anomalies
  }

  /**
   * The accounting invariant: every call is an HS call, the HS token count
   * is input plus output tokens, each call costs at least one input and one
   * output token, every cached reply holds only confident mismatches, and
   * every record is a layer-3 record.
   */
  predicate Consistent(st: DetectorState) {
    st.hsCalls == st.llmCalls && st.hsTokens == st.inputTokens + st.outputTokens
    && st.inputTokens >= st.llmCalls && st.outputTokens >= st.llmCalls
    && (forall k :: k in st.cache ==> AllConfident(st.cache[k]))
    && AllInLayer(st.anomalies, 3)
  }

  lemma InitialConsistent()
    ensures Consistent(Initial)
  {
  }

  lemma LayerAppend(a: seq<Anomaly>, b: seq<Anomaly>, layer: int)
    requires AllInLayer(a, layer) && AllInLayer(b, layer)
    ensures AllInLayer(a + b, layer)
  {
    forall k | 0 <= k < |a + b| ensures (a + b)[k].layer == layer {
      if k >= |a| {
        assert (a + b)[k] == b[k - |a|];
      }
    }
  }

  lemma ReplayConsistent(st: DetectorState, cached: seq<ParsedEntry>, skipped: nat)
    requires Consistent(st) && AllConfident(cached)
    ensures Consistent(Replay(st, cached, skipped))
  {
    HsRecordsFacts(cached);
    LayerAppend(st.anomalies, HsRecords(cached), 3);
  }

  lemma AnswerConsistent(st: DetectorState, key: CacheKey, mismatches: seq<ParsedEntry>, inTokens: nat, outTokens: nat)
    requires Consistent(st) && AllConfident(mismatches) && inTokens >= 1 && outTokens >= 1
    ensures Consistent(Answer(st, key, mismatches, inTokens, outTokens))
  {
    HsRecordsFacts(mismatches);
    LayerAppend(st.anomalies, HsRecords(mismatches), 3);
    var st' := Answer(st, key, mismatches, inTokens, outTokens);
    assert forall k :: k in st'.cache ==> AllConfident(st'.cache[k]) by {
      forall k | k in st'.cache ensures AllConfident(st'.cache[k]) {
        if k != key {
          assert st'.cache[k] == st.cache[k];
        }
      }
    }
  }

  lemma ConfidentAll(entries: seq<ParsedEntry>)
    ensures AllConfident(Confident(entries))
  {
    var r := Confident(entries);
    forall k | 0 <= k < |r| ensures IsConfident(r[k]) {
      assert r[k] in r;
    }
  }

  lemma BatchStepConsistent(st: DetectorState, client: Client, cacheOn: bool, batch: seq<Enriched>)
    requires Consistent(st)
    ensures Consistent(BatchStep(st, client, cacheOn, batch))
  {
    var data := CallData(batch);
    var key := HsKey(data);
    if cacheOn && key in st.cache {
      ReplayConsistent(st, st.cache[key], |data|);
      assert BatchStep(st, client, cacheOn, batch) == Replay(st, st.cache[key], |data|);
    } else if client.complete(data).Content? {
      var content := Strip(client.complete(data).text);
      var m := Confident(ParseReply(client, content));
      ConfidentAll(ParseReply(client, content));
      var i := EstimateTokens(client.render(data));
      var o := EstimateTokens(content);
      AnswerConsistent(st, key, m, i, o);
      assert BatchStep(st, client, cacheOn, batch) == Answer(st, key, m, i, o);
    }
  }

  /** A cache hit replays the cached records and makes no call. */
  lemma CacheHitReplays(st: DetectorState, client: Client, batch: seq<Enriched>)
    requires HsKey(CallData(batch)) in st.cache
    ensures var st' := BatchStep(st, client, true, batch);
            st'.anomalies == st.anomalies + HsRecords(st.cache[HsKey(CallData(batch))])
            && st'.llmCalls == st.llmCalls && st'.inputTokens == st.inputTokens && st'.outputTokens == st.outputTokens
            && st'.cache == st.cache && st'.hsSkipped == st.hsSkipped + |CallData(batch)|
  {
  }

  /** A raised error leaves the state as it was. */
  lemma FailedCallChangesNothing(st: DetectorState, client: Client, cacheOn: bool, batch: seq<Enriched>)
    requires !(cacheOn && HsKey(CallData(batch)) in st.cache)
    requires client.complete(CallData(batch)).Raised?
    ensures BatchStep(st, client, cacheOn, batch) == st
  {
  }

  /**
   * A reply counts one call and at least one token each way, appends one
   * HIGH layer-3 record per confident mismatch, and caches those mismatches
   * under the batch's key.
   */
  lemma ReplyCountsOneCall(st: DetectorState, client: Client, cacheOn: bool, batch: seq<Enriched>)
    requires !(cacheOn && HsKey(CallData(batch)) in st.cache)
    requires client.complete(CallData(batch)).Content?
    ensures var st' := BatchStep(st, client, cacheOn, batch);
            var m := st'.cache[HsKey(CallData(batch))];
            st'.llmCalls == st.llmCalls + 1
            && st'.inputTokens > st.inputTokens && st'.outputTokens > st.outputTokens
            && HsKey(CallData(batch)) in st'.cache && AllConfident(m)
            && st'.anomalies == st.anomalies + HsRecords(m) && |HsRecords(m)| == |m|
            && st'.hsFindings == st.hsFindings + |m|
  {
  }

  /**
   * Sending the same batch twice with the cache on makes no second call, and
   * the second time appends the same records as the first.
   */
  lemma RepeatedBatchReplays(st: DetectorState, client: Client, batch: seq<Enriched>)
    ensures var s1 := BatchStep(st, client, true, batch);
            var s2 := BatchStep(s1, client, true, batch);
            s2.llmCalls == s1.llmCalls && |st.anomalies| <= |s1.anomalies| <= |s2.anomalies|
            && s2.anomalies[|s1.anomalies|..] == s1.anomalies[|st.anomalies|..]
  {
    var data := CallData(batch);
    var key := HsKey(data);
    var s1 := BatchStep(st, client, true, batch);
    if key !in st.cache && client.complete(data).Content? {
      assert key in s1.cache;
    }
  }

  lemma {:induction false} FoldConsistent(st: DetectorState, client: Client, cacheOn: bool, bs: seq<seq<Enriched>>)
    requires Consistent(st)
    ensures Consistent(FoldBatches(st, client, cacheOn, bs))
    decreases |bs|
  {
    if bs != [] {
      BatchStepConsistent(st, client, cacheOn, bs[0]);
      FoldConsistent(BatchStep(st, client, cacheOn, bs[0]), client, cacheOn, bs[1..]);
    }
  }

  /** One batch makes at most one call and only appends records. */
  lemma BatchStepGrows(st: DetectorState, client: Client, cacheOn: bool, batch: seq<Enriched>)
    ensures var s := BatchStep(st, client, cacheOn, batch);
            st.llmCalls <= s.llmCalls <= st.llmCalls + 1
            && |st.anomalies| <= |s.anomalies| && s.anomalies[..|st.anomalies|] == st.anomalies
  {
    var s := BatchStep(st, client, cacheOn, batch);
    if s != st {
      var more := s.anomalies[|st.anomalies|..];
      assert s.anomalies == st.anomalies + more;
    }
  }

  lemma PrefixTrans<T>(a: seq<T>, b: seq<T>, c: seq<T>)
    requires |a| <= |b| && b[..|a|] == a && |b| <= |c| && c[..|b|] == b
    ensures c[..|a|] == a
  {
    assert c[..|a|] == c[..|b|][..|a|];
  }

  /** At most one call per batch, and the earlier records stay in place. */
  lemma {:induction false} FoldCallsBound(st: DetectorState, client: Client, cacheOn: bool, bs: seq<seq<Enriched>>)
    ensures var st' := FoldBatches(st, client, cacheOn, bs);
            st.llmCalls <= st'.llmCalls <= st.llmCalls + |bs|
            && |st.anomalies| <= |st'.anomalies| && st'.anomalies[..|st.anomalies|] == st.anomalies
    decreases |bs|
  {
    if bs != [] {
      var s1 := BatchStep(st, client, cacheOn, bs[0]);
      BatchStepGrows(st, client, cacheOn, bs[0]);
      FoldCallsBound(s1, client, cacheOn, bs[1..]);
      var st' := FoldBatches(s1, client, cacheOn, bs[1..]);
      assert FoldBatches(st, client, cacheOn, bs) == st';
      PrefixTrans(st.anomalies, s1.anomalies, st'.anomalies);
    }
  }

  /**
   * A fresh detector ends consistent: every record is layer 3, and it makes
   * at most one call per batch of 15 uncertain candidates.
   */
  lemma Layer3Facts(df: seq<Shipment>, catalog: seq<Product>, client: Client, std: Option<real>)
    ensures var st := Layer3(Initial, df, catalog, client, true, std);
            Consistent(st) && st.llmCalls <= |HsBatches(df, catalog, MaxPerCall)|
  {
    ExtremeRecordsLayer3(df, std);
    FoldThenAppend(client, HsBatches(df, catalog, MaxPerCall), ExtremeRecords(df, std));
  }

  lemma FoldThenAppend(client: Client, bs: seq<seq<Enriched>>, more: seq<Anomaly>)
    requires AllInLayer(more, 3)
    ensures var s := FoldBatches(Initial, client, true, bs);
            var st := s.(anomalies := s.anomalies + more);
            Consistent(st) && st.llmCalls <= |bs|
  {
    var s := FoldBatches(Initial, client, true, bs);
    FoldConsistent(Initial, client, true, bs);
    FoldCallsBound(Initial, client, true, bs);
    AppendConsistent(s, more);
  }

  lemma AppendConsistent(st: DetectorState, more: seq<Anomaly>)
    requires Consistent(st) && AllInLayer(more, 3)
    ensures Consistent(st.(anomalies := st.anomalies + more))
  {
    LayerAppend(st.anomalies, more, 3);
  }

  // ---------------------------------------------------------------------
  // The detector object
  // ---------------------------------------------------------------------

  class LlmDetector {
    const df: seq<Shipment>
    const productCatalog: seq<Product>
    const buyers: seq<Buyer>
    const client: Option<Client>
    const cacheResponses: bool
    var anomalies: seq<Anomaly>
    var llmCalls: nat
    var responseCache: map<CacheKey, seq<ParsedEntry>>
    var inputTokens: nat
    var outputTokens: nat
    var hsCalls: nat
    var hsTokens: nat
    var hsSkipped: nat
    var hsFindings: nat

    function State(): DetectorState
      reads this
    {
      DetectorState(anomalies, llmCalls, responseCache, inputTokens, outputTokens,
                    hsCalls, hsTokens, hsSkipped, hsFindings)
    }

    constructor (shipments: seq<Shipment>, catalog: seq<Product>, buyerTable: seq<Buyer>,
                 llmClient: Option<Client>, cacheOn: bool)
      ensures df == shipments && productCatalog == catalog && buyers == buyerTable
      ensures client == llmClient && cacheResponses == cacheOn
      ensures State() == Initial
    {
      df := shipments;
      productCatalog := catalog;
      buyers := buyerTable;
      client := llmClient;
      cacheResponses := cacheOn;
      anomalies := [];
      llmCalls := 0;
      responseCache := map[];
      inputTokens := 0;
      outputTokens := 0;
      hsCalls := 0;
      hsTokens := 0;
      hsSkipped := 0;
      hsFindings := 0;
    }

    /** Join each row with its catalog product, dropping rows whose product is unknown. */
    method EnrichWithProducts(rows: seq<Shipment>) returns (enriched: seq<Enriched>)
      ensures enriched == Enrich(rows, productCatalog)
    {
      enriched := [];
      for i := 0 to |rows|
        invariant enriched == Enrich(rows[..i], productCatalog)
      {
        assert rows[..i + 1][..i] == rows[..i];
        match FindProduct(productCatalog, rows[i].productId) {
          case Some(p) =>
            enriched := enriched + [EnrichRow(rows[i], p)];
          case None =>
        }
      }
      assert rows[..|rows|] == rows;
    }

    /** One record per mismatch, appended in order. */
    method ProcessHsResults(mismatches: seq<ParsedEntry>)
      modifies this
      ensures State() == old(State()).(anomalies := old(anomalies) + HsRecords(mismatches))
    {
      for i := 0 to |mismatches|
        invariant State() == old(State()).(anomalies := old(anomalies) + HsRecords(mismatches[..i]))
      {
        assert mismatches[..i + 1][..i] == mismatches[..i];
        anomalies := anomalies + [HsRecord(mismatches[i])];
      }
      assert mismatches[..|mismatches|] == mismatches;
    }

    /** Send one batch of at most 15 entries, or replay the cached reply for it. */
    method ValidateHsBatch(batch: seq<Enriched>)
      requires client.Some?
      modifies this
      ensures State() == BatchStep(old(State()), client.value, cacheResponses, batch)
    {
      var data := CallData(batch);
      var key := HsKey(data);
      if cacheResponses && key in responseCache {
        ProcessHsResults(responseCache[key]);
        hsSkipped := hsSkipped + |data|;
        return;
      }
      var reply := client.value.complete(data);
      if reply.Raised? {
        return;
      }
      var content := Strip(reply.text);
      var mismatches := Confident(ParseReply(client.value, content));
      RecordAnswer(key, mismatches, EstimateTokens(client.value.render(data)), EstimateTokens(content));
    }

    /** The bookkeeping after a reply: records, call and token counts, and the cache entry. */
    method RecordAnswer(key: CacheKey, mismatches: seq<ParsedEntry>, inTokens: nat, outTokens: nat)
      modifies this
      ensures State() == Answer(old(State()), key, mismatches, inTokens, outTokens)
    {
      if |mismatches| > 0 {
        ProcessHsResults(mismatches);
      }
      llmCalls := llmCalls + 1;
      inputTokens := inputTokens + inTokens;
      outputTokens := outputTokens + outTokens;
      hsCalls := hsCalls + 1;
      hsTokens := hsTokens + inTokens + outTokens;
      hsFindings := hsFindings + |mismatches|;
      responseCache := responseCache[key := mismatches];
    }

    /** Screen the top-decile candidates and validate the uncertain ones in slices of batchSize. */
    method ValidateHsCodes(batchSize: nat)
      requires batchSize > 0
      modifies this
      ensures client.None? ==> State() == old(State())
      ensures client.Some? ==>
                State() == FoldBatches(old(State()), client.value, cacheResponses, HsBatches(df, productCatalog, batchSize))
    {
      if client.None? {
        return;
      }
      var sample := Candidates(df);
      var enriched := EnrichWithProducts(sample);
      var uncertain := Uncertain(enriched);
      if uncertain == [] {
        return;
      }
      ValidateInSlices(uncertain, batchSize);
    }

    /** The batch loop: one call (or cache replay) per slice of batchSize entries, in order. */
    method ValidateInSlices(uncertain: seq<Enriched>, batchSize: nat)
      requires client.Some? && batchSize > 0
      modifies this
      ensures State() == FoldBatches(old(State()), client.value, cacheResponses, Slices(uncertain, batchSize))
    {
      ghost var goal := FoldBatches(State(), client.value, cacheResponses, Slices(uncertain, batchSize));
      assert Drop(uncertain, 0) == uncertain;
      var i: nat := 0;
      while i < |uncertain|
        invariant goal == FoldBatches(State(), client.value, cacheResponses, Slices(Drop(uncertain, i), batchSize))
        decreases |uncertain| - i
      {
        var next := i + batchSize;
        ValidateSliceAt(uncertain, batchSize, i, next);
        i := next;
      }
      assert Drop(uncertain, i) == [];
    }

    /** One pass of the batch loop: the slice starting at position i. */
    method ValidateSliceAt(uncertain: seq<Enriched>, batchSize: nat, i: nat, next: nat)
      requires client.Some? && batchSize > 0 && i < |uncertain| && next == i + batchSize
      modifies this
      ensures FoldBatches(old(State()), client.value, cacheResponses, Slices(Drop(uncertain, i), batchSize))
              == FoldBatches(State(), client.value, cacheResponses, Slices(Drop(uncertain, next), batchSize))
    {
      var batch := uncertain[i..if next <= |uncertain| then next else |uncertain|];
      ghost var before := State();
      FoldSliceStep(before, client.value, cacheResponses, uncertain, batchSize, i, batch, next);
      ValidateHsBatch(batch);
      assert State() == BatchStep(before, client.value, cacheResponses, batch);
    }

    /** Flag transit times above mean + 3 x std; nothing without a client. */
    method CheckTradeComplianceMinimal(std: Option<real>)
      modifies this
      ensures State() == old(State()).(anomalies := old(anomalies) + (if client.None? then [] else ExtremeRecords(df, std)))
    {
      if client.None? {
        return;
      }
      var mean := Mean(DaysColumn(df));
      if mean.None? || std.None? {
        return;
      }
      AppendExtremeRows(mean.value, std.value);
    }

    /** Append a record for every shipment whose transit time is above mean + 3 x std, in frame order. */
    method AppendExtremeRows(mean: real, std: real)
      modifies this
      ensures State() == old(State()).(anomalies := old(anomalies) + ExtremeRows(df, mean, std))
    {
      for i := 0 to |df|
        invariant State() == old(State()).(anomalies := old(anomalies) + ExtremeRows(df[..i], mean, std))
      {
        var flagged := if df[i].daysInTransit as real > ExtremeThreshold(mean, std) then [ExtremeRecord(df[i], mean, std)] else [];
        ExtremeStep(old(State()), State(), df, mean, std, i);
        anomalies := anomalies + flagged;
      }
      assert df[..|df|] == df;
    }

    /** Layer 3: nothing and no calls without a client; otherwise HS validation then the delay check. */
    method RunAllDetections(std: Option<real>) returns (result: seq<Anomaly>, calls: nat, inTokens: nat, outTokens: nat)
      modifies this
      ensures client.None? ==> result == [] && calls == 0 && State() == old(State())
      ensures client.Some? ==> State() == Layer3(old(State()), df, productCatalog, client.value, cacheResponses, std)
      ensures client.Some? ==> result == anomalies && calls == llmCalls
      ensures inTokens == inputTokens && outTokens == outputTokens
    {
      if client.None? {
        return [], 0, inputTokens, outputTokens;
      }
      ValidateHsCodes(MaxPerCall);
      CheckTradeComplianceMinimal(std);
      return anomalies, llmCalls, inputTokens, outputTokens;
    }
  }
}
