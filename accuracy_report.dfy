/**
 * Scoring the detected anomalies against the planted ones: both lists are
 * indexed by (shipment id, anomaly type), and the matches, misses and false
 * positives of the two indexes give precision, recall, F1 and accuracy.
 */
module AccuracyReport {
  import opened Wrappers
  import opened Grouping
  import opened Anomalies

  /** A shipment_id value as it appears in the JSON files: absent or null, a number, or a string. */
  datatype ShipmentRef = NoId | IdNumber(n: int) | IdText(s: string)

  /** The fields of a report entry the scoring reads. */
  datatype Entry = Entry(shipmentId: ShipmentRef, anomalyType: Option<string>, severity: Option<string>, layer: Option<int>)

  /** The match key; a missing anomaly_type counts as "". */
  datatype Key = Key(shipmentId: ShipmentRef, anomalyType: string)

  function KeyOf(e: Entry): Key {
    Key(e.shipmentId, e.anomalyType.GetOr(""))
  }

  /** Planted entries without a shipment id, or whose textual id contains '-', are not scored. */
  predicate PlantedSkipped(e: Entry) {
    e.shipmentId.NoId? || (e.shipmentId.IdText? && '-' in e.shipmentId.s)
  }

  /** Detected entries without a shipment id (buyer-level findings) are not scored. */
  predicate DetectedSkipped(e: Entry) {
    e.shipmentId.NoId?
  }

  /** How a record of the pipeline's report reads back. */
  function EntryOf(a: Anomaly): (e: Entry)
    ensures e.anomalyType == Some(TypeName(a.anomalyType)) && e.layer == Some(a.layer)
    ensures DetectedSkipped(e) <==> a.shipmentId.None?
  {
    Entry(if a.shipmentId.Some? then IdNumber(a.shipmentId.value) else NoId,
          Some(TypeName(a.anomalyType)), Some(SeverityName(a.severity)), Some(a.layer))
  }

  // ---------------------------------------------------------------------
  // The key-indexed dicts
  // ---------------------------------------------------------------------

  /** A dict keyed by Key: the keys in insertion order, and the entry stored under each. */
  datatype Index = Index(order: seq<Key>, entries: map<Key, Entry>)

  ghost predicate Valid(d: Index) {
    NoDuplicates(d.order) && forall k :: k in d.entries <==> k in d.order
  }

  /** d[key] = e: a new key goes to the end, an existing key keeps its place and takes the new entry. */
  function Put(d: Index, e: Entry): (r: Index)
    requires Valid(d)
    ensures Valid(r) && KeyOf(e) in r.entries && r.entries[KeyOf(e)] == e
    ensures forall k :: k != KeyOf(e) ==> (k in r.entries <==> k in d.entries)
    ensures forall k :: k in d.entries && k != KeyOf(e) ==> r.entries[k] == d.entries[k]
    ensures |r.order| <= |d.order| + 1
  {
    var k := KeyOf(e);
    Index(if k in d.entries then d.order else d.order + [k], d.entries[k := e])
  }

  /** The dict a loop over entries builds, leaving out the skipped ones. */
  function BuildIndex(entries: seq<Entry>, skip: Entry -> bool): (r: Index)
    ensures Valid(r) && |r.order| <= |entries|
  {
    if entries == [] then Index([], map[])
    else
      var d := BuildIndex(entries[..|entries| - 1], skip);
      var e := entries[|entries| - 1];
      if skip(e) then d else Put(d, e)
  }

  function PlantedIndex(planted: seq<Entry>): Index {
    BuildIndex(planted, PlantedSkipped)
  }

  function DetectedIndex(detected: seq<Entry>): Index {
    BuildIndex(detected, DetectedSkipped)
  }

  /** A key is in the dict exactly when some entry that is not skipped has it. */
  lemma {:induction false} IndexMembers(entries: seq<Entry>, skip: Entry -> bool, k: Key)
    ensures k in BuildIndex(entries, skip).entries <==>
            exists i :: 0 <= i < |entries| && !skip(entries[i]) && KeyOf(entries[i]) == k
  {
    if entries != [] {
      var init := entries[..|entries| - 1];
      IndexMembers(init, skip, k);
      if exists i :: 0 <= i < |entries| && !skip(entries[i]) && KeyOf(entries[i]) == k {
        var i :| 0 <= i < |entries| && !skip(entries[i]) && KeyOf(entries[i]) == k;
        if i < |entries| - 1 {
          assert init[i] == entries[i];
        }
      }
    }
  }

  /** Duplicate keys collapse: the dict holds the last entry that has the key. */
  lemma {:induction false} IndexKeepsLast(entries: seq<Entry>, skip: Entry -> bool, i: int)
    requires 0 <= i < |entries| && !skip(entries[i])
    requires forall j :: i < j < |entries| && !skip(entries[j]) ==> KeyOf(entries[j]) != KeyOf(entries[i])
    ensures KeyOf(entries[i]) in BuildIndex(entries, skip).entries
    ensures BuildIndex(entries, skip).entries[KeyOf(entries[i])] == entries[i]
  {
    if i < |entries| - 1 {
      var init := entries[..|entries| - 1];
      assert init[i] == entries[i];
      IndexKeepsLast(init, skip, i);
    }
  }

  /** The keys of the dict, and their order, depend only on the keys and skip flags of the entries. */
  lemma {:induction false} IndexKeysOnly(a: seq<Entry>, b: seq<Entry>, skip: Entry -> bool)
    requires |a| == |b|
    requires forall i :: 0 <= i < |a| ==> KeyOf(a[i]) == KeyOf(b[i]) && skip(a[i]) == skip(b[i])
    ensures BuildIndex(a, skip).order == BuildIndex(b, skip).order
    ensures BuildIndex(a, skip).entries.Keys == BuildIndex(b, skip).entries.Keys
  {
    if a != [] {
      IndexKeysOnly(a[..|a| - 1], b[..|b| - 1], skip);
    }
  }

  /** A planted multi-shipment pattern (textual id with '-') is never scored. */
  lemma PatternIdsNotScored(planted: seq<Entry>, i: int)
    requires 0 <= i < |planted| && planted[i].shipmentId.IdText? && '-' in planted[i].shipmentId.s
    ensures forall k :: k in PlantedIndex(planted).entries ==> k.shipmentId != planted[i].shipmentId
  {
    forall k | k in PlantedIndex(planted).entries ensures k.shipmentId != planted[i].shipmentId {
      IndexMembers(planted, PlantedSkipped, k);
    }
  }

  /**
   * Scoring the pipeline's own records: a key is scored exactly when some
   * row-level record has it; buyer-level records (no shipment id) never are.
   */
  lemma PipelineKeysScored(detected: seq<Anomaly>, k: Key)
    ensures k in DetectedIndex(EntriesOf(detected)).entries <==>
            exists i :: 0 <= i < |detected| && detected[i].shipmentId.Some? && KeyOf(EntryOf(detected[i])) == k
  {
    var es := EntriesOf(detected);
    IndexMembers(es, DetectedSkipped, k);
    if exists i :: 0 <= i < |detected| && detected[i].shipmentId.Some? && KeyOf(EntryOf(detected[i])) == k {
      var i :| 0 <= i < |detected| && detected[i].shipmentId.Some? && KeyOf(EntryOf(detected[i])) == k;
      assert es[i] == EntryOf(detected[i]);
    }
  }

  function EntriesOf(anoms: seq<Anomaly>): (r: seq<Entry>)
    ensures |r| == |anoms| && forall i :: 0 <= i < |anoms| ==> r[i] == EntryOf(anoms[i])
  {
    if anoms == [] then [] else EntriesOf(anoms[..|anoms| - 1]) + [EntryOf(anoms[|anoms| - 1])]
  }

  // ---------------------------------------------------------------------
  // Matches, misses, false positives
  // ---------------------------------------------------------------------

  /** The keys of s, in order, that the other dict also holds. */
  function Shared(s: seq<Key>, m: map<Key, Entry>): (r: seq<Key>)
    ensures |r| <= |s|
  {
    if s == [] then []
    else Shared(s[..|s| - 1], m) + (if s[|s| - 1] in m then [s[|s| - 1]] else [])
  }

  lemma {:induction false} SharedMembers(s: seq<Key>, m: map<Key, Entry>)
    ensures forall k :: k in Shared(s, m) <==> k in s && k in m
  {
    if s != [] {
      SharedMembers(s[..|s| - 1], m);
      assert s == s[..|s| - 1] + [s[|s| - 1]];
    }
  }

  /** The keys of s, in order, that the other dict lacks. */
  function Unshared(s: seq<Key>, m: map<Key, Entry>): (r: seq<Key>)
    ensures |r| <= |s|
  {
    if s == [] then []
    else Unshared(s[..|s| - 1], m) + (if s[|s| - 1] !in m then [s[|s| - 1]] else [])
  }

  lemma {:induction false} UnsharedMembers(s: seq<Key>, m: map<Key, Entry>)
    ensures forall k :: k in Unshared(s, m) <==> k in s && k !in m
  {
    if s != [] {
      UnsharedMembers(s[..|s| - 1], m);
      assert s == s[..|s| - 1] + [s[|s| - 1]];
    }
  }

  function SetOf(s: seq<Key>): set<Key> {
    set k | k in s
  }

  /** Each key of s is either shared or not. */
  lemma {:induction false} SharedSplit(s: seq<Key>, m: map<Key, Entry>)
    ensures |Shared(s, m)| + |Unshared(s, m)| == |s|
  {
    if s != [] {
      SharedSplit(s[..|s| - 1], m);
    }
  }

  lemma {:induction false} SharedCard(s: seq<Key>, m: map<Key, Entry>)
    requires NoDuplicates(s)
    ensures |Shared(s, m)| == |SetOf(s) * m.Keys|
    ensures |Unshared(s, m)| == |SetOf(s) - m.Keys|
  {
    if s != [] {
      var init := s[..|s| - 1];
      SetOfSnoc(s);
      SharedCard(init, m);
      AddOne(SetOf(init), m.Keys, s[|s| - 1]);
    }
  }

  lemma {:induction false} DistinctCard(s: seq<Key>)
    requires NoDuplicates(s)
    ensures |SetOf(s)| == |s|
  {
    if s != [] {
      var init := s[..|s| - 1];
      var x := s[|s| - 1];
      DistinctCard(init);
      assert SetOf(s) == SetOf(init) + {x} by {
        assert s == init + [x];
      }
      assert x !in SetOf(init);
    }
  }

  lemma IndexKeys(d: Index)
    requires Valid(d)
    ensures SetOf(d.order) == d.entries.Keys && |d.entries.Keys| == |d.order|
  {
    DistinctCard(d.order);
  }

  // ---------------------------------------------------------------------
  // The report
  // ---------------------------------------------------------------------

  /** One line of a detail list: the key and the entry stored under it. */
  datatype Detail = Detail(key: Key, entry: Entry)

  function Details(keys: seq<Key>, m: map<Key, Entry>): (r: seq<Detail>)
    ensures |r| <= |keys|
  {
    if keys == [] then []
    else
      var k := keys[|keys| - 1];
      Details(keys[..|keys| - 1], m) + (if k in m then [Detail(k, m[k])] else [])
  }

  /** a / b as a fraction, or 0 when b is 0. */
  function Ratio(a: nat, b: nat): (r: real)
    ensures r >= 0.0 && (a <= b ==> r <= 1.0) && (a < b ==> r < 1.0)
    ensures b > 0 ==> r * (b as real) == a as real
    ensures b == 0 ==> r == 0.0
  {
    if b > 0 then (a as real) / (b as real) else 0.0
  }

  /** When every key is in the dict, the details are those keys, in order, each with its entry. */
  lemma {:induction false} DetailsExact(keys: seq<Key>, m: map<Key, Entry>)
    requires forall k :: k in keys ==> k in m
    ensures var r := Details(keys, m);
            |r| == |keys| && forall i :: 0 <= i < |keys| ==> r[i] == Detail(keys[i], m[keys[i]])
  {
    if keys != [] {
      var init := keys[..|keys| - 1];
      assert forall k :: k in init ==> k in keys;
      DetailsExact(init, m);
    }
  }

  /** 2PR / (P + R), or 0 when P + R is 0. */
  function F1(p: real, r: real): real {
    if p + r > 0.0 then 2.0 * (p * r) / (p + r) else 0.0
  }

  datatype Report = Report(
    totalPlanted: nat,
    totalDetected: nat,
    correctlyDetected: nat,
    missedCount: nat,
    falsePositives: nat,
    precision: real,
    recall: real,
    f1: real,
    accuracy: real,
    correct: seq<Detail>,
    missed: seq<Detail>,
    falsePositiveDetails: seq<Detail>)

  /** The report built from the two dicts and the lengths of the two input lists. */
  function ReportOf(pm: Index, dm: Index, plantedCount: nat, detectedCount: nat): Report {
    var tp := Shared(pm.order, dm.entries);
    var miss := Unshared(pm.order, dm.entries);
    var fp := Unshared(dm.order, pm.entries);
    var precision := Ratio(|tp|, |tp| + |fp|);
    var recall := Ratio(|tp|, plantedCount);
    Report(plantedCount, detectedCount, |tp|, |miss|, |fp|, precision, recall, F1(precision, recall),
           Ratio(|tp|, detectedCount), Details(tp, pm.entries), Details(miss, pm.entries), Details(fp, dm.entries))
  }

  /** generate_accuracy_report on the two lists. */
  function Score(planted: seq<Entry>, detected: seq<Entry>): Report {
    ReportOf(PlantedIndex(planted), DetectedIndex(detected), |planted|, |detected|)
  }

  /**
   * The counts are set arithmetic on the two key sets: matches are the
   * shared keys, misses the planted keys not detected, false positives the
   * detected keys not planted; matches and misses cover the planted keys.
   */
  lemma ScoreCounts(planted: seq<Entry>, detected: seq<Entry>)
    ensures var r := Score(planted, detected);
            var p := PlantedIndex(planted).entries.Keys;
            var d := DetectedIndex(detected).entries.Keys;
            r.correctlyDetected == |p * d| && r.missedCount == |p - d| && r.falsePositives == |d - p|
            && r.correctlyDetected + r.missedCount == |p|
  {
    var pm := PlantedIndex(planted);
    var dm := DetectedIndex(detected);
    IndexKeys(pm);
    IndexKeys(dm);
    SharedCard(pm.order, dm.entries);
    SharedCard(dm.order, pm.entries);
    SharedSplit(pm.order, dm.entries);
  }

  /** The harmonic mean of two values in [0, 1] is in [0, 1]. */
  lemma F1Bounds(p: real, r: real)
    requires 0.0 <= p <= 1.0 && 0.0 <= r <= 1.0
    ensures 0.0 <= F1(p, r) <= 1.0
  {
    if p + r > 0.0 {
      ProductBounds(p, r);
      DivBounds(2.0 * (p * r), p + r);
    }
  }

  /**
   * The three detail lists hold one line per counted key: the matches and
   * misses carry the planted entry, the false positives the detected one.
   */
  lemma ScoreDetails(planted: seq<Entry>, detected: seq<Entry>)
    ensures var r := Score(planted, detected);
            var pm := PlantedIndex(planted).entries;
            var dm := DetectedIndex(detected).entries;
            |r.correct| == r.correctlyDetected && |r.missed| == r.missedCount
            && |r.falsePositiveDetails| == r.falsePositives
            && (forall d :: d in r.correct ==> (d.key, d.entry) in pm.Items && d.key in dm)
            && (forall d :: d in r.missed ==> (d.key, d.entry) in pm.Items && d.key !in dm)
            && (forall d :: d in r.falsePositiveDetails ==> (d.key, d.entry) in dm.Items && d.key !in pm)
  {
    ReportDetails(PlantedIndex(planted), DetectedIndex(detected), |planted|, |detected|);
  }

  lemma ReportDetails(pm: Index, dm: Index, plantedCount: nat, detectedCount: nat)
    requires Valid(pm) && Valid(dm)
    ensures var r := ReportOf(pm, dm, plantedCount, detectedCount);
            |r.correct| == r.correctlyDetected && |r.missed| == r.missedCount
            && |r.falsePositiveDetails| == r.falsePositives
            && (forall d :: d in r.correct ==> (d.key, d.entry) in pm.entries.Items && d.key in dm.entries)
            && (forall d :: d in r.missed ==> (d.key, d.entry) in pm.entries.Items && d.key !in dm.entries)
            && (forall d :: d in r.falsePositiveDetails ==> (d.key, d.entry) in dm.entries.Items && d.key !in pm.entries)
  {
    var tp := Shared(pm.order, dm.entries);
    var miss := Unshared(pm.order, dm.entries);
    var fp := Unshared(dm.order, pm.entries);
    SharedMembers(pm.order, dm.entries);
    UnsharedMembers(pm.order, dm.entries);
    UnsharedMembers(dm.order, pm.entries);
    DetailsExact(tp, pm.entries);
    DetailsExact(miss, pm.entries);
    DetailsExact(fp, dm.entries);
  }

  /** Precision, recall, F1 and accuracy all lie in [0, 1]. */
  lemma MetricsBounded(planted: seq<Entry>, detected: seq<Entry>)
    ensures var r := Score(planted, detected);
            0.0 <= r.precision <= 1.0 && 0.0 <= r.recall <= 1.0 && 0.0 <= r.f1 <= 1.0 && 0.0 <= r.accuracy <= 1.0
  {
    var pm := PlantedIndex(planted);
    var dm := DetectedIndex(detected);
    var tp := Shared(pm.order, dm.entries);
    IndexKeys(dm);
    SharedCard(pm.order, dm.entries);
    assert SetOf(pm.order) * dm.entries.Keys <= dm.entries.Keys;
    SubsetCard(SetOf(pm.order) * dm.entries.Keys, dm.entries.Keys);
    var r := Score(planted, detected);
    F1Bounds(r.precision, r.recall);
  }

  lemma SubsetCard(a: set<Key>, b: set<Key>)
    requires a <= b
    ensures |a| <= |b|
  {
    assert b == a + (b - a);
  }

  /**
   * Recall divides by the whole planted list: one unscorable planted entry
   * (no id, or a multi-shipment pattern) keeps recall below 1.
   */
  lemma SkippedPlantedCapsRecall(planted: seq<Entry>, detected: seq<Entry>, i: int)
    requires 0 <= i < |planted| && PlantedSkipped(planted[i])
    ensures Score(planted, detected).recall < 1.0
  {
    var tp := Shared(PlantedIndex(planted).order, DetectedIndex(detected).entries);
    SkippedShrinksIndex(planted, PlantedSkipped, i);
    assert |tp| < |planted|;
  }

  lemma {:induction false} SkippedShrinksIndex(entries: seq<Entry>, skip: Entry -> bool, i: int)
    requires 0 <= i < |entries| && skip(entries[i])
    ensures |BuildIndex(entries, skip).order| < |entries|
  {
    if i < |entries| - 1 {
      SkippedShrinksIndex(entries[..|entries| - 1], skip, i);
    }
  }

  /** Matching ignores the layer: relabelling a detected entry's layer changes no count or metric. */
  lemma LayerIgnored(planted: seq<Entry>, detected: seq<Entry>, i: int, layer: Option<int>)
    requires 0 <= i < |detected|
    ensures var r := Score(planted, detected);
            var r' := Score(planted, detected[i := detected[i].(layer := layer)]);
            r'.correctlyDetected == r.correctlyDetected && r'.missedCount == r.missedCount
            && r'.falsePositives == r.falsePositives && r'.precision == r.precision && r'.recall == r.recall
            && r'.f1 == r.f1 && r'.accuracy == r.accuracy
  {
    var detected' := detected[i := detected[i].(layer := layer)];
    assert forall j :: 0 <= j < |detected| ==>
      KeyOf(detected[j]) == KeyOf(detected'[j]) && DetectedSkipped(detected[j]) == DetectedSkipped(detected'[j]);
    IndexKeysOnly(detected, detected', DetectedSkipped);
    SameKeysSameMetrics(PlantedIndex(planted), DetectedIndex(detected), DetectedIndex(detected'), |planted|, |detected|);
  }

  /** Two detected dicts with the same keys in the same order give the same counts and metrics. */
  lemma SameKeysSameMetrics(pm: Index, dm: Index, dm': Index, plantedCount: nat, detectedCount: nat)
    requires dm.order == dm'.order && dm.entries.Keys == dm'.entries.Keys
    ensures var r := ReportOf(pm, dm, plantedCount, detectedCount);
            var r' := ReportOf(pm, dm', plantedCount, detectedCount);
            r'.correctlyDetected == r.correctlyDetected && r'.missedCount == r.missedCount
            && r'.falsePositives == r.falsePositives && r'.precision == r.precision && r'.recall == r.recall
            && r'.f1 == r.f1 && r'.accuracy == r.accuracy
  {
    KeysDecide(pm.order, dm.entries, dm'.entries);
  }

  lemma {:induction false} KeysDecide(s: seq<Key>, m: map<Key, Entry>, m': map<Key, Entry>)
    requires m.Keys == m'.Keys
    ensures Shared(s, m) == Shared(s, m') && Unshared(s, m) == Unshared(s, m')
  {
    if s != [] {
      KeysDecide(s[..|s| - 1], m, m');
      assert s[|s| - 1] in m <==> s[|s| - 1] in m'.Keys;
    }
  }

  // ---------------------------------------------------------------------
  // generate_accuracy_report, loop by loop
  // ---------------------------------------------------------------------

  /** Fill a dict from the entries that are not skipped, in list order. */
  method IndexEntries(entries: seq<Entry>, skip: Entry -> bool) returns (d: Index)
    ensures d == BuildIndex(entries, skip)
  {
    d := Index([], map[]);
    for i := 0 to |entries|
      invariant d == BuildIndex(entries[..i], skip)
    {
      assert entries[..i + 1][..i] == entries[..i];
      if !skip(entries[i]) {
        d := Put(d, entries[i]);
      }
    }
    assert entries[..|entries|] == entries;
  }

  /** One more key of the order extends the shared list and its details by that key, if held. */
  lemma SharedStep(order: seq<Key>, i: nat, m: map<Key, Entry>, e: map<Key, Entry>)
    requires i < |order|
    ensures Shared(order[..i + 1], m) == Shared(order[..i], m) + (if order[i] in m then [order[i]] else [])
    ensures Details(Shared(order[..i + 1], m), e)
            == Details(Shared(order[..i], m), e) + (if order[i] in m && order[i] in e then [Detail(order[i], e[order[i]])] else [])
  {
    assert order[..i + 1][..i] == order[..i];
    if order[i] !in m {
      assert Shared(order[..i + 1], m) == Shared(order[..i], m);
    }
  }

  /** One more key of the order extends the unshared list and its details by that key, if missing. */
  lemma UnsharedStep(order: seq<Key>, i: nat, m: map<Key, Entry>, e: map<Key, Entry>)
    requires i < |order|
    ensures Unshared(order[..i + 1], m) == Unshared(order[..i], m) + (if order[i] !in m then [order[i]] else [])
    ensures Details(Unshared(order[..i + 1], m), e)
            == Details(Unshared(order[..i], m), e) + (if order[i] !in m && order[i] in e then [Detail(order[i], e[order[i]])] else [])
  {
    assert order[..i + 1][..i] == order[..i];
    if order[i] in m {
      assert Unshared(order[..i + 1], m) == Unshared(order[..i], m);
    }
  }

  /** The keys of d, in order, that the other dict also holds, with their entries. */
  method CollectShared(order: seq<Key>, entries: map<Key, Entry>, other: map<Key, Entry>) returns (count: nat, details: seq<Detail>)
    requires forall k :: k in order ==> k in entries
    ensures count == |Shared(order, other)| && details == Details(Shared(order, other), entries)
  {
    count := 0;
    details := [];
    for i := 0 to |order|
      invariant count == |Shared(order[..i], other)| && details == Details(Shared(order[..i], other), entries)
    {
      var key := order[i];
      SharedStep(order, i, other, entries);
      if key in other {
        count := count + 1;
        details := details + [Detail(key, entries[key])];
      }
    }
    assert order[..|order|] == order;
  }

  /** The keys of d, in order, that the other dict lacks, with their entries. */
  method CollectUnshared(order: seq<Key>, entries: map<Key, Entry>, other: map<Key, Entry>) returns (count: nat, details: seq<Detail>)
    requires forall k :: k in order ==> k in entries
    ensures count == |Unshared(order, other)| && details == Details(Unshared(order, other), entries)
  {
    count := 0;
    details := [];
    for i := 0 to |order|
      invariant count == |Unshared(order[..i], other)| && details == Details(Unshared(order[..i], other), entries)
    {
      var key := order[i];
      UnsharedStep(order, i, other, entries);
      if key !in other {
        count := count + 1;
        details := details + [Detail(key, entries[key])];
      }
    }
    assert order[..|order|] == order;
  }

  method GenerateAccuracyReport(planted: seq<Entry>, detected: seq<Entry>) returns (report: Report)
    ensures report == Score(planted, detected)
  {
    var plantedMap := IndexEntries(planted, PlantedSkipped);
    var detectedMap := IndexEntries(detected, DetectedSkipped);
    report := ReportFromIndexes(plantedMap, detectedMap, |planted|, |detected|);
  }

  /** The counts, metrics and detail lists of the report, from the two dicts. */
  method ReportFromIndexes(plantedMap: Index, detectedMap: Index, plantedCount: nat, detectedCount: nat)
    returns (report: Report)
    requires Valid(plantedMap) && Valid(detectedMap)
    ensures report == ReportOf(plantedMap, detectedMap, plantedCount, detectedCount)
  {
    var detectedCorrectly, correctList := CollectShared(plantedMap.order, plantedMap.entries, detectedMap.entries);
    var missedCount, missedDetails := CollectUnshared(plantedMap.order, plantedMap.entries, detectedMap.entries);
    var falsePositives, falsePositiveDetails := CollectUnshared(detectedMap.order, detectedMap.entries, plantedMap.entries);
    var precision := Ratio(detectedCorrectly, detectedCorrectly + falsePositives);
    var recall := Ratio(detectedCorrectly, plantedCount);
    var f1Score := F1(precision, recall);
    var accuracy := Ratio(detectedCorrectly, detectedCount);
    report := Report(plantedCount, detectedCount, detectedCorrectly, missedCount, falsePositives,
                     precision, recall, f1Score, accuracy, correctList, missedDetails, falsePositiveDetails);
  }

  // ---------------------------------------------------------------------
  // Proof helpers: set and real-arithmetic facts with no counterpart in the source,
  // used only inside the key-count and metric proofs above
  // ---------------------------------------------------------------------

  lemma SetOfSnoc(s: seq<Key>)
    requires s != []
    ensures SetOf(s) == SetOf(s[..|s| - 1]) + {s[|s| - 1]}
    ensures NoDuplicates(s) ==> s[|s| - 1] !in SetOf(s[..|s| - 1]) && NoDuplicates(s[..|s| - 1])
  {
    assert s == s[..|s| - 1] + [s[|s| - 1]];
  }

  lemma AddOne(a: set<Key>, b: set<Key>, x: Key)
    requires x !in a
    ensures x in b ==> |(a + {x}) * b| == |a * b| + 1 && (a + {x}) - b == a - b
    ensures x !in b ==> (a + {x}) * b == a * b && |(a + {x}) - b| == |a - b| + 1
  {
    if x in b {
      assert (a + {x}) * b == (a * b) + {x};
    } else {
      assert (a + {x}) - b == (a - b) + {x};
    }
  }

  lemma ScaleDown(a: real, b: real)
    requires 0.0 <= a && 0.0 <= b <= 1.0
    ensures 0.0 <= a * b <= a
  {
  }

  lemma ScaleDownLeft(a: real, b: real)
    requires 0.0 <= a <= 1.0 && 0.0 <= b
    ensures 0.0 <= a * b <= b
  {
  }

  lemma DivBounds(x: real, y: real)
    requires y > 0.0 && 0.0 <= x <= y
    ensures 0.0 <= x / y <= 1.0
  {
  }

  lemma ProductBounds(p: real, r: real)
    requires 0.0 <= p <= 1.0 && 0.0 <= r <= 1.0
    ensures 0.0 <= 2.0 * (p * r) <= p + r
  {
    var x := p * r;
    ScaleDown(p, r);
    ScaleDownLeft(p, r);
    assert 0.0 <= x && x <= p && x <= r;
    TwiceBelowSum(x, p, r);
  }

  lemma TwiceBelowSum(x: real, p: real, r: real)
    requires 0.0 <= x && x <= p && x <= r
    ensures 0.0 <= 2.0 * x <= p + r
  {
  }
}
