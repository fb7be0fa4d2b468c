# Trade-Anomaly detection core, modelled in Dafny

Trade-Anomaly screens export shipments for problems in three layers and
scores the result against a list of planted anomalies:

- **Layer 1, rules** (`RuleEngine`): nine row checks run in a fixed order.
  They cover price × quantity against the declared FOB total, the Incoterm
  freight rules, drawback on rejected shipments, payment status against
  payment days, insurance, and the HS-code format. Each check appends one
  record per failing row.
- **Layer 2, statistics** (`StatisticalDetector`, `Quantiles`,
  `StatisticalProperties`): IQR envelopes with multiplier 2.0 (pandas'
  linear-interpolation quantiles) over groups of at least five shipments.
  The groups are by product, by route, and by route plus container. Two
  per-buyer checks compare trends: recent payment delays against earlier
  ones, and the latest month's volume against the mean of the earlier
  months.
- **Layer 3, language model** (`LlmDetector`): the top decile of shipments
  by FOB value is joined with the catalog. A keyword filter clears codes
  that obviously fit. The rest go to the model in batches of at most 15,
  with replies cached by batch. Only confident mismatches
  (confidence ≥ 0.8) become records. A second check flags transit times
  above mean + 3 standard deviations. The model endpoint is a `Client`
  value: its reply to a batch (or a raised error), the prompt text, and
  the JSON parser.
- **Pipeline** (`Pipeline`): the three layers, each on a fresh detector,
  with their records concatenated in layer order.
- **Accuracy report** (`AccuracyReport`): planted and detected records are
  indexed by (shipment id, anomaly type). Matches, misses and false
  positives give precision, recall, F1 and accuracy.
- **Dashboard** (`Dashboard`): the cost-savings estimate over the anomaly
  list, and the severity/layer/type filter of the anomaly explorer.

Where the source changes state step by step, the model is imperative.
`RuleEngine`, `StatisticalDetector`, `LlmDetector` and `AnomalyPipeline`
are classes whose methods append to an `anomalies` field in loops. Each
method is proved to produce a specification function of its inputs
(`Select`, `PriceRecords`, `BatchStep`/`FoldBatches`, `PipelineRecords`,
…). The properties are then proved about those functions as lemmas. The
accuracy report and the savings estimate are methods with loops, proved
equal to `Score` and `SavingsOf`.

Money is `real`, day counts and quantities are `int`, and a NaN
`days_to_payment` is `None`. NaN results are modelled as the comparisons
they make fail:
- an empty mean is `None`;
- a sample standard deviation below two values is `None`;
- a zero `total_fob` in the price-mismatch ratio is +inf, or NaN when the
  calculated total is also zero.

## Model

| member | source | states |
|---|---|---|
| Text.Lower | src/llm_detector.py:127-131 | lower-casing keeps the length and maps each character on its own: A–Z to a–z, the Kelvin sign U+212A to 'k', everything else unchanged; a character lower-cases to ASCII exactly when it is ASCII or the Kelvin sign |
| Text.Strip | src/llm_detector.py:126 | the result is a slice of the input with only whitespace (as `str.isspace` defines it) before and after it, and no whitespace at either of its ends |
| Text.WordCount | src/llm_detector.py:62-64 | `len(text.split())`: at most the length, and zero exactly when the text is all whitespace |
| Text.WordCountJoin | src/llm_detector.py:62-64 | the words of `a + " " + b` are those of `a` plus those of `b` |
| Text.IndexOf | src/llm_detector.py:215 | `find`: None exactly when the character is absent, else the first index holding it |
| Text.LastIndexOf | src/llm_detector.py:216 | `rfind`: None exactly when the character is absent, else the last index holding it |
| Text.NatString | src/statistical_detector.py:324 | `str(n)`: non-empty decimal digits with no leading zero |
| Text.NatStringValue | src/statistical_detector.py:324 | reading `str(n)` back as digits gives n |
| Numeric.Abs | src/rule_engine.py:74 | the result is non-negative and equals x or -x |
| Numeric.Mean | src/statistical_detector.py:317-318 | `Series.mean()`: missing (NaN) exactly on an empty series, else mean × count = sum |
| Numeric.MeanBounds | src/statistical_detector.py:384 | the mean of values in [lo, hi] is in [lo, hi] |
| Shipments.FindProduct | src/statistical_detector.py:102-109 | None exactly when no catalog row has the id, else the first row with that id |
| Shipments.FindRoute | src/statistical_detector.py:175-180 | None exactly when no route has that origin and destination, else the first row that has them (`.iloc[0]`) |
| Shipments.FindBuyer | src/statistical_detector.py:323-325 | None exactly when no buyer has the id, else the first row with that id (`.iloc[0]`) |
| Anomalies.Summarize | src/rule_engine.py:369-384 | `value_counts()`: the total is the list length, and a severity or type appears exactly when it occurs, with its count; an empty list gives empty maps |
| Anomalies.SummarySeveritiesAddUp | src/rule_engine.py:369-384 | the four severity counts of a summary add up to its total |
| Grouping.Distinct | src/statistical_detector.py:87 | `unique()`: the same members, each once, no longer than the input |
| Grouping.Where | src/statistical_detector.py:88 | `df[df[key] == k]`: exactly the rows whose key is k, no more rows than the frame |
| Grouping.WhereAppend | src/statistical_detector.py:88 | the mask distributes over concatenation, so the kept rows stay in frame order |
| Grouping.WhereUnique | src/statistical_detector.py:88 | a group of a frame with unique shipment ids has unique ids |
| Grouping.Column | src/statistical_detector.py:331 | a column: the key of every row, in order |
| Grouping.ConcatMapMembers | src/statistical_detector.py:87-140 | a record of the per-group appends comes from one of the groups, and every group's records are there |
| Grouping.SortBy | src/statistical_detector.py:303 | `sort_values`: the result is ordered and a permutation of the input |
| Grouping.KeyOrder | src/statistical_detector.py:160 | Python's order on tuples of strings is a total preorder |
| Grouping.GroupKeys | src/statistical_detector.py:160-162 | the `groupby` keys: ascending, each once, exactly the keys of some row |
| Quantiles.SortReals | src/statistical_detector.py:61-62 | the values of a series in ascending order, a permutation of them |
| Quantiles.SortedUnique | src/statistical_detector.py:61-62 | two sorted arrangements of the same values are equal, so quantiles do not depend on row order |
| Quantiles.Position | src/statistical_detector.py:61-62 | the virtual index q·(n−1) lies in [0, n−1] |
| Quantiles.QuantileBracket | src/statistical_detector.py:61-62 | a quantile lies between the sorted values on either side of its virtual index |
| Quantiles.QuantileBetween | src/statistical_detector.py:61-62 | a quantile lies between the series' minimum and maximum |
| Quantiles.QuantileMonotone | src/statistical_detector.py:61-62 | a larger q never gives a smaller quantile |
| Quantiles.EnvelopeOrdered | src/statistical_detector.py:63-66 | with Q1 ≤ Q3 and k ≥ 0: lower ≤ Q1 ≤ Q3 ≤ upper |
| Quantiles.IqrBoundsOrdered | src/statistical_detector.py:43-68 | Q1 and Q3 lie within the series' range with Q1 ≤ Q3; for k ≥ 0 no value between the quartiles is an outlier |
| Quantiles.IqrBoundsOrderInsensitive | src/statistical_detector.py:43-68 | the bounds depend only on the multiset of values |
| Quantiles.ConcreteQuartiles | src/statistical_detector.py:61-62 | on a nine-value sample, Q1 = 100 and Q3 = 120 under linear interpolation |
| Quantiles.OutlierAboveUpperBound | src/statistical_detector.py:94-99 | with multiplier 2 the envelope of that sample is [60, 160], and 300 is flagged |
| Quantiles.NoOutlierBelowUpperBound | src/statistical_detector.py:94-99 | with 150 in place of 300, 150 is inside the envelope and not flagged |
| RuleEngine.RuleEngine.constructor | src/rule_engine.py:26-41 | the engine holds the four tables and starts with no records |
| RuleEngine.RuleEngine.CheckRow | src/rule_engine.py:86-101 | appends the check's record for the row exactly when the row fails the check |
| RuleEngine.RuleEngine.Scan | src/rule_engine.py:84-101 | one pass over the table appends one record per failing row, in row order |
| RuleEngine.RuleEngine.CheckPriceMismatch | src/rule_engine.py:61-101 | appends a HIGH record for each row where \|total_fob − qty × unit_price\| / total_fob exceeds 1% |
| RuleEngine.RuleEngine.CheckIncotermCompliance | src/rule_engine.py:107-161 | appends the CIF-without-freight records (CRITICAL), then the EXW-with-freight records (HIGH) |
| RuleEngine.RuleEngine.CheckDrawbackValidity | src/rule_engine.py:167-200 | appends a CRITICAL record for each rejected shipment that claims drawback |
| RuleEngine.RuleEngine.CheckPaymentConsistency | src/rule_engine.py:206-260 | appends received-without-days records, then pending-with-days-in-(0,180) records, both MEDIUM |
| RuleEngine.RuleEngine.CheckInsuranceValidity | src/rule_engine.py:266-322 | appends insurance-above-2%-of-FOB records (LOW), then FOB-with-insurance records (MEDIUM) |
| RuleEngine.RuleEngine.CheckHsCodeFormat | src/rule_engine.py:328-363 | appends a CRITICAL record for each code that is not exactly eight Unicode decimal digits (what `\d` matches); the evidence's `contains_letters` is false exactly for a non-empty code of `str.isdigit` digits |
| RuleEngine.RuleEngine.RunAllRules | src/rule_engine.py:43-55 | appends the nine checks' records in the fixed order and returns the whole list |
| RuleEngine.RuleEngine.GetSummary | src/rule_engine.py:369-384 | the summary total is the number of records, and its severity counts add up to it |
| RuleEngine.SelectTyped | src/rule_engine.py:86-101 | every record a check appends is layer 1, with that check's type and severity |
| RuleEngine.SelectSound | src/rule_engine.py:84-101 | a check appends a record only for a row that fails it, and that record is the row's |
| RuleEngine.SelectComplete | src/rule_engine.py:84-101 | every row that fails a check gets that check's record |
| RuleEngine.SelectIsOneRecordPerFailingRow | src/rule_engine.py:84-101 | a check's records are exactly the records of its failing rows (both directions), all layer 1 and of its type and severity |
| RuleEngine.SelectCountKey | src/rule_engine.py:84-101 | a check appends, under its own type, as many records for an id as there are failing rows with that id, and none under other types |
| RuleEngine.ExactlyOneRecordPerFailure | src/rule_engine.py:43-55 | with unique ids, run_all_rules emits exactly one record of a check's type for a shipment that fails it, and none for one that passes |
| RuleEngine.RuleRecordsAreLayerOne | src/rule_engine.py:43-55 | every record of the rule layer is tagged layer 1 |
| RuleEngine.PriceMismatchScenario | src/rule_engine.py:72-97 | 1000 × 5.50 against a declared 7000 is flagged HIGH, with discrepancy 1500 (about 21% of the declared total) |
| RuleEngine.ExwScenario | src/rule_engine.py:143-161 | EXW with freight 2500 is an EXW error (HIGH, freight 2500) and not a CIF mismatch |
| RuleEngine.HsCodeScenario | src/rule_engine.py:343-363 | a seven-digit code is flagged CRITICAL; an eight-digit code is not |
| RuleEngine.UnicodeDigitScenario | src/rule_engine.py:343-358 | eight Arabic-Indic digits pass the format check; "1234567²" is flagged, with `contains_letters` false because `isdigit` accepts the superscript two |
| RuleEngine.InsuranceChecksIndependent | src/rule_engine.py:282-322 | an FOB shipment insured at 5% of FOB fails both insurance checks |
| StatisticalDetector.RouteKeyIsPair | src/statistical_detector.py:160-162 | every route group key is an (origin, destination) pair |
| StatisticalDetector.BuyerHistory | src/statistical_detector.py:303 | a buyer's shipments ordered by date: sorted, and a permutation of the buyer's rows |
| StatisticalDetector.PaymentDays | src/statistical_detector.py:308 | `dropna()`: a delay is kept exactly when some row records it, and there are no more delays than rows |
| StatisticalDetector.PaymentDaysAppend | src/statistical_detector.py:308 | `dropna()` distributes over concatenation, so the delays stay in history order |
| StatisticalDetector.Months | src/statistical_detector.py:372-378 | a buyer's calendar months, ascending, each once, exactly the months of its rows |
| StatisticalDetector.Volumes | src/statistical_detector.py:378 | the monthly sums of quantity, one per month |
| StatisticalDetector.StatisticalDetector.constructor | src/statistical_detector.py:9-24 | the detector holds the four tables and starts with no records |
| StatisticalDetector.StatisticalDetector.ScanProduct | src/statistical_detector.py:87-111 | for one product: appends nothing for a group under five rows or a product missing from the catalog, else that group's outliers |
| StatisticalDetector.StatisticalDetector.AppendPriceOutliers | src/statistical_detector.py:112-140 | appends a price record for each group row outside the envelope, in row order |
| StatisticalDetector.StatisticalDetector.DetectPriceOutliers | src/statistical_detector.py:74-140 | appends the price records of every product, in `unique()` order |
| StatisticalDetector.StatisticalDetector.ScanRoute | src/statistical_detector.py:162-180 | for one route: nothing under five rows, else the rows outside the transit envelope |
| StatisticalDetector.StatisticalDetector.AppendTransitOutliers | src/statistical_detector.py:182-209 | appends a transit record for each group row outside the envelope, in row order |
| StatisticalDetector.StatisticalDetector.DetectTransitTimeOutliers | src/statistical_detector.py:146-209 | appends the transit records of every route, in `groupby` key order |
| StatisticalDetector.StatisticalDetector.ScanLane | src/statistical_detector.py:231-245 | for one lane: nothing under five rows or with Q3 = 0, else the gated outliers |
| StatisticalDetector.StatisticalDetector.AppendFreightOutliers | src/statistical_detector.py:247-279 | appends a record for each row outside the envelope and above both 1.5 × Q3 and 500 |
| StatisticalDetector.StatisticalDetector.DetectFreightOutliers | src/statistical_detector.py:215-279 | appends the freight records of every (route, container) group, in key order |
| StatisticalDetector.StatisticalDetector.ScanBuyerPayments | src/statistical_detector.py:302-348 | appends the payment-trend record of one buyer, if the buyer is flagged |
| StatisticalDetector.StatisticalDetector.DetectPaymentBehaviorChange | src/statistical_detector.py:285-348 | appends the payment-trend records of every buyer, in `unique()` order |
| StatisticalDetector.StatisticalDetector.ScanBuyerVolume | src/statistical_detector.py:374-411 | appends the volume-spike record of one buyer, if the buyer is flagged |
| StatisticalDetector.StatisticalDetector.DetectVolumeSpikes | src/statistical_detector.py:354-411 | appends the volume-spike records of every buyer, in `unique()` order |
| StatisticalDetector.StatisticalDetector.RunAllDetections | src/statistical_detector.py:26-37 | appends the five detectors' records in order and returns the whole list |
| StatisticalDetector.StatisticalDetector.GetSummary | src/statistical_detector.py:417-432 | the summary total is the number of records, and each severity and type count is its count in the list |
| StatisticalProperties.PriceOutliersMembers | src/statistical_detector.py:96-140 | within a group, a record is appended exactly when it is the record of a row outside the envelope |
| StatisticalProperties.PriceOutliersSound | src/statistical_detector.py:96-140 | each appended price record is that of a group row outside the envelope |
| StatisticalProperties.PriceOutliersComplete | src/statistical_detector.py:96-140 | each group row outside the envelope gets its record |
| StatisticalProperties.PriceGroupMembers | src/statistical_detector.py:87-111 | a product's records: none for a group under five rows or an unknown product, else a record is present exactly when it is that of an outlying row |
| StatisticalProperties.PriceOutliersOnePerRow | src/statistical_detector.py:96-140 | within a group with unique ids, a row has one record if it lies outside the envelope and none otherwise |
| StatisticalProperties.PriceRecordsOnePerRow | src/statistical_detector.py:74-140 | over a frame with unique ids, a flagged row has exactly one price record and any other row none |
| StatisticalProperties.PriceRecordsSound | src/statistical_detector.py:74-140 | every price record is the record of a flagged row of the frame |
| StatisticalProperties.PriceRecordsComplete | src/statistical_detector.py:74-140 | every flagged row of the frame gets its price record |
| StatisticalProperties.PriceRecordsExact | src/statistical_detector.py:74-140 | a record is present exactly when it is the record of a flagged row (both directions; the count is PriceRecordsOnePerRow) |
| StatisticalProperties.DeviationBand | src/statistical_detector.py:113-116 | with a positive catalog price, \|deviation\| > 50% exactly when the unit price is above 1.5× or below 0.5× the catalog price |
| StatisticalProperties.PriceRecordFacts | src/statistical_detector.py:112-140 | a price record is layer 2 and cites its row; it is HIGH exactly when \|deviation\| > 50%, else MEDIUM (always MEDIUM for a non-positive catalog price); its impact is qty × (unit − standard) |
| StatisticalProperties.TransitOutliersMembers | src/statistical_detector.py:169-209 | within a route group, a record is appended exactly when it is the record of a row outside the envelope |
| StatisticalProperties.TransitOutliersSound | src/statistical_detector.py:169-209 | each appended transit record is that of a group row outside the envelope |
| StatisticalProperties.TransitOutliersComplete | src/statistical_detector.py:169-209 | each group row outside the envelope gets its record |
| StatisticalProperties.TransitGroupMembers | src/statistical_detector.py:162-180 | a route's records: none under five rows, else a record is present exactly when it is that of a row outside the envelope |
| StatisticalProperties.TransitOutliersOnePerRow | src/statistical_detector.py:169-209 | within a group with unique ids, a row has one record if its days lie outside the envelope and none otherwise |
| StatisticalProperties.TransitRecordsOnePerRow | src/statistical_detector.py:146-209 | over a frame with unique ids, a flagged row has exactly one transit record and any other row none |
| StatisticalProperties.SameRoute | src/statistical_detector.py:160-162 | all rows of a route group share its origin and destination |
| StatisticalProperties.TransitRecordsSound | src/statistical_detector.py:146-209 | every transit record is the record of a flagged row of the frame |
| StatisticalProperties.TransitRecordsComplete | src/statistical_detector.py:146-209 | every flagged row of the frame gets its transit record |
| StatisticalProperties.TransitRecordsExact | src/statistical_detector.py:146-209 | a record is present exactly when it is the record of a flagged row (both directions; the count is TransitRecordsOnePerRow) |
| StatisticalProperties.TransitRecordFacts | src/statistical_detector.py:174-209 | the expected time is the route table's average, or Q3 for an unknown route; the delay is actual − expected; CRITICAL exactly when the delay exceeds 20, else MEDIUM; the cost is 10 per day |
| StatisticalProperties.FreightOutliersMembers | src/statistical_detector.py:242-279 | within a lane, a record is appended exactly when it is the record of a row that passes the envelope-and-gate test |
| StatisticalProperties.FreightOutliersSound | src/statistical_detector.py:242-279 | each appended freight record is that of a gated outlier |
| StatisticalProperties.FreightOutliersComplete | src/statistical_detector.py:242-279 | each gated outlier gets its record |
| StatisticalProperties.FreightGroupMembers | src/statistical_detector.py:231-245 | a lane's records: none under five rows or with Q3 = 0, else a record is present exactly when it is that of a gated outlier |
| StatisticalProperties.FreightOutliersOnePerRow | src/statistical_detector.py:242-279 | within a group with unique ids, a row has one record if it passes the gated test and none otherwise |
| StatisticalProperties.FreightRecordsOnePerRow | src/statistical_detector.py:215-279 | over a frame with unique ids, a flagged row has exactly one freight record and any other row none |
| StatisticalProperties.FreightRecordsSound | src/statistical_detector.py:215-279 | every freight record is the record of a flagged row of the frame |
| StatisticalProperties.FreightRecordsComplete | src/statistical_detector.py:215-279 | every flagged row of the frame gets its freight record |
| StatisticalProperties.FreightRecordsExact | src/statistical_detector.py:215-279 | a record is present exactly when it is the record of a flagged row (both directions; the count is FreightRecordsOnePerRow) |
| StatisticalProperties.FreightRecordFacts | src/statistical_detector.py:238-279 | a freight record is layer 2; its freight exceeds 500 and 1.5 × Q3; it quotes Q3 (non-zero) as the median and freight − Q3 as the excess; HIGH exactly when the excess exceeds 500 |
| StatisticalProperties.PaymentCheckShape | src/statistical_detector.py:302-348 | the payment check gives at most one record per buyer history, naming the buyer |
| StatisticalProperties.PaymentCheckFacts | src/statistical_detector.py:302-348 | one direction (the converse is PaymentCheckComplete): a payment record needs at least five shipments and four recorded delays; it is layer 2 and MEDIUM, cites the last three shipments, and quotes the last three delays |
| StatisticalProperties.PaymentCheckComplete | src/statistical_detector.py:302-348 | a history gets one record exactly when it has five or more shipments, four or more delays, and the last three delays average more than 5 days above the earlier ones; otherwise none |
| StatisticalProperties.PaymentRecordsFlagBuyer | src/statistical_detector.py:302-348 | on the frame, a buyer is flagged exactly when it has shipments and its date-ordered history meets that trigger |
| StatisticalProperties.PaymentCheckAverages | src/statistical_detector.py:313-327 | the recent average is the mean of the last three delays and the historical average the mean of the earlier ones; their difference exceeds 5 days; the impact is that difference × 10000 |
| StatisticalProperties.PaymentCheckRecord | src/statistical_detector.py:313-348 | a payment record is the one built from the split of the delays into earlier and last three, with their means |
| StatisticalProperties.PaymentRecordFacts | src/statistical_detector.py:302-331 | on the frame: the history is the buyer's rows ordered by date, and the record cites that history's last three shipments |
| StatisticalProperties.PaymentRecordCitesOwnRows | src/statistical_detector.py:303-331 | every shipment a payment record cites is one of the buyer's own rows |
| StatisticalProperties.ThreePaymentsNeverFlagged | src/statistical_detector.py:310-322 | with exactly three recorded delays the earlier mean is NaN, so the buyer is never flagged |
| StatisticalProperties.PaymentOnePerBuyer | src/statistical_detector.py:302-348 | the payment detector never flags the same buyer twice |
| StatisticalProperties.VolumeCheckShape | src/statistical_detector.py:374-411 | the volume check gives at most one record per buyer, naming the buyer |
| StatisticalProperties.VolumeCheckFacts | src/statistical_detector.py:374-411 | one direction (the converse is VolumeCheckComplete): a volume record is layer 2 and MEDIUM; it needs three or more months; the latest month's volume exceeds twice the earlier mean; the spike ratio is missing exactly when that mean is 0 |
| StatisticalProperties.VolumeCheckComplete | src/statistical_detector.py:374-411 | a buyer gets one record exactly when it has three or more months and the latest month's volume exceeds twice the mean of the earlier months; otherwise none |
| StatisticalProperties.VolumeRecordsFlagBuyer | src/statistical_detector.py:374-411 | on the frame, a buyer is flagged exactly when it has shipments and they meet that trigger |
| StatisticalProperties.VolumeCheckCites | src/statistical_detector.py:396 | a volume record cites the group's shipments of its last month |
| StatisticalProperties.VolumeRecordFacts | src/statistical_detector.py:372-396 | on the frame: the latest month is the buyer's last calendar month, and the record cites exactly the buyer's shipments of that month |
| StatisticalProperties.MonthRowsCited | src/statistical_detector.py:396 | an id is cited exactly when it belongs to one of the buyer's rows of that month |
| StatisticalProperties.LatestMonthIsLast | src/statistical_detector.py:378-385 | the last month is that of one of the buyer's rows, and no row of the buyer is later |
| StatisticalProperties.VolumeOnePerBuyer | src/statistical_detector.py:374-411 | the volume detector never flags the same buyer twice |
| StatisticalProperties.StatRecordsLayerTwo | src/statistical_detector.py:26-37 | every record of the statistical layer is tagged layer 2 |
| LlmDetector.AtLeast | src/llm_detector.py:82-83 | exactly the rows at or above the threshold, no more rows than the frame |
| LlmDetector.AtLeastAppend | src/llm_detector.py:82-83 | the filter distributes over concatenation, so candidates keep row order |
| LlmDetector.TopRowIsCandidate | src/llm_detector.py:82-83 | a row with the largest FOB value is always among the candidates |
| LlmDetector.Enrich | src/llm_detector.py:106-122 | the join is no longer than its input |
| LlmDetector.EnrichMembers | src/llm_detector.py:106-122 | an entry is in the join exactly when it is some row joined with the catalog product it names; rows with unknown products are dropped |
| LlmDetector.HsPrefix | src/llm_detector.py:145 | the prefix is two characters, or empty for a shorter code |
| LlmDetector.KnownChapters | src/llm_detector.py:134-146 | the filter knows exactly chapters 61, 62, 69, 72, 73, 84, 85 and 94 |
| LlmDetector.UnknownChapterNotObvious | src/llm_detector.py:145-149 | a code under two characters, or of an unknown chapter, is never an obvious match |
| LlmDetector.DescriptionIgnored | src/llm_detector.py:124-131 | the product description plays no part in the filter |
| LlmDetector.ObviousByKeyword | src/llm_detector.py:146-147 | a keyword of the code's chapter occurring in the text makes the entry an obvious match |
| LlmDetector.ChairIsObvious | src/llm_detector.py:142-147 | a chapter-94 code on a chair is an obvious match |
| LlmDetector.KelvinDeskIsObvious | src/llm_detector.py:127-147 | a chapter-94 product named "DES" plus the Kelvin sign lower-cases to "desk" and is an obvious match |
| LlmDetector.Uncertain | src/llm_detector.py:90-93 | exactly the entries the filter cannot settle, no more than the input |
| LlmDetector.Slices | src/llm_detector.py:102-103 | `range(0, len, n)`: non-empty slices of at most n |
| LlmDetector.SlicesFlatten | src/llm_detector.py:102-103 | the slices put back together give the list again |
| LlmDetector.CallData | src/llm_detector.py:153 | a call carries the first min(15, len) entries of the batch, all of a batch of 15 or fewer |
| LlmDetector.EverySentOnce | src/llm_detector.py:102-104 | with slices of at most 15, every uncertain entry is sent exactly once, in order |
| LlmDetector.ExtractArrayText | src/llm_detector.py:214-219 | exists exactly when some '[' comes before some ']'; it is then the slice that starts with '[', ends with ']', and has no '[' before it and no ']' after it: from the first '[' to the last ']' |
| LlmDetector.Confident | src/llm_detector.py:222 | exactly the entries with truthy is_mismatch and confidence ≥ 0.8 (missing counts as 0) |
| LlmDetector.ConfidentAppend | src/llm_detector.py:222 | the filter distributes over concatenation, so kept entries stay in reply order |
| LlmDetector.ConfidentAll | src/llm_detector.py:222 | every kept entry is a confident mismatch |
| LlmDetector.HsRecords | src/llm_detector.py:243-255 | one record per mismatch, in order |
| LlmDetector.HsRecordsFacts | src/llm_detector.py:243-255 | each record names its entry's shipment and is a HIGH layer-3 HS mismatch quoting a confidence of at least 0.8 |
| LlmDetector.EstimateTokens | src/llm_detector.py:62-64 | the estimate is at least 1 and at least the word count |
| LlmDetector.EstimateTokensAtMost | src/llm_detector.py:62-64 | above the floor of 1, the estimate is at most 1.3 tokens per word |
| LlmDetector.ExtremeRows | src/llm_detector.py:288-311 | no more delay records than rows |
| LlmDetector.ExtremeRowsMembers | src/llm_detector.py:284-311 | a delay record is appended exactly for each row whose transit time exceeds mean + 3·std |
| LlmDetector.ExtremeRowsSound | src/llm_detector.py:288-311 | every delay record is that of a row above the threshold |
| LlmDetector.ExtremeRowsComplete | src/llm_detector.py:288-311 | every row above the threshold gets its delay record |
| LlmDetector.ExtremeRecordsLayer3 | src/llm_detector.py:297-311 | every delay record is a MEDIUM layer-3 EXTREME_TRANSIT_DELAY record of one row |
| LlmDetector.FewRowsNoDelays | src/llm_detector.py:284-288 | with fewer than two shipments the standard deviation is NaN and nothing is flagged |
| LlmDetector.UniformTransitNoDelays | src/llm_detector.py:284-288 | when every shipment took the same time, none is flagged |
| LlmDetector.NotAllExtreme | src/llm_detector.py:284-288 | with a non-negative std, some row is at or below the mean, so not every row is flagged |
| LlmDetector.DelaysNeverCoverAll | src/llm_detector.py:284-288 | with the sample std, the delay check never flags every shipment of a non-empty frame |
| LlmDetector.InitialConsistent | src/llm_detector.py:40-47 | a fresh detector satisfies the accounting invariant |
| LlmDetector.BatchStepConsistent | src/llm_detector.py:151-241 | one batch keeps the accounting invariant: calls match HS calls, HS tokens are input plus output, each call costs at least one token each way, the cache holds only confident mismatches, and every record is layer 3 |
| LlmDetector.CacheHitReplays | src/llm_detector.py:155-159 | a cache hit appends the cached records again, makes no call, counts no tokens, and counts the batch as skipped |
| LlmDetector.FailedCallChangesNothing | src/llm_detector.py:199-241 | a raised error leaves the whole detector state as it was |
| LlmDetector.ReplyCountsOneCall | src/llm_detector.py:199-238 | a reply counts one call and at least one token each way; it appends one record per confident mismatch and caches those mismatches under the batch's key |
| LlmDetector.RepeatedBatchReplays | src/llm_detector.py:155-238 | with the cache on, the same batch sent twice makes no second call and appends the same records again |
| LlmDetector.BatchStepGrows | src/llm_detector.py:151-241 | one batch makes at most one call and only appends records |
| LlmDetector.FoldConsistent | src/llm_detector.py:102-104 | the batch loop keeps the accounting invariant |
| LlmDetector.FoldCallsBound | src/llm_detector.py:102-104 | the batch loop makes at most one call per batch and keeps the earlier records in place |
| LlmDetector.Layer3Facts | src/llm_detector.py:378-397 | a fresh detector ends consistent (every record layer 3), with at most one call per batch of 15 uncertain candidates |
| LlmDetector.LlmDetector.constructor | src/llm_detector.py:26-49 | the detector holds its tables, client and cache flag, and starts with no records, calls, tokens or cached replies |
| LlmDetector.LlmDetector.EnrichWithProducts | src/llm_detector.py:106-122 | the loop builds the catalog join of the rows |
| LlmDetector.LlmDetector.ProcessHsResults | src/llm_detector.py:243-255 | appends one record per mismatch; nothing else changes |
| LlmDetector.LlmDetector.ValidateHsBatch | src/llm_detector.py:151-241 | one batch changes the detector state exactly as `BatchStep` says: replay on a cache hit, nothing on an error, else the recorded answer |
| LlmDetector.LlmDetector.RecordAnswer | src/llm_detector.py:224-238 | after a reply: its records, one more call, its tokens, the task metrics and the cache entry |
| LlmDetector.LlmDetector.ValidateHsCodes | src/llm_detector.py:70-104 | without a client nothing changes; otherwise the state is the batch loop over the slices of the uncertain top-decile candidates |
| LlmDetector.LlmDetector.ValidateInSlices | src/llm_detector.py:102-104 | the loop over `range(0, len, batch_size)` is the fold of the batch step over the slices |
| LlmDetector.LlmDetector.ValidateSliceAt | src/llm_detector.py:102-104 | one pass validates the slice at position i, and the rest of the fold continues from i + n |
| LlmDetector.LlmDetector.CheckTradeComplianceMinimal | src/llm_detector.py:273-311 | without a client nothing changes; otherwise the extreme-delay records are appended |
| LlmDetector.LlmDetector.AppendExtremeRows | src/llm_detector.py:297-311 | appends a record for each shipment above mean + 3·std, in frame order |
| LlmDetector.LlmDetector.RunAllDetections | src/llm_detector.py:378-397 | without a client: no records, no calls, nothing changed; otherwise HS validation in batches of 15 then the delay check, returning the records, calls and tokens |
| Pipeline.PipelineLayersOrdered | src/llm_detector.py:436-467 | the report lists layer-1 records, then layer-2, then layer-3: every layer is 1, 2 or 3, and layers never decrease |
| Pipeline.NoClientNoCalls | src/llm_detector.py:385-387 | without a client there are no calls, and the records are the rule records followed by the statistical ones |
| Pipeline.CallsAtMostBatches | src/llm_detector.py:389 | with a client, at most one call per batch of 15 uncertain candidates |
| Pipeline.AnomalyPipeline.constructor | src/llm_detector.py:416-425 | the pipeline holds its tables and client, with no records, calls or tokens |
| Pipeline.AnomalyPipeline.RunRules | src/llm_detector.py:436-446 | layer 1 on a fresh rule engine gives the rule records |
| Pipeline.AnomalyPipeline.RunStatistics | src/llm_detector.py:448-458 | layer 2 on a fresh detector gives the statistical records |
| Pipeline.AnomalyPipeline.RunLanguageModel | src/llm_detector.py:460-466 | layer 3 on a fresh, caching detector gives its records and call count |
| Pipeline.AnomalyPipeline.RunLayers | src/llm_detector.py:436-466 | the three layers' records, concatenated in order, with layer 3's calls |
| Pipeline.AnomalyPipeline.Record | src/llm_detector.py:467-469 | appends the records and takes the call count and token totals |
| Pipeline.AnomalyPipeline.RunFullAnalysis | src/llm_detector.py:427-489 | appends the three layers' records in layer order; the call count is layer 3's; returns the accumulated list and the calls |
| AccuracyReport.EntryOf | src/generate_accuracy_report.py:33-41 | a pipeline record reads back with its type tag and layer, and it is skipped exactly when it has no shipment id |
| AccuracyReport.Put | src/generate_accuracy_report.py:31 | `d[key] = e`: the key now maps to e, no other key changes, and the order grows by at most one |
| AccuracyReport.BuildIndex | src/generate_accuracy_report.py:23-41 | the dict built by the loop is well formed and no longer than the list |
| AccuracyReport.IndexMembers | src/generate_accuracy_report.py:23-41 | a key is in the dict exactly when some entry that is not skipped has it |
| AccuracyReport.IndexKeepsLast | src/generate_accuracy_report.py:24-31 | duplicate keys collapse: the dict holds the last entry with the key |
| AccuracyReport.IndexKeysOnly | src/generate_accuracy_report.py:23-41 | the dict's keys and their order depend only on the entries' keys and skip flags |
| AccuracyReport.PatternIdsNotScored | src/generate_accuracy_report.py:25-28 | a planted multi-shipment pattern (textual id with '-') is never scored |
| AccuracyReport.PipelineKeysScored | src/generate_accuracy_report.py:33-41 | a key is scored exactly when some row-level pipeline record has it; buyer-level records never are |
| AccuracyReport.Shared | src/generate_accuracy_report.py:47-48 | the matched keys are no more than the planted keys |
| AccuracyReport.SharedMembers | src/generate_accuracy_report.py:47-48 | a key is matched exactly when it is planted and detected |
| AccuracyReport.Unshared | src/generate_accuracy_report.py:59-60 | the unmatched keys are no more than the keys walked |
| AccuracyReport.UnsharedMembers | src/generate_accuracy_report.py:59-60 | a key is unmatched exactly when it is in the walked dict and not in the other |
| AccuracyReport.SharedSplit | src/generate_accuracy_report.py:43-67 | matched plus missed keys are all the planted keys |
| AccuracyReport.Details | src/generate_accuracy_report.py:50-54 | no more detail lines than keys |
| AccuracyReport.DetailsExact | src/generate_accuracy_report.py:50-67 | when every key is in the dict, the details are those keys, in order, each with its stored entry |
| AccuracyReport.Ratio | src/generate_accuracy_report.py:90-93 | a / b, or 0 when b is 0: in [0, 1] when a ≤ b, and ratio × b = a |
| AccuracyReport.F1Bounds | src/generate_accuracy_report.py:96 | the harmonic mean of two values in [0, 1] is in [0, 1] |
| AccuracyReport.ScoreCounts | src/generate_accuracy_report.py:43-105 | matches are the planted ∩ detected keys, misses planted − detected, false positives detected − planted; matches plus misses are the planted keys |
| AccuracyReport.ScoreDetails | src/generate_accuracy_report.py:43-83 | one detail line per counted key: matches and misses carry the planted entry, false positives the detected one |
| AccuracyReport.MetricsBounded | src/generate_accuracy_report.py:89-111 | precision, recall, F1 and accuracy all lie in [0, 1] |
| AccuracyReport.SkippedPlantedCapsRecall | src/generate_accuracy_report.py:86-93 | recall divides by the whole planted list, so one unscorable planted entry keeps the unrounded recall below 1 (the printed `round(recall, 4)` may still show 1.0) |
| AccuracyReport.LayerIgnored | src/generate_accuracy_report.py:34-41 | relabelling a detected record's layer changes no count or metric |
| AccuracyReport.SameKeysSameMetrics | src/generate_accuracy_report.py:43-111 | two detected dicts with the same keys in the same order give the same counts and metrics |
| AccuracyReport.IndexEntries | src/generate_accuracy_report.py:23-41 | the loop builds the dict of the entries that are not skipped |
| AccuracyReport.CollectShared | src/generate_accuracy_report.py:44-54 | counts and lists the planted keys that were detected, in planted order, with their planted entries |
| AccuracyReport.CollectUnshared | src/generate_accuracy_report.py:57-83 | counts and lists the keys of one dict missing from the other, in order, with their entries |
| AccuracyReport.GenerateAccuracyReport | src/generate_accuracy_report.py:10-111 | the report is the score of the two lists, whose counts, details and metric bounds are proved above |
| AccuracyReport.ReportFromIndexes | src/generate_accuracy_report.py:43-111 | the counts, metrics and detail lists computed from the two dicts |
| Dashboard.CalculateCostSavings | src/app.py:237-279 | one pass adds each record's amount to the total its type names, giving the five totals of `SavingsOf` |
| Dashboard.AddRecord | src/app.py:247-277 | one elif branch: the record's type picks the total and the amount |
| Dashboard.UnpricedAddsNothing | src/app.py:250-277 | a record of a type with no branch leaves every total unchanged |
| Dashboard.SavingsAppend | src/app.py:247-277 | the totals of a concatenation are the sums of the parts' totals |
| Dashboard.SavingsOrderFree | src/app.py:247-277 | over exact reals, the estimate does not depend on the order of two runs of records (the program's float sums may differ in the last bits) |
| Dashboard.FlatAmounts | src/app.py:253-277 | prevented disputes are 500 per freight mismatch + 2500 per bad HS code + 1000 per transit outlier; risk avoidance is 5000 per deteriorating buyer |
| Dashboard.NothingPricedNoSavings | src/app.py:239-279 | a list with no priced record saves nothing |
| Dashboard.PriceAmountsNonNegative | src/app.py:250-271 | without EXW records, direct savings are never negative (the price amounts are absolute values) |
| Dashboard.Filtered | src/app.py:846-850 | no more rows shown than rows |
| Dashboard.FilteredMembers | src/app.py:846-850 | a row is shown exactly when it is in the list and its severity (default MEDIUM), layer (default 2) and type (default "") are all selected |
| Dashboard.FilteredAppend | src/app.py:846-850 | filtering a concatenation filters each part, so shown rows keep list order |
| Dashboard.FilteredIdempotent | src/app.py:846-850 | filtering twice with the same selection shows the same rows |
| Dashboard.MissingKeysReadDefaults | src/app.py:848-850 | a record without the three keys is shown whenever MEDIUM, layer 2 and type "" are selected |
| Dashboard.FullSelectionShowsAll | src/app.py:846-850 | selecting every severity, layers 1–3 and every type shows every pipeline record |
| Dashboard.LayersOneToThreeShown | src/app.py:831-850 | with every severity and type selected and the default layers 1–3, every record of layers 1–3 is shown |
| Dashboard.AllRowsShown | src/app.py:846-850 | when every severity, type and record layer is selected, the filter shows every row, in order |

## Left out

- The MD5 cache key (`_get_cache_key`) is modelled by the value it hashes: the task tag and the ordered shipment ids of the call. Hash collisions are not modelled.
- The chat-completion call, the prompt text and `json.loads` are the three functions of a `Client` value. A reply is either text or a raised error. The network, the model name, the temperature and timing are not modelled. Other exceptions inside the `try` block, and JSON elements that are not objects, are not modelled.
- `Series.std()` involves a square root over the reals, which the model does not compute. The standard deviation is a parameter of the layer-3 delay check, and `IsSampleStd` states what it must be in the lemmas that need it.
- Rounding (`round(..., 4)`, `:.2f`), `int()` truncation inside evidence, and the impact and recommendation strings are not modelled. Each record keeps the money figure its impact text quotes (`impactAmount`) instead.
- Every `print`, the execution-time measurement, `print_metrics`, file reading and writing (`planted_anomalies.json`, `anomaly_report.json`, `accuracy_report.json`) and the accuracy report's printed summary and `summary` strings are not modelled. The report functions take the two lists directly.
- `analyze_buyer_patterns_disabled` only prints, and `generate_executive_summary` and `generate_reports` are outside this model.
- Text.Lower: leaves every non-ASCII character except the Kelvin sign unchanged, where `str.lower()` lower-cases them. No keyword match is lost by this: the Kelvin sign is the only non-ASCII character whose lower case is an ASCII letter, and U+0130 lower-cases to 'i' followed by the combining dot U+0307, through which no keyword of src/llm_detector.py:134-143 can match because none ends in 'i'.
- Duplicate ids in the product catalog or the buyer table: `set_index('id').to_dict('index')` (src/llm_detector.py:53-54) raises ValueError on them; the model does not raise and looks up the first row with the id.
- RuleEngine.RuleEngine.CheckHsCodeFormat: the two digit classes are those of Unicode 15.0; a Python built on another Unicode version may accept a few more or fewer characters as digits.
- `incoterm`, `customs_status` and `payment_status` are closed datatypes, where the source compares free strings. The checks only test for 'CIF', 'EXW', 'FOB', 'rejected', 'received' and 'pending', so any other value behaves like DDP, Cleared or Overdue in every check, and no behaviour is lost.
- Shipment ids are integers. Planted ids may also be null or text, and only text ids containing '-' are skipped.
- Layer 3 reads a reply's `shipment_id` as an integer or missing. A text or fractional id that the language model may return is not modelled: src/llm_detector.py:247 copies it unchanged into the record, and src/generate_accuracy_report.py:36-42 would then score it as a key of its own that never matches a planted integer id.
- "N/A" and "Unknown" defaults for missing catalog, buyer or record fields are not modelled: catalog, buyer and record fields are always present. The explorer filter's defaults for missing severity, layer and type are modelled.
- `hs_code` is a string column. The pandas `astype(str)` of a numeric code (which can drop leading zeros) is not modelled.
- Layer 2 iterates `unique()` keys in first-appearance order and `groupby` keys in ascending order, as pandas does. Months come from a (year, month) index.
- `sort_values('shipment_date')` is modelled as a stable sort by date. The pandas default is not guaranteed stable, so rows with equal dates may come out in another order in the source.
- Pipeline.AnomalyPipeline.RunFullAnalysis: appends the three layers' records after all three have run, where the source extends the list after each layer. Nothing reads the list in between, so the final list is the same.
- Pipeline.AnomalyPipeline.RunFullAnalysis: the `ImportError` fallbacks (a layer missing) are not modelled, since every layer is part of the model.
- LlmDetector.LlmDetector.ProcessHsResults: the record's `description` text and the default confidence of 0.8 are kept only as the evidence's confidence value. The description is not modelled.
- `self.df['month']` is added to the detector's frame as a side effect of `detect_volume_spikes`. The model computes the month of each row instead and leaves the frame unchanged.
- The Streamlit dashboard itself (layout, charts, widgets, session state) is not modelled, only the savings computation and the explorer's filter expression.
