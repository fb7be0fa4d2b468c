/**
 * The three-layer pipeline: rules, statistics, then the language-model
 * layer, whose records are concatenated in that order.
 */
module Pipeline {
  import opened Wrappers
  import opened Shipments
  import opened Anomalies
  import Rules = RuleEngine
  import Stats = StatisticalDetector
  import StatisticalProperties
  import opened LlmDetector

  /** Everything run_full_analysis collects from a fresh start. */
  function PipelineRecords(df: seq<Shipment>, catalog: seq<Product>, routes: seq<Route>, buyers: seq<Buyer>,
                           client: Option<Client>, std: Option<real>): seq<Anomaly>
  {
    Rules.RuleRecords(df) + Stats.StatRecords(df, catalog, routes, buyers) + Layer3Records(df, catalog, client, std)
  }

  /** The calls the layer-3 detector reports: none without a client. */
  function Layer3Calls(df: seq<Shipment>, catalog: seq<Product>, client: Option<Client>, std: Option<real>): nat {
    match client
    case None => 0
    case Some(c) => Layer3(Initial, df, catalog, c, true, std).llmCalls
  }

  /** Layers never go back: every record's layer is at most that of any later record. */
  predicate LayersOrdered(anoms: seq<Anomaly>) {
    forall i, j :: 0 <= i < j < |anoms| ==> anoms[i].layer <= anoms[j].layer
  }

  lemma Layer3RecordsLayer(df: seq<Shipment>, catalog: seq<Product>, client: Option<Client>, std: Option<real>)
    ensures AllInLayer(Layer3Records(df, catalog, client, std), 3)
  {
    if client.Some? {
      Layer3Facts(df, catalog, client.value, std);
    }
  }

  /**
   * The report lists layer-1 records first, then layer-2, then layer-3: every
   * record is of layer 1, 2 or 3 and the layers never decrease.
   */
  lemma PipelineLayersOrdered(df: seq<Shipment>, catalog: seq<Product>, routes: seq<Route>, buyers: seq<Buyer>,
                              client: Option<Client>, std: Option<real>)
    ensures var r := PipelineRecords(df, catalog, routes, buyers, client, std);
            LayersOrdered(r) && forall k :: 0 <= k < |r| ==> 1 <= r[k].layer <= 3
  {
    var l1, l2, l3 := Rules.RuleRecords(df), Stats.StatRecords(df, catalog, routes, buyers), Layer3Records(df, catalog, client, std);
    Rules.RuleRecordsAreLayerOne(df, Rules.RuleOrder);
    StatisticalProperties.StatRecordsLayerTwo(df, catalog, routes, buyers);
    Layer3RecordsLayer(df, catalog, client, std);
    assert AllInLayer(l1, 1) && AllInLayer(l2, 2) && AllInLayer(l3, 3);
    ThreeLayers(l1, l2, l3);
  }

  lemma ThreeLayers(l1: seq<Anomaly>, l2: seq<Anomaly>, l3: seq<Anomaly>)
    requires AllInLayer(l1, 1) && AllInLayer(l2, 2) && AllInLayer(l3, 3)
    ensures var r := l1 + l2 + l3;
            LayersOrdered(r) && forall k :: 0 <= k < |r| ==> 1 <= r[k].layer <= 3
  {
    var r := l1 + l2 + l3;
    forall k | 0 <= k < |r|
      ensures r[k].layer == (if k < |l1| then 1 else if k < |l1| + |l2| then 2 else 3)
    {
      if k < |l1| {
        assert r[k] == l1[k];
      } else if k < |l1| + |l2| {
        assert r[k] == l2[k - |l1|];
      } else {
        assert r[k] == l3[k - |l1| - |l2|];
      }
    }
  }

  /** Without a client the pipeline makes no call and emits no layer-3 record. */
  lemma NoClientNoCalls(df: seq<Shipment>, catalog: seq<Product>, routes: seq<Route>, buyers: seq<Buyer>,
                        std: Option<real>)
    ensures Layer3Calls(df, catalog, None, std) == 0
    ensures PipelineRecords(df, catalog, routes, buyers, None, std) == Rules.RuleRecords(df) + Stats.StatRecords(df, catalog, routes, buyers)
  {
  }

  /** With a client, at most one call per batch of 15 uncertain high-value shipments. */
  lemma CallsAtMostBatches(df: seq<Shipment>, catalog: seq<Product>, client: Client, std: Option<real>)
    ensures Layer3Calls(df, catalog, Some(client), std) <= |HsBatches(df, catalog, MaxPerCall)|
  {
    Layer3Facts(df, catalog, client, std);
  }

  class AnomalyPipeline {
    const df: seq<Shipment>
    const productCatalog: seq<Product>
    const routes: seq<Route>
    const buyers: seq<Buyer>
    const client: Option<Client>
    var allAnomalies: seq<Anomaly>
    var llmCalls: nat
    var inputTokens: nat
    var outputTokens: nat

    constructor (shipments: seq<Shipment>, catalog: seq<Product>, routeTable: seq<Route>, buyerTable: seq<Buyer>,
                 llmClient: Option<Client>)
      ensures df == shipments && productCatalog == catalog && routes == routeTable && buyers == buyerTable
      ensures client == llmClient
      ensures allAnomalies == [] && llmCalls == 0 && inputTokens == 0 && outputTokens == 0
    {
      df := shipments;
      productCatalog := catalog;
      routes := routeTable;
      buyers := buyerTable;
      client := llmClient;
      allAnomalies := [];
      llmCalls := 0;
      inputTokens := 0;
      outputTokens := 0;
    }

    /** Layer 1 on a fresh rule engine. */
    method RunRules() returns (records: seq<Anomaly>)
      ensures records == Rules.RuleRecords(df)
    {
      var ruleEngine := new Rules.RuleEngine(df, productCatalog, routes, buyers);
      records := ruleEngine.RunAllRules();
    }

    /** Layer 2 on a fresh statistical detector. */
    method RunStatistics() returns (records: seq<Anomaly>)
      ensures records == Stats.StatRecords(df, productCatalog, routes, buyers)
    {
      var statDetector := new Stats.StatisticalDetector(df, productCatalog, routes, buyers);
      records := statDetector.RunAllDetections();
    }

    /** Layer 3 on a fresh detector with the reply cache on. */
    method RunLanguageModel(std: Option<real>) returns (records: seq<Anomaly>, calls: nat, inTokens: nat, outTokens: nat)
      ensures records == Layer3Records(df, productCatalog, client, std)
      ensures calls == Layer3Calls(df, productCatalog, client, std)
    {
      var llmDetector := new LlmDetector(df, productCatalog, buyers, client, true);
      records, calls, inTokens, outTokens := llmDetector.RunAllDetections(std);
    }

    /** The three layers in order, each on a fresh detector; nothing of this object changes. */
    method RunLayers(std: Option<real>) returns (records: seq<Anomaly>, calls: nat, inTokens: nat, outTokens: nat)
      ensures records == PipelineRecords(df, productCatalog, routes, buyers, client, std)
      ensures calls == Layer3Calls(df, productCatalog, client, std)
    {
      var l1 := RunRules();
      var l2 := RunStatistics();
      var l3, l3Calls, l3In, l3Out := RunLanguageModel(std);
      records, calls, inTokens, outTokens := l1 + l2 + l3, l3Calls, l3In, l3Out;
    }

    /** Append one run's records and take its call count and token totals. */
    method Record(records: seq<Anomaly>, calls: nat, inTokens: nat, outTokens: nat)
      modifies this
      ensures allAnomalies == old(allAnomalies) + records
      ensures llmCalls == calls && inputTokens == inTokens && outputTokens == outTokens
    {
      allAnomalies := allAnomalies + records;
      llmCalls := calls;
      inputTokens := inTokens;
      outputTokens := outTokens;
    }

    /**
     * Run the three layers and append their records in order; the call
     * count and token totals are the layer-3 detector's.
     */
    method RunFullAnalysis(std: Option<real>) returns (anomalies: seq<Anomaly>, calls: nat)
      modifies this
      ensures allAnomalies == old(allAnomalies) + PipelineRecords(df, productCatalog, routes, buyers, client, std)
      ensures llmCalls == Layer3Calls(df, productCatalog, client, std)
      ensures anomalies == allAnomalies && calls == llmCalls
    {
      var records, l3Calls, inTokens, outTokens := RunLayers(std);
      Record(records, l3Calls, inTokens, outTokens);
      anomalies, calls := allAnomalies, llmCalls;
    }
  }
}
