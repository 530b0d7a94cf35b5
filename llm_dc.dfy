/** The LLM data collector as the source keeps it: one `ModelAggregation` object per
    model, updated in place, held in a map from model id, and the collection cycle
    that resets, folds and reports them. Each step is proved against the value-level
    definitions of LlmAggregation. */
module LlmDc {
  import opened JavaInt
  import opened LlmAggregation

  class ModelAggregation {
    const modelId: string
    const aiSystem: string
    var deltaPromptTokens: int
    var deltaCompleteTokens: int
    var deltaDuration: int
    var deltaReqCount: int
    var maxDuration: int
    var lastTotalPromptTokens: int
    var lastTotalCompleteTokens: int
    var lastTotalDuration: int
    var lastTotalReqCount: int

    /** The fields of this aggregation as a value. */
    function State(): AggState
      reads this
    {
      AggState(aiSystem,
               Counter(lastTotalPromptTokens, deltaPromptTokens),
               Counter(lastTotalCompleteTokens, deltaCompleteTokens),
               Counter(lastTotalDuration, deltaDuration),
               Counter(lastTotalReqCount, deltaReqCount),
               maxDuration)
    }

    constructor (modelId: string, aiSystem: string)
      ensures this.modelId == modelId && this.aiSystem == aiSystem
      ensures State() == NewAggregation(aiSystem)
    {
      this.modelId := modelId;
      this.aiSystem := aiSystem;
      deltaPromptTokens, deltaCompleteTokens, deltaDuration, deltaReqCount := 0, 0, 0, 0;
      maxDuration := 0;
      lastTotalPromptTokens, lastTotalCompleteTokens, lastTotalDuration, lastTotalReqCount := 0, 0, 0, 0;
    }

    method AddDeltaPromptTokens(currTokens: int, reqCount: int)
      modifies this
      ensures State() == old(State()).(prompt := Observe(old(State()).prompt, currTokens, reqCount))
    {
      if currTokens == 0 {
        return;
      }
      var diffPromptTokens := 0;
      if reqCount == 1 {
        diffPromptTokens := currTokens;
      } else if currTokens > lastTotalPromptTokens && lastTotalPromptTokens != 0 {
        diffPromptTokens := currTokens - lastTotalPromptTokens;
      }
      lastTotalPromptTokens := currTokens;
      deltaPromptTokens := deltaPromptTokens + diffPromptTokens;
    }

    method AddDeltaCompleteTokens(currTokens: int, reqCount: int)
      modifies this
      ensures State() == old(State()).(complete := Observe(old(State()).complete, currTokens, reqCount))
    {
      if currTokens == 0 {
        return;
      }
      var diffCompleteTokens := 0;
      if reqCount == 1 {
        diffCompleteTokens := currTokens;
      } else if currTokens > lastTotalCompleteTokens && lastTotalCompleteTokens != 0 {
        diffCompleteTokens := currTokens - lastTotalCompleteTokens;
      }
      lastTotalCompleteTokens := currTokens;
      deltaCompleteTokens := deltaCompleteTokens + diffCompleteTokens;
    }

    method AddDeltaDuration(currDuration: int, reqCount: int)
      modifies this
      ensures State() == old(State()).(duration := Observe(old(State()).duration, currDuration, reqCount))
    {
      if currDuration == 0 {
        return;
      }
      var diffDuration := 0;
      if reqCount == 1 {
        diffDuration := currDuration;
      } else if currDuration > lastTotalDuration && lastTotalDuration != 0 {
        diffDuration := currDuration - lastTotalDuration;
      }
      lastTotalDuration := currDuration;
      deltaDuration := deltaDuration + diffDuration;
    }

    /** The request count is deltaed against its own last total, by the same rule. */
    method AddDeltaReqCount(currCount: int)
      modifies this
      ensures State() == old(State()).(reqCount := Observe(old(State()).reqCount, currCount, currCount))
    {
      if currCount == 0 {
        return;
      }
      var diffReqCount := 0;
      if currCount == 1 {
        diffReqCount := currCount;
      } else if currCount > lastTotalReqCount && lastTotalReqCount != 0 {
        diffReqCount := currCount - lastTotalReqCount;
      }
      lastTotalReqCount := currCount;
      deltaReqCount := deltaReqCount + diffReqCount;
    }

    method SetMaxDuration(maxDuration: int)
      modifies this
      ensures State() == old(State()).(maxDuration := maxDuration)
    {
      this.maxDuration := maxDuration;
    }

    method ResetMetrics()
      modifies this
      ensures State() == ResetDeltas(old(State()))
    {
      deltaPromptTokens := 0;
      deltaCompleteTokens := 0;
      deltaDuration := 0;
      deltaReqCount := 0;
    }
  }

  class LlmDc {
    var modelAggrMap: map<string, ModelAggregation>
    /** The aggregations of `modelAggrMap` as values. */
    ghost var table: Table
    const prices: Prices
    /** `LLM_POLL_INTERVAL`. */
    const pollInterval: int

    /** Every entry is the aggregation of the model it is filed under (so distinct
        keys hold distinct objects), and `table` holds the state of each. */
    ghost predicate Valid()
      reads this, modelAggrMap.Values
    {
      && modelAggrMap.Keys == table.Keys
      && forall k :: k in modelAggrMap ==>
           modelAggrMap[k].modelId == k && modelAggrMap[k].State() == table[k]
    }

    constructor (props: map<PriceKey, real>, pollInterval: int)
      ensures Valid() && table == map[]
      ensures prices == ConfiguredPrices(props) && this.pollInterval == pollInterval
    {
      modelAggrMap := map[];
      table := map[];
      prices := ConfiguredPrices(props);
      this.pollInterval := pollInterval;
    }

    /** `collectData()` for the drained batch `events`; `agentlessModeSet` is whether
        the AGENTLESS_MODE_ENABLED environment variable is set. Returns what is reported
        for each model. */
    method CollectData(events: seq<Event>, agentlessModeSet: bool) returns (records: map<string, Record>)
      requires Valid()
      modifies this, modelAggrMap.Values
      ensures Valid()
      ensures table == CycleTable(old(table), events)
      ensures records == CycleRecords(old(table), events, IntervalSeconds(pollInterval, agentlessModeSet), prices)
    {
      ResetEntries();
      IngestBatch(events);
      records := EmitEntries(agentlessModeSet);
    }

    /** The loop that calls `resetMetrics()` on every entry before the batch is read. */
    method ResetEntries()
      requires Valid()
      modifies this, modelAggrMap.Values
      ensures Valid() && modelAggrMap == old(modelAggrMap)
      ensures table == ResetAll(old(table))
    {
      ghost var t0 := table;
      var pending := modelAggrMap.Keys;
      while pending != {}
        invariant Valid() && modelAggrMap == old(modelAggrMap)
        invariant pending <= modelAggrMap.Keys
        invariant ResetExcept(t0, table, pending)
        decreases pending
      {
        var k :| k in pending;
        ResetStep(t0, table, pending, k);
        ResetEntry(k);
        pending := pending - {k};
      }
      ResetDone(t0, table);
    }

    /** One turn of that loop: `resetMetrics()` on the entry filed under `k`. */
    method ResetEntry(k: string)
      requires Valid() && k in modelAggrMap
      modifies this, modelAggrMap[k]
      ensures Valid() && modelAggrMap == old(modelAggrMap)
      ensures table == old(table)[k := ResetDeltas(old(table)[k])]
    {
      var aggr := modelAggrMap[k];
      aggr.ResetMetrics();
      table := table[k := ResetDeltas(table[k])];
      forall j | j in modelAggrMap && j != k
        ensures modelAggrMap[j].modelId == j && modelAggrMap[j].State() == table[j]
      {
        assert old(modelAggrMap[j].modelId) == j;
      }
    }

    /** The loop over the drained batch. */
    method IngestBatch(events: seq<Event>)
      requires Valid()
      modifies this, modelAggrMap.Values
      ensures Valid()
      ensures table == IngestAll(old(table), events)
      ensures fresh(modelAggrMap.Values - old(modelAggrMap.Values))
    {
      var i := 0;
      while i < |events|
        invariant 0 <= i <= |events|
        invariant Valid()
        invariant table == IngestAll(old(table), events[..i])
        invariant fresh(modelAggrMap.Values - old(modelAggrMap.Values))
      {
        IngestAllStep(old(table), events, i);
        IngestEvent(events[i]);
        i := i + 1;
      }
      assert events[..i] == events;
    }

    /** One event of the batch: its model's entry is looked up, or created and put in
        the map, then the event is folded in, duration first. */
    method IngestEvent(e: Event)
      requires Valid()
      modifies this, modelAggrMap.Values
      ensures Valid()
      ensures table == Ingest(old(table), e)
      ensures fresh(modelAggrMap.Values - old(modelAggrMap.Values))
    {
      ghost var t0 := table;
      if e.modelId !in modelAggrMap {
        AddEntry(e.modelId, e.aiSystem);
      }
      IngestThroughEntry(t0, e, table);
      FoldEntry(e);
    }

    /** A model seen for the first time gets a fresh aggregation in the map. */
    method AddEntry(modelId: string, aiSystem: string)
      requires Valid() && modelId !in modelAggrMap
      modifies this
      ensures Valid() && table == old(table)[modelId := NewAggregation(aiSystem)]
      ensures modelId in modelAggrMap && fresh(modelAggrMap[modelId])
      ensures forall k :: k in old(modelAggrMap) ==> k in modelAggrMap && modelAggrMap[k] == old(modelAggrMap[k])
    {
      var modelAggr := new ModelAggregation(modelId, aiSystem);
      modelAggrMap := modelAggrMap[modelId := modelAggr];
      table := table[modelId := NewAggregation(aiSystem)];
    }

    /** The four updates of the entry for `e`'s model, duration first; the prompt and
        completion counters are deltaed against the request count just stored. */
    method FoldEntry(e: Event)
      requires Valid() && e.modelId in modelAggrMap
      modifies this, modelAggrMap[e.modelId]
      ensures Valid() && modelAggrMap == old(modelAggrMap)
      ensures table == old(table)[e.modelId := FoldEvent(old(table)[e.modelId], e)]
    {
      var modelAggr := modelAggrMap[e.modelId];
      modelAggr.AddDeltaDuration(e.durationMs, e.reqCount);
      modelAggr.AddDeltaReqCount(e.reqCount);
      var currentReqCount := modelAggr.lastTotalReqCount;
      modelAggr.AddDeltaPromptTokens(e.promptTokens, currentReqCount);
      modelAggr.AddDeltaCompleteTokens(e.completeTokens, currentReqCount);
      table := table[e.modelId := FoldEvent(table[e.modelId], e)];
      forall j | j in modelAggrMap && j != e.modelId
        ensures modelAggrMap[j].modelId == j && modelAggrMap[j].State() == table[j]
      {
        assert old(modelAggrMap[j].modelId) == j;
      }
    }

    /** One turn of the reporting loop, for the entry filed under `k`. */
    method EmitEntry(k: string, agentlessModeSet: bool) returns (record: Record)
      requires Valid() && k in modelAggrMap
      modifies this, modelAggrMap[k]
      ensures Valid() && modelAggrMap == old(modelAggrMap)
      ensures table == old(table)[k := AfterEmit(old(table)[k])]
      ensures record == Emit(old(table)[k], IntervalSeconds(pollInterval, agentlessModeSet), prices)
    {
      var aggr := modelAggrMap[k];
      var deltaRequestCount := aggr.deltaReqCount;
      var deltaDuration := aggr.deltaDuration;
      var deltaPromptTokens := aggr.deltaPromptTokens;
      var deltaCompleteTokens := aggr.deltaCompleteTokens;
      var maxDuration := aggr.maxDuration;
      var avgDuration := if deltaRequestCount == 0 then 0 else TruncDiv(deltaDuration, deltaRequestCount);
      if avgDuration > maxDuration {
        maxDuration := avgDuration;
        aggr.SetMaxDuration(maxDuration);
      }
      var intervalSeconds := IntervalSeconds(pollInterval, agentlessModeSet);
      var pricePromptTokens := PricePromptTokens(prices, aggr.aiSystem);
      var priceCompleteTokens := PriceCompleteTokens(prices, aggr.aiSystem);
      record := Record(aggr.aiSystem, avgDuration, maxDuration, deltaPromptTokens,
                       deltaCompleteTokens, deltaRequestCount, intervalSeconds,
                       pricePromptTokens, priceCompleteTokens);
      aggr.ResetMetrics();
      table := table[k := AfterEmit(table[k])];
      forall j | j in modelAggrMap && j != k
        ensures modelAggrMap[j].modelId == j && modelAggrMap[j].State() == table[j]
      {
        assert old(modelAggrMap[j].modelId) == j;
      }
    }

    /** The reporting loop: every entry's average and maximum are computed, its
        record is emitted, and its deltas are reset. */
    method EmitEntries(agentlessModeSet: bool) returns (records: map<string, Record>)
      requires Valid()
      modifies this, modelAggrMap.Values
      ensures Valid()
      ensures table == AfterEmitAll(old(table))
      ensures records == EmitAll(old(table), IntervalSeconds(pollInterval, agentlessModeSet), prices)
    {
      ghost var t0 := table;
      ghost var interval := IntervalSeconds(pollInterval, agentlessModeSet);
      records := map[];
      var pending := modelAggrMap.Keys;
      while pending != {}
        invariant Valid() && modelAggrMap == old(modelAggrMap)
        invariant pending <= modelAggrMap.Keys
        invariant EmittedExcept(t0, table, records, pending, interval, prices)
        decreases pending
      {
        var k :| k in pending;
        EmitStep(t0, table, records, pending, interval, prices, k);
        var record := EmitEntry(k, agentlessModeSet);
        records := records[k := record];
        pending := pending - {k};
      }
      EmitDone(t0, table, records, interval, prices);
    }
  }
}
