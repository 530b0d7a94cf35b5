/** The `ai` data collector as the source keeps it: one `ModelAggregation` object
    per model with `int` totals updated in place, held in a map from model id, and
    the collection cycle that resets, sums and reports them. Each step is proved
    against the value-level definitions of AiAggregation. */
module AiDc {
  import opened JavaInt
  import opened AiAggregation

  class ModelAggregation {
    const modelId: string
    const userId: string
    var totalPromptTokens: Int32
    var totalCompleteTokens: Int32
    var totalDuration: Int32
    var maxDuration: Int32
    var totalReqCount: Int32

    /** The fields of this aggregation as a value. */
    function State(): AiState
      reads this
    {
      AiState(userId, totalPromptTokens, totalCompleteTokens, totalDuration, maxDuration, totalReqCount)
    }

    constructor (modelId: string, userId: string)
      ensures this.modelId == modelId && this.userId == userId
      ensures State() == NewState().(userId := userId)
    {
      this.modelId := modelId;
      this.userId := userId;
      totalPromptTokens, totalCompleteTokens, totalDuration, maxDuration, totalReqCount := 0, 0, 0, 0, 0;
    }

    method AddTotalPromptTokens(tokens: Int32)
      modifies this
      ensures State() == old(State()).(totalPromptTokens := Wrap32(old(totalPromptTokens) + tokens))
    {
      totalPromptTokens := Wrap32(totalPromptTokens + tokens);
    }

    method AddTotalCompleteTokens(tokens: Int32)
      modifies this
      ensures State() == old(State()).(totalCompleteTokens := Wrap32(old(totalCompleteTokens) + tokens))
    {
      totalCompleteTokens := Wrap32(totalCompleteTokens + tokens);
    }

    /** Adds to the total and raises the maximum to `duration` when it is larger. */
    method AddTotalDuration(duration: Int32)
      modifies this
      ensures State() == old(State()).(totalDuration := Wrap32(old(totalDuration) + duration),
                                       maxDuration := if duration > old(maxDuration) then duration else old(maxDuration))
    {
      totalDuration := Wrap32(totalDuration + duration);
      if duration > maxDuration {
        maxDuration := duration;
      }
    }

    method AddReqCount(count: Int32)
      modifies this
      ensures State() == old(State()).(totalReqCount := Wrap32(old(totalReqCount) + count))
    {
      totalReqCount := Wrap32(totalReqCount + count);
    }

    method ResetMetrics()
      modifies this
      ensures State() == Reset(old(State()))
    {
      totalPromptTokens := 0;
      totalCompleteTokens := 0;
      totalDuration := 0;
      maxDuration := 0;
      totalReqCount := 0;
    }
  }

  class AiDc {
    var modelAggrMap: map<string, ModelAggregation>
    /** The aggregations of `modelAggrMap` as values. */
    ghost var table: Table

    /** Every entry is the aggregation of the model it is filed under (so distinct
        keys hold distinct objects), created for the one user, and `table` holds the
        state of each. */
    ghost predicate Valid()
      reads this, modelAggrMap.Values
    {
      && modelAggrMap.Keys == table.Keys
      && AllLlmUser(table)
      && forall k :: k in modelAggrMap ==>
           modelAggrMap[k].modelId == k && modelAggrMap[k].State() == table[k]
    }

    constructor ()
      ensures Valid() && table == map[]
    {
      modelAggrMap := map[];
      table := map[];
    }

    /** `collectData()` for the drained batch `events`. Returns what is reported for
        each model. */
    method CollectData(events: seq<AiEvent>) returns (records: map<string, AiRecord>)
      requires Valid()
      modifies this, modelAggrMap.Values
      ensures Valid()
      ensures table == CycleTable(old(table), events)
      ensures records == CycleRecords(old(table), events)
    {
      ResetEntries();
      IngestBatch(events);
      records := EmitEntries();
    }

    /** The loop that calls `resetMetrics()` on every entry before the batch is read. */
    method ResetEntries()
      requires Valid()
      modifies this, modelAggrMap.Values
      ensures Valid() && modelAggrMap == old(modelAggrMap)
      ensures table == ResetAll(old(table))
    {
      ghost var t0 := table;
      var pending := modelAggrMap.Keys;
      while pending != {}
        invariant Valid() && modelAggrMap == old(modelAggrMap)
        invariant pending <= modelAggrMap.Keys
        invariant ResetExcept(t0, table, pending)
        decreases pending
      {
        var k :| k in pending;
        ResetStep(t0, table, pending, k);
        ResetEntry(k);
        pending := pending - {k};
      }
      ResetDone(t0, table);
    }

    /** `resetMetrics()` on the entry filed under `k`. */
    method ResetEntry(k: string)
      requires Valid() && k in modelAggrMap
      modifies this, modelAggrMap[k]
      ensures Valid() && modelAggrMap == old(modelAggrMap)
      ensures table == old(table)[k := Reset(old(table)[k])]
    {
      var aggr := modelAggrMap[k];
      aggr.ResetMetrics();
      table := table[k := Reset(table[k])];
      forall j | j in modelAggrMap && j != k
        ensures modelAggrMap[j].modelId == j && modelAggrMap[j].State() == table[j]
      {
        assert old(modelAggrMap[j].modelId) == j;
      }
    }

    /** The loop over the drained batch. */
    method IngestBatch(events: seq<AiEvent>)
      requires Valid()
      modifies this, modelAggrMap.Values
      ensures Valid()
      ensures table == IngestAll(old(table), events)
      ensures fresh(modelAggrMap.Values - old(modelAggrMap.Values))
    {
      var i := 0;
      while i < |events|
        invariant 0 <= i <= |events|
        invariant Valid()
        invariant table == IngestAll(old(table), events[..i])
        invariant fresh(modelAggrMap.Values - old(modelAggrMap.Values))
      {
        IngestAllStep(old(table), events, i);
        IngestEvent(events[i]);
        i := i + 1;
      }
      assert events[..i] == events;
    }

    /** One event of the batch: its model's entry is looked up, or created for
        "llmUser" and put in the map, then the event is added in. */
    method IngestEvent(e: AiEvent)
      requires Valid()
      modifies this, modelAggrMap.Values
      ensures Valid()
      ensures table == Ingest(old(table), e)
      ensures fresh(modelAggrMap.Values - old(modelAggrMap.Values))
    {
      ghost var t0 := table;
      if e.modelId !in modelAggrMap {
        AddEntry(e.modelId);
      }
      IngestThroughEntry(t0, e, table);
      FoldEntry(e);
    }

    /** A model seen for the first time gets a fresh aggregation in the map. */
    method AddEntry(modelId: string)
      requires Valid() && modelId !in modelAggrMap
      modifies this
      ensures Valid() && table == old(table)[modelId := NewState()]
      ensures modelId in modelAggrMap && fresh(modelAggrMap[modelId])
      ensures forall k :: k in old(modelAggrMap) ==> k in modelAggrMap && modelAggrMap[k] == old(modelAggrMap[k])
    {
      var modelAggr := new ModelAggregation(modelId, LlmUser);
      modelAggrMap := modelAggrMap[modelId := modelAggr];
      table := table[modelId := NewState()];
    }

    /** The four updates of the entry for `e`'s model: the token counts narrowed to
        `int`, one request, then the duration. */
    method FoldEntry(e: AiEvent)
      requires Valid() && e.modelId in modelAggrMap
      modifies this, modelAggrMap[e.modelId]
      ensures Valid() && modelAggrMap == old(modelAggrMap)
      ensures table == old(table)[e.modelId := FoldEvent(old(table)[e.modelId], e)]
    {
      var modelAggr := modelAggrMap[e.modelId];
      ghost var s0 := table[e.modelId];
      modelAggr.AddTotalPromptTokens(Wrap32(e.promptTokens));
      modelAggr.AddTotalCompleteTokens(Wrap32(e.completeTokens));
      modelAggr.AddReqCount(1);
      modelAggr.AddTotalDuration(e.durationMs);
      assert modelAggr.State() == FoldEvent(s0, e);
      table := table[e.modelId := FoldEvent(s0, e)];
      forall j | j in modelAggrMap && j != e.modelId
        ensures modelAggrMap[j].modelId == j && modelAggrMap[j].State() == table[j]
      {
        assert old(modelAggrMap[j].modelId) == j;
      }
    }

    /** The reporting loop: every entry's average is computed, its record is
        emitted, and it is reset. */
    method EmitEntries() returns (records: map<string, AiRecord>)
      requires Valid()
      modifies this, modelAggrMap.Values
      ensures Valid()
      ensures table == ResetAll(old(table))
      ensures records == EmitAll(old(table))
    {
      ghost var t0 := table;
      records := map[];
      var pending := modelAggrMap.Keys;
      while pending != {}
        invariant Valid() && modelAggrMap == old(modelAggrMap)
        invariant pending <= modelAggrMap.Keys
        invariant ResetExcept(t0, table, pending)
        invariant EmittedExcept(t0, records, pending)
        decreases pending
      {
        var k :| k in pending;
        EmitStep(t0, table, records, pending, k);
        ResetStep(t0, table, pending, k);
        var record := EmitEntry(k);
        records := records[k := record];
        pending := pending - {k};
      }
      ResetDone(t0, table);
      EmitDone(t0, records);
    }

    /** One turn of the reporting loop, for the entry filed under `k`. */
    method EmitEntry(k: string) returns (record: AiRecord)
      requires Valid() && k in modelAggrMap
      modifies this, modelAggrMap[k]
      ensures Valid() && modelAggrMap == old(modelAggrMap)
      ensures table == old(table)[k := Reset(old(table)[k])]
      ensures record == Emit(old(table)[k])
    {
      var aggr := modelAggrMap[k];
      var requestCount := aggr.totalReqCount;
      var totalDuration := aggr.totalDuration;
      var maxDuration := aggr.maxDuration;
      var totalPromptTokens := aggr.totalPromptTokens;
      var totalCompleteTokens := aggr.totalCompleteTokens;
      var avgDuration := Div32(totalDuration, if requestCount == 0 then 1 else requestCount);
      aggr.ResetMetrics();
      record := AiRecord(aggr.userId, avgDuration, maxDuration, totalPromptTokens,
                         totalCompleteTokens, requestCount);
      table := table[k := Reset(table[k])];
      forall j | j in modelAggrMap && j != k
        ensures modelAggrMap[j].modelId == j && modelAggrMap[j].State() == table[j]
      {
        assert old(modelAggrMap[j].modelId) == j;
      }
    }
  }
}
