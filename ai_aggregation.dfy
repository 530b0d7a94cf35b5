/** The earlier aggregation of the `ai` data collector, as values. Unlike the
    delta-safe LLM aggregation, it sums the raw per-event values into Java `int`
    fields (every `+=` and the `(int)` casts of the `long` token counts wrap modulo
    2^32; the `(int)` cast of the `double` duration saturates, and events carry its
    result), takes the maximum over the raw durations, and zeroes everything each
    cycle. The class module AiDc performs the same steps in place. */
module AiAggregation {
  import opened JavaInt

  /** The user every aggregation is created for. */
  const LlmUser: string := "llmUser"

  /** Everything a `ModelAggregation` holds besides its model id. */
  datatype AiState = AiState(
    userId: string,
    totalPromptTokens: Int32,
    totalCompleteTokens: Int32,
    totalDuration: Int32,
    maxDuration: Int32,
    totalReqCount: Int32)

  /** One drained event. The token counts are Java `long` values; `durationMs` is
      the already converted `(int)(duration * 1000)`. */
  datatype AiEvent = AiEvent(
    modelId: string,
    promptTokens: int,
    completeTokens: int,
    durationMs: Int32)

  /** `new ModelAggregation(modelId, "llmUser")`: every counter starts at 0. */
  function NewState(): AiState
  {
    AiState(LlmUser, 0, 0, 0, 0, 0)
  }

  /** `resetMetrics()`: all five counters zeroed, the maximum included. */
  function Reset(s: AiState): (r: AiState)
    ensures r == NewState().(userId := s.userId)
  {
    AiState(s.userId, 0, 0, 0, 0, 0)
  }

  /** One event folded into a model's aggregation, in the source's order: prompt
      tokens, completion tokens, one request, then the duration, which also raises
      the maximum when it is larger. */
  function FoldEvent(s: AiState, e: AiEvent): (r: AiState)
    ensures r.userId == s.userId
    ensures r.totalReqCount == Wrap32(s.totalReqCount + 1)
    ensures r.maxDuration == if e.durationMs > s.maxDuration then e.durationMs else s.maxDuration
    ensures s.maxDuration <= r.maxDuration && e.durationMs <= r.maxDuration
  {
    var prompt := Wrap32(s.totalPromptTokens + Wrap32(e.promptTokens));
    var complete := Wrap32(s.totalCompleteTokens + Wrap32(e.completeTokens));
    var reqCount := Wrap32(s.totalReqCount + 1);
    var duration := Wrap32(s.totalDuration + e.durationMs);
    var max := if e.durationMs > s.maxDuration then e.durationMs else s.maxDuration;
    AiState(s.userId, prompt, complete, duration, max, reqCount)
  }

  // ---------------------------------------------------------------------------
  // A collection cycle over the table of models
  // ---------------------------------------------------------------------------

  type Table = map<string, AiState>

  /** The state a model has in a table: its entry, or a fresh one. */
  function StateOf(t: Table, k: string): AiState
  {
    if k in t then t[k] else NewState()
  }

  function ResetAll(t: Table): (r: Table)
    ensures r.Keys == t.Keys
  {
    map k | k in t :: Reset(t[k])
  }

  /** One event: the model's entry is looked up, created when missing, and folded. */
  function Ingest(t: Table, e: AiEvent): Table
  {
    t[e.modelId := FoldEvent(StateOf(t, e.modelId), e)]
  }

  /** An event adds its model to the table and changes that model's entry only. */
  lemma IngestEffect(t: Table, e: AiEvent)
    ensures Ingest(t, e).Keys == t.Keys + {e.modelId}
    ensures forall k :: StateOf(Ingest(t, e), k) == if k == e.modelId then FoldEvent(StateOf(t, k), e) else StateOf(t, k)
  {
  }

  /** Ingesting is creating the entry when it is missing, then folding the event
      into it. */
  lemma IngestThroughEntry(t: Table, e: AiEvent, mid: Table)
    requires mid == if e.modelId in t then t else t[e.modelId := NewState()]
    ensures e.modelId in mid && mid[e.modelId := FoldEvent(mid[e.modelId], e)] == Ingest(t, e)
  {
  }

  /** The drained batch, in order. */
  function IngestAll(t: Table, events: seq<AiEvent>): Table
  {
    if events == [] then t
    else Ingest(IngestAll(t, events[..|events| - 1]), events[|events| - 1])
  }

  /** Ingesting one more event of the batch folds it into the table so far. */
  lemma IngestAllStep(t: Table, events: seq<AiEvent>, i: nat)
    requires i < |events|
    ensures IngestAll(t, events[..i + 1]) == Ingest(IngestAll(t, events[..i]), events[i])
  {
    assert events[..i + 1][..i] == events[..i];
  }

  function ModelsOf(events: seq<AiEvent>): set<string>
  {
    set i | 0 <= i < |events| :: events[i].modelId
  }

  /** What the collector reports for one model. The token and request rates and the
      cost are these totals divided by the poll interval (and scaled), in floating
      point; the record holds their exact inputs. */
  datatype AiRecord = AiRecord(
    userId: string,
    avgDuration: Int32,
    maxDuration: Int32,
    totalPromptTokens: Int32,
    totalCompleteTokens: Int32,
    requestCount: Int32)

  /** `totalDuration / (requestCount == 0 ? 1 : requestCount)` in `int` arithmetic. */
  function AvgDuration(s: AiState): (avg: Int32)
    ensures s.totalReqCount == 0 ==> avg == s.totalDuration
    ensures s.totalReqCount != 0 && !(s.totalDuration == MinInt32 && s.totalReqCount == -1) ==>
      avg == TruncDiv(s.totalDuration, s.totalReqCount)
  {
    Div32(s.totalDuration, if s.totalReqCount == 0 then 1 else s.totalReqCount)
  }

  function Emit(s: AiState): AiRecord
  {
    AiRecord(s.userId, AvgDuration(s), s.maxDuration, s.totalPromptTokens,
             s.totalCompleteTokens, s.totalReqCount)
  }

  function EmitAll(t: Table): (r: map<string, AiRecord>)
    ensures r.Keys == t.Keys
  {
    map k | k in t :: Emit(t[k])
  }

  /** The table after the batch is folded into freshly reset entries. */
  function Ingested(t: Table, events: seq<AiEvent>): Table
  {
    IngestAll(ResetAll(t), events)
  }

  /** `collectData()`: reset every entry, fold the batch, report and reset every entry. */
  function CycleTable(t: Table, events: seq<AiEvent>): Table
  {
    ResetAll(Ingested(t, events))
  }

  function CycleRecords(t: Table, events: seq<AiEvent>): map<string, AiRecord>
  {
    EmitAll(Ingested(t, events))
  }

  /** Part way through a loop that resets every entry: the entries in `pending` are
      as they were, the others reset. */
  ghost predicate ResetExcept(t0: Table, t: Table, pending: set<string>)
  {
    && t.Keys == t0.Keys
    && forall j :: j in t ==> t[j] == if j in pending then t0[j] else Reset(t0[j])
  }

  lemma ResetStep(t0: Table, t: Table, pending: set<string>, k: string)
    requires ResetExcept(t0, t, pending) && k in pending && k in t
    ensures ResetExcept(t0, t[k := Reset(t[k])], pending - {k})
  {
    var t1, p1 := t[k := Reset(t[k])], pending - {k};
    forall j | j in t1 ensures t1[j] == if j in p1 then t0[j] else Reset(t0[j]) {
      if j == k { assert t[k] == t0[k]; }
    }
  }

  lemma ResetDone(t0: Table, t: Table)
    requires ResetExcept(t0, t, {})
    ensures t == ResetAll(t0)
  {
    assert t.Keys == ResetAll(t0).Keys;
  }

  /** Part way through the reporting loop: `records` holds exactly the reports of
      the entries no longer pending. */
  ghost predicate EmittedExcept(t0: Table, records: map<string, AiRecord>, pending: set<string>)
  {
    && (forall j :: j in records ==> j in t0 && j !in pending && records[j] == Emit(t0[j]))
    && (forall j :: j in t0 && j !in pending ==> j in records)
  }

  lemma EmitStep(t0: Table, t: Table, records: map<string, AiRecord>, pending: set<string>, k: string)
    requires ResetExcept(t0, t, pending) && EmittedExcept(t0, records, pending) && k in pending && k in t
    ensures EmittedExcept(t0, records[k := Emit(t[k])], pending - {k})
  {
    assert t[k] == t0[k];
  }

  lemma EmitDone(t0: Table, records: map<string, AiRecord>)
    requires EmittedExcept(t0, records, {})
    ensures records == EmitAll(t0)
  {
    assert records.Keys == EmitAll(t0).Keys;
  }

  // ---------------------------------------------------------------------------
  // Reference definitions over the batch
  // ---------------------------------------------------------------------------

  /** The events of the batch that belong to model `k`. */
  function EventsOf(events: seq<AiEvent>, k: string): (r: seq<AiEvent>)
    ensures |r| <= |events|
    ensures forall i :: 0 <= i < |r| ==> r[i].modelId == k
  {
    if events == [] then []
    else
      var rest := EventsOf(events[..|events| - 1], k);
      if events[|events| - 1].modelId == k then rest + [events[|events| - 1]] else rest
  }

  function PromptSum(events: seq<AiEvent>): int
  {
    if events == [] then 0 else PromptSum(events[..|events| - 1]) + events[|events| - 1].promptTokens
  }

  function CompleteSum(events: seq<AiEvent>): int
  {
    if events == [] then 0 else CompleteSum(events[..|events| - 1]) + events[|events| - 1].completeTokens
  }

  function DurationSum(events: seq<AiEvent>): int
  {
    if events == [] then 0 else DurationSum(events[..|events| - 1]) + events[|events| - 1].durationMs
  }

  /** The largest of `floor` and the durations of `events`. */
  function MaxDuration(floor: Int32, events: seq<AiEvent>): (m: Int32)
    ensures floor <= m
    ensures forall i :: 0 <= i < |events| ==> events[i].durationMs <= m
    ensures m == floor || exists i :: 0 <= i < |events| && events[i].durationMs == m
  {
    if events == [] then floor
    else
      var pre := MaxDuration(floor, events[..|events| - 1]);
      var d := events[|events| - 1].durationMs;
      if d > pre then d else pre
  }

  /** What a model's record is, from its own events of the batch alone. */
  function RecordFromBatch(mine: seq<AiEvent>): AiRecord
  {
    var count := Wrap32(|mine|);
    var duration := Wrap32(DurationSum(mine));
    AiRecord(LlmUser, Div32(duration, if count == 0 then 1 else count), MaxDuration(0, mine),
             Wrap32(PromptSum(mine)), Wrap32(CompleteSum(mine)), count)
  }

  // ---------------------------------------------------------------------------
  // Properties
  // ---------------------------------------------------------------------------

  /** Every entry was created for the one user. */
  predicate AllLlmUser(t: Table)
  {
    forall k :: k in t ==> t[k].userId == LlmUser
  }

  /** What a model holding `b` holds after its events `mine`, by the sums: each
      total plus the sum of its events (in `int` arithmetic), one request per event,
      and the largest of its previous maximum and its durations. */
  function Totals(b: AiState, mine: seq<AiEvent>): AiState
  {
    AiState(b.userId,
            Wrap32(b.totalPromptTokens + PromptSum(mine)),
            Wrap32(b.totalCompleteTokens + CompleteSum(mine)),
            Wrap32(b.totalDuration + DurationSum(mine)),
            MaxDuration(b.maxDuration, mine),
            Wrap32(b.totalReqCount + |mine|))
  }

  /** Folding one more event agrees with the sums over one more event. */
  lemma FoldTotals(b: AiState, mine: seq<AiEvent>, e: AiEvent)
    ensures FoldEvent(Totals(b, mine), e) == Totals(b, mine + [e])
  {
    var all := mine + [e];
    assert all[..|all| - 1] == mine;
    var f, r := FoldEvent(Totals(b, mine), e), Totals(b, all);
    assert PromptSum(all) == PromptSum(mine) + e.promptTokens;
    assert CompleteSum(all) == CompleteSum(mine) + e.completeTokens;
    assert DurationSum(all) == DurationSum(mine) + e.durationMs;
    SumStep(b.totalPromptTokens, PromptSum(mine), e.promptTokens);
    SumStep(b.totalCompleteTokens, CompleteSum(mine), e.completeTokens);
    Wrap32Add(b.totalDuration + DurationSum(mine), e.durationMs);
    Wrap32Add(b.totalReqCount + |mine|, 1);
  }

  /** A running `int` total: adding the narrowed next value to the narrowed sum so
      far narrows the whole sum. */
  lemma SumStep(base: int, sum: int, next: int)
    ensures Wrap32(Wrap32(base + sum) + Wrap32(next)) == Wrap32(base + (sum + next))
  {
    Wrap32AddBoth(base + sum, next);
  }

  /** Folding a batch into a table leaves every model with the totals of its own
      events added to what it held. */
  lemma {:induction false} IngestAllTotals(t: Table, events: seq<AiEvent>, k: string)
    ensures StateOf(IngestAll(t, events), k) == Totals(StateOf(t, k), EventsOf(events, k))
    decreases |events|
  {
    if events == [] {
      assert Totals(StateOf(t, k), []) == StateOf(t, k);
    } else {
      var pre, e := events[..|events| - 1], events[|events| - 1];
      IngestAllTotals(t, pre, k);
      var tp := IngestAll(t, pre);
      if e.modelId == k {
        assert EventsOf(events, k) == EventsOf(pre, k) + [e];
        FoldTotals(StateOf(t, k), EventsOf(pre, k), e);
      } else {
        assert EventsOf(events, k) == EventsOf(pre, k);
        IngestEffect(tp, e);
      }
    }
  }

  lemma {:induction false} IngestAllKeys(t: Table, events: seq<AiEvent>)
    ensures IngestAll(t, events).Keys == t.Keys + ModelsOf(events)
    decreases |events|
  {
    if events != [] {
      var pre := events[..|events| - 1];
      IngestAllKeys(t, pre);
      IngestEffect(IngestAll(t, pre), events[|events| - 1]);
      assert ModelsOf(events) == ModelsOf(pre) + {events[|events| - 1].modelId} by {
        forall m | m in ModelsOf(events) ensures m in ModelsOf(pre) + {events[|events| - 1].modelId} {
          var i :| 0 <= i < |events| && events[i].modelId == m;
          if i < |events| - 1 { assert pre[i] == events[i]; }
        }
        forall m | m in ModelsOf(pre) ensures m in ModelsOf(events) {
          var i :| 0 <= i < |pre| && pre[i].modelId == m;
          assert events[i] == pre[i];
        }
      }
    }
  }

  lemma {:induction false} IngestAllKeepsUser(t: Table, events: seq<AiEvent>)
    requires AllLlmUser(t)
    ensures AllLlmUser(IngestAll(t, events))
    decreases |events|
  {
    if events != [] {
      IngestAllKeepsUser(t, events[..|events| - 1]);
    }
  }

  /** The cycle reports every model it has ever seen, and afterwards holds them all
      zeroed: nothing carries over to the next cycle. */
  lemma CycleKeys(t: Table, events: seq<AiEvent>)
    requires AllLlmUser(t)
    ensures CycleRecords(t, events).Keys == t.Keys + ModelsOf(events)
    ensures CycleTable(t, events).Keys == t.Keys + ModelsOf(events)
    ensures forall k :: k in CycleTable(t, events) ==> CycleTable(t, events)[k] == NewState()
  {
    IngestAllKeys(ResetAll(t), events);
    IngestAllKeepsUser(ResetAll(t), events);
  }

  /** What is reported for a model depends on this cycle's batch alone: its record is
      the one its own events give, whatever the table held before. */
  lemma CycleRecordFromBatch(t: Table, events: seq<AiEvent>, k: string)
    requires AllLlmUser(t)
    requires k in t || k in ModelsOf(events)
    ensures k in CycleRecords(t, events)
    ensures CycleRecords(t, events)[k] == RecordFromBatch(EventsOf(events, k))
  {
    var t0 := ResetAll(t);
    IngestAllKeys(t0, events);
    IngestAllTotals(t0, events, k);
    var t1 := IngestAll(t0, events);
    assert k in t1 && StateOf(t1, k) == t1[k];
    assert StateOf(t0, k) == NewState();
    EmitFresh(EventsOf(events, k));
  }

  /** A fresh aggregation after a model's events reports what those events give. */
  lemma EmitFresh(mine: seq<AiEvent>)
    ensures Emit(Totals(NewState(), mine)) == RecordFromBatch(mine)
  {
    var s := Totals(NewState(), mine);
    assert s.totalReqCount == Wrap32(|mine|) && s.totalDuration == Wrap32(DurationSum(mine));
  }

  /** Two tables that know the same models report the same records for the same
      batch. */
  lemma CycleIgnoresHistory(t1: Table, t2: Table, events: seq<AiEvent>)
    requires AllLlmUser(t1) && AllLlmUser(t2) && t1.Keys == t2.Keys
    ensures CycleRecords(t1, events) == CycleRecords(t2, events)
  {
    var r1, r2 := CycleRecords(t1, events), CycleRecords(t2, events);
    CycleKeys(t1, events);
    CycleKeys(t2, events);
    forall k | k in r1 ensures k in r2 && r1[k] == r2[k] {
      SameRecord(t1, t2, events, k);
    }
  }

  lemma SameRecord(t1: Table, t2: Table, events: seq<AiEvent>, k: string)
    requires AllLlmUser(t1) && AllLlmUser(t2) && t1.Keys == t2.Keys
    requires k in t1 || k in ModelsOf(events)
    ensures k in CycleRecords(t1, events) && k in CycleRecords(t2, events)
    ensures CycleRecords(t1, events)[k] == CycleRecords(t2, events)[k]
  {
    CycleRecordFromBatch(t1, events, k);
    CycleRecordFromBatch(t2, events, k);
  }

  /** A known model without events this cycle reports all zeros. */
  lemma QuietModel(t: Table, events: seq<AiEvent>, k: string)
    requires AllLlmUser(t) && k in t && k !in ModelsOf(events)
    ensures k in CycleRecords(t, events)
    ensures CycleRecords(t, events)[k] == AiRecord(LlmUser, 0, 0, 0, 0, 0)
  {
    CycleRecordFromBatch(t, events, k);
    NoEventsOf(events, k);
    Wrap32Facts(0);
    assert RecordFromBatch([]) == AiRecord(LlmUser, 0, 0, 0, 0, 0);
  }

  lemma {:induction false} NoEventsOf(events: seq<AiEvent>, k: string)
    requires k !in ModelsOf(events)
    ensures EventsOf(events, k) == []
    decreases |events|
  {
    if events != [] {
      var pre := events[..|events| - 1];
      assert ModelsOf(pre) <= ModelsOf(events) by {
        forall m | m in ModelsOf(pre) ensures m in ModelsOf(events) {
          var i :| 0 <= i < |pre| && pre[i].modelId == m;
          assert events[i] == pre[i];
        }
      }
      NoEventsOf(pre, k);
    }
  }

  /** Without wrap-around (fewer than 2^31 requests and sums in `int` range), the
      reported request count is the number of the model's events and the average is
      their total duration divided by that number, rounded toward zero. */
  lemma AverageOfBatch(mine: seq<AiEvent>)
    requires 0 < |mine| <= MaxInt32
    requires MinInt32 <= DurationSum(mine) <= MaxInt32
    ensures RecordFromBatch(mine).requestCount == |mine|
    ensures RecordFromBatch(mine).avgDuration == TruncDiv(DurationSum(mine), |mine|)
  {
    Wrap32Facts(|mine|);
    Wrap32Facts(DurationSum(mine));
    assert Wrap32(|mine|) == |mine| && Wrap32(DurationSum(mine)) == DurationSum(mine);
  }
}
