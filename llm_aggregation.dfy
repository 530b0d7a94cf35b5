/** The delta-safe usage aggregation of the LLM data collector, as values: the state
    one model's aggregation holds, the rule that turns a cumulative reading into a
    credited delta, the folding of one event, and one whole collection cycle over the
    table of models. The class module LlmDc performs the same steps in place. */
module LlmAggregation {
  import opened JavaInt

  /** One cumulative counter of a model: the last non-zero reading (`lastTotal*`) and
      the amount credited in the current cycle (`delta*`). */
  datatype Counter = Counter(last: int, delta: int)

  /** Everything a `ModelAggregation` holds besides its model id. */
  datatype AggState = AggState(
    aiSystem: string,
    prompt: Counter,
    complete: Counter,
    duration: Counter,
    reqCount: Counter,
    maxDuration: int)

  /** One drained event: cumulative values as the producer reports them.
      `durationMs` is the already converted `(long)(duration * 1000)`. */
  datatype Event = Event(
    modelId: string,
    aiSystem: string,
    promptTokens: int,
    completeTokens: int,
    durationMs: int,
    reqCount: int)

  /** A model's aggregation as `new ModelAggregation(modelId, aiSystem)` creates it. */
  function NewAggregation(aiSystem: string): AggState
  {
    AggState(aiSystem, Counter(0, 0), Counter(0, 0), Counter(0, 0), Counter(0, 0), 0)
  }

  /** `addDelta*(curr, reqCount)`: folds one cumulative reading into a counter.
      A zero reading changes nothing; any other reading becomes the last total. A
      request count of 1 marks a fresh window and credits the whole reading; otherwise
      only growth over a known (non-zero) last total is credited, and never more than
      that growth. */
  function Observe(c: Counter, curr: int, reqCount: int): (r: Counter)
    ensures curr == 0 ==> r == c
    ensures curr != 0 ==> r.last == curr
    ensures curr != 0 && reqCount == 1 ==> r.delta == c.delta + curr
    ensures reqCount != 1 ==> c.delta <= r.delta
    ensures reqCount != 1 && c.last <= curr ==> r.delta <= c.delta + (curr - c.last)
    ensures reqCount != 1 && curr <= c.last ==> r.delta == c.delta
    ensures curr != 0 && reqCount != 1 ==> (c.delta < r.delta <==> c.last < curr && c.last != 0)
  {
    if curr == 0 then c
    else if reqCount == 1 then Counter(curr, c.delta + curr)
    else if curr > c.last && c.last != 0 then Counter(curr, c.delta + (curr - c.last))
    else Counter(curr, c.delta)
  }

  /** The request count a token reading is paired with: the model's last total request
      count after the event's own count was folded in. */
  function TokenReqCount(s: AggState, e: Event): int
  {
    Observe(s.reqCount, e.reqCount, e.reqCount).last
  }

  /** One event folded into a model's aggregation: duration first (paired with the
      event's own request count), then the request count (deltaed against its own last
      total), then both token counts (paired with the last total request count). */
  function FoldEvent(s: AggState, e: Event): (r: AggState)
    ensures r.aiSystem == s.aiSystem && r.maxDuration == s.maxDuration
    ensures r.duration == Observe(s.duration, e.durationMs, e.reqCount)
    ensures r.reqCount == Observe(s.reqCount, e.reqCount, e.reqCount)
    ensures r.prompt == Observe(s.prompt, e.promptTokens, if e.reqCount != 0 then e.reqCount else s.reqCount.last)
    ensures r.complete == Observe(s.complete, e.completeTokens, if e.reqCount != 0 then e.reqCount else s.reqCount.last)
  {
    var n := TokenReqCount(s, e);
    s.(duration := Observe(s.duration, e.durationMs, e.reqCount),
       reqCount := Observe(s.reqCount, e.reqCount, e.reqCount),
       prompt := Observe(s.prompt, e.promptTokens, n),
       complete := Observe(s.complete, e.completeTokens, n))
  }

  /** `resetMetrics()`: the four deltas zeroed, last totals and maximum kept. */
  function ResetDeltas(s: AggState): (r: AggState)
    ensures r.prompt.delta == r.complete.delta == r.duration.delta == r.reqCount.delta == 0
    ensures r.prompt.last == s.prompt.last && r.complete.last == s.complete.last
    ensures r.duration.last == s.duration.last && r.reqCount.last == s.reqCount.last
    ensures r.aiSystem == s.aiSystem && r.maxDuration == s.maxDuration
  {
    s.(prompt := s.prompt.(delta := 0), complete := s.complete.(delta := 0),
       duration := s.duration.(delta := 0), reqCount := s.reqCount.(delta := 0))
  }

  // ---------------------------------------------------------------------------
  // A collection cycle over the table of models
  // ---------------------------------------------------------------------------

  type Table = map<string, AggState>

  function ResetAll(t: Table): (r: Table)
    ensures r.Keys == t.Keys
  {
    map k | k in t :: ResetDeltas(t[k])
  }

  /** Part way through the reset loop: the entries in `pending` are as they were,
      the others reset. */
  ghost predicate ResetExcept(t0: Table, t: Table, pending: set<string>)
  {
    && t.Keys == t0.Keys
    && forall j :: j in t ==> t[j] == if j in pending then t0[j] else ResetDeltas(t0[j])
  }

  /** Resetting one more pending entry keeps the loop's account. */
  lemma ResetStep(t0: Table, t: Table, pending: set<string>, k: string)
    requires ResetExcept(t0, t, pending) && k in pending && k in t
    ensures ResetExcept(t0, t[k := ResetDeltas(t[k])], pending - {k})
  {
    var t1, p1 := t[k := ResetDeltas(t[k])], pending - {k};
    forall j | j in t1 ensures t1[j] == if j in p1 then t0[j] else ResetDeltas(t0[j]) {
      if j == k { assert t[k] == t0[k]; }
    }
  }

  /** With nothing pending, every entry is reset. */
  lemma ResetDone(t0: Table, t: Table)
    requires ResetExcept(t0, t, {})
    ensures t == ResetAll(t0)
  {
    assert t.Keys == ResetAll(t0).Keys;
  }

  /** One event: the model's entry is looked up, created when missing, and folded. */
  function Ingest(t: Table, e: Event): Table
  {
    var s := if e.modelId in t then t[e.modelId] else NewAggregation(e.aiSystem);
    t[e.modelId := FoldEvent(s, e)]
  }

  /** Ingesting is creating the entry when it is missing, then folding the event
      into it. */
  lemma IngestThroughEntry(t: Table, e: Event, mid: Table)
    requires mid == if e.modelId in t then t else t[e.modelId := NewAggregation(e.aiSystem)]
    ensures e.modelId in mid && mid[e.modelId := FoldEvent(mid[e.modelId], e)] == Ingest(t, e)
  {
  }

  /** The drained batch, in order. */
  function IngestAll(t: Table, events: seq<Event>): Table
  {
    if events == [] then t
    else Ingest(IngestAll(t, events[..|events| - 1]), events[|events| - 1])
  }

  /** Ingesting one more event of the batch folds it into the table so far. */
  lemma IngestAllStep(t: Table, events: seq<Event>, i: nat)
    requires i < |events|
    ensures IngestAll(t, events[..i + 1]) == Ingest(IngestAll(t, events[..i]), events[i])
  {
    assert events[..i + 1][..i] == events[..i];
  }

  function ModelsOf(events: seq<Event>): set<string>
  {
    set i | 0 <= i < |events| :: events[i].modelId
  }

  /** `avgDuration`: the credited duration over the credited requests, rounded toward
      zero as Java's `long` division does, or 0 without requests. */
  function AvgDuration(s: AggState): int
  {
    if s.reqCount.delta == 0 then 0 else TruncDiv(s.duration.delta, s.reqCount.delta)
  }

  function Max(a: int, b: int): int { if a < b then b else a }

  /** What the collector reports for one model in one cycle. Rates and cost are the
      deltas divided by `intervalSeconds` and multiplied by the prices, in floating
      point; the record holds their exact inputs. */
  datatype Record = Record(
    aiSystem: string,
    avgDuration: int,
    maxDuration: int,
    deltaPromptTokens: int,
    deltaCompleteTokens: int,
    deltaReqCount: int,
    intervalSeconds: int,
    pricePromptTokens: real,
    priceCompleteTokens: real)

  function Emit(s: AggState, intervalSeconds: int, prices: Prices): Record
  {
    var avg := AvgDuration(s);
    Record(s.aiSystem, avg, Max(s.maxDuration, avg), s.prompt.delta, s.complete.delta,
           s.reqCount.delta, intervalSeconds,
           PricePromptTokens(prices, s.aiSystem), PriceCompleteTokens(prices, s.aiSystem))
  }

  /** The model's aggregation after it is reported: the maximum raised to this cycle's
      average when that is larger, then the deltas reset. */
  function AfterEmit(s: AggState): AggState
  {
    ResetDeltas(s.(maxDuration := Max(s.maxDuration, AvgDuration(s))))
  }

  /** The table after the batch is folded into freshly reset deltas. */
  function Ingested(t: Table, events: seq<Event>): Table
  {
    IngestAll(ResetAll(t), events)
  }

  /** Every entry after it is reported. */
  function AfterEmitAll(t: Table): (r: Table)
    ensures r.Keys == t.Keys
  {
    map k | k in t :: AfterEmit(t[k])
  }

  /** What is reported for every entry. */
  function EmitAll(t: Table, intervalSeconds: int, prices: Prices): (r: map<string, Record>)
    ensures r.Keys == t.Keys
  {
    map k | k in t :: Emit(t[k], intervalSeconds, prices)
  }

  /** Part way through the reporting loop: the entries in `pending` are as they
      were, the others reported and reset, and `records` holds exactly the reports
      made so far. */
  ghost predicate EmittedExcept(t0: Table, t: Table, records: map<string, Record>, pending: set<string>,
                                intervalSeconds: int, prices: Prices)
  {
    && t.Keys == t0.Keys
    && (forall j :: j in t ==> t[j] == if j in pending then t0[j] else AfterEmit(t0[j]))
    && (forall j :: j in records ==> j in t0 && j !in pending && records[j] == Emit(t0[j], intervalSeconds, prices))
    && (forall j :: j in t0 && j !in pending ==> j in records)
  }

  /** Reporting one more pending entry keeps the loop's account. */
  lemma EmitStep(t0: Table, t: Table, records: map<string, Record>, pending: set<string>,
                 intervalSeconds: int, prices: Prices, k: string)
    requires EmittedExcept(t0, t, records, pending, intervalSeconds, prices) && k in pending && k in t
    ensures EmittedExcept(t0, t[k := AfterEmit(t[k])],
                          records[k := Emit(t[k], intervalSeconds, prices)], pending - {k},
                          intervalSeconds, prices)
  {
    var t1, r1, p1 := t[k := AfterEmit(t[k])], records[k := Emit(t[k], intervalSeconds, prices)], pending - {k};
    forall j | j in t1 ensures t1[j] == if j in p1 then t0[j] else AfterEmit(t0[j]) {
      if j == k { assert t[k] == t0[k]; }
    }
    forall j | j in r1 ensures j in t0 && j !in p1 && r1[j] == Emit(t0[j], intervalSeconds, prices) {
      if j == k { assert t[k] == t0[k]; }
    }
  }

  /** With nothing pending, the loop has reported every entry. */
  lemma EmitDone(t0: Table, t: Table, records: map<string, Record>, intervalSeconds: int, prices: Prices)
    requires EmittedExcept(t0, t, records, {}, intervalSeconds, prices)
    ensures t == AfterEmitAll(t0) && records == EmitAll(t0, intervalSeconds, prices)
  {
    assert t.Keys == AfterEmitAll(t0).Keys;
    assert records.Keys == EmitAll(t0, intervalSeconds, prices).Keys;
  }

  /** `collectData()`: reset every entry, fold the batch, report every entry. */
  function CycleTable(t: Table, events: seq<Event>): Table
  {
    AfterEmitAll(Ingested(t, events))
  }

  function CycleRecords(t: Table, events: seq<Event>, intervalSeconds: int, prices: Prices): map<string, Record>
  {
    EmitAll(Ingested(t, events), intervalSeconds, prices)
  }

  /** `LLM_POLL_INTERVAL`, or 1 when AGENTLESS_MODE_ENABLED is set. */
  function IntervalSeconds(pollInterval: int, agentlessModeSet: bool): int
  {
    if agentlessModeSet then 1 else pollInterval
  }

  // ---------------------------------------------------------------------------
  // Prices per thousand tokens
  // ---------------------------------------------------------------------------

  /** The configuration entries that hold a price per thousand tokens. */
  datatype PriceKey =
    | WatsonxPrompt | WatsonxComplete
    | OpenaiPrompt | OpenaiComplete
    | AnthropicPrompt | AnthropicComplete

  datatype Prices = Prices(
    watsonxPrompt: real, watsonxComplete: real,
    openaiPrompt: real, openaiComplete: real,
    anthropicPrompt: real, anthropicComplete: real)

  function PriceOrDefault(props: map<PriceKey, real>, key: PriceKey): real
  {
    if key in props then props[key] else 0.0
  }

  /** The constructor's `properties.getOrDefault(key, 0.0)` for each price. */
  function ConfiguredPrices(props: map<PriceKey, real>): Prices
  {
    Prices(PriceOrDefault(props, WatsonxPrompt), PriceOrDefault(props, WatsonxComplete),
           PriceOrDefault(props, OpenaiPrompt), PriceOrDefault(props, OpenaiComplete),
           PriceOrDefault(props, AnthropicPrompt), PriceOrDefault(props, AnthropicComplete))
  }

  const KnownSystems: set<string> := {"watsonx", "openai", "anthropic"}

  /** `getPricePromptTokens(aiSystem)`. */
  function PricePromptTokens(p: Prices, aiSystem: string): (price: real)
    ensures aiSystem !in KnownSystems ==> price == 0.0
  {
    match aiSystem
    case "watsonx" => p.watsonxPrompt
    case "openai" => p.openaiPrompt
    case "anthropic" => p.anthropicPrompt
    case _ => 0.0
  }

  /** `getPriceCompleteTokens(aiSystem)`. */
  function PriceCompleteTokens(p: Prices, aiSystem: string): (price: real)
    ensures aiSystem !in KnownSystems ==> price == 0.0
  {
    match aiSystem
    case "watsonx" => p.watsonxComplete
    case "openai" => p.openaiComplete
    case "anthropic" => p.anthropicComplete
    case _ => 0.0
  }

  /** The configuration entry that prices a system's tokens, if any. */
  function PriceKeyFor(aiSystem: string, prompt: bool): (k: PriceKey)
    requires aiSystem in KnownSystems
  {
    if aiSystem == "watsonx" then (if prompt then WatsonxPrompt else WatsonxComplete)
    else if aiSystem == "openai" then (if prompt then OpenaiPrompt else OpenaiComplete)
    else (if prompt then AnthropicPrompt else AnthropicComplete)
  }

  /** A system is charged the price configured under its own key, 0.0 when that key
      is absent, and nothing when the system is not one of the three known ones. */
  lemma PriceLookup(props: map<PriceKey, real>, aiSystem: string)
    ensures PricePromptTokens(ConfiguredPrices(props), aiSystem)
            == if aiSystem in KnownSystems then PriceOrDefault(props, PriceKeyFor(aiSystem, true)) else 0.0
    ensures PriceCompleteTokens(ConfiguredPrices(props), aiSystem)
            == if aiSystem in KnownSystems then PriceOrDefault(props, PriceKeyFor(aiSystem, false)) else 0.0
  {
  }

  // ---------------------------------------------------------------------------
  // Properties of the counter rule
  // ---------------------------------------------------------------------------

  /** A series of readings folded into one counter, each with its request count. */
  function ObserveAll(c: Counter, readings: seq<(int, int)>): Counter
    decreases |readings|
  {
    if readings == [] then c
    else ObserveAll(Observe(c, readings[0].0, readings[0].1), readings[1..])
  }

  /** Readings that never fall below `from` nor below each other, none with request
      count 1 (no restart). */
  predicate SteadyGrowth(from: int, readings: seq<(int, int)>)
  {
    && (readings != [] ==> from <= readings[0].0)
    && (forall i :: 0 < i < |readings| ==> readings[i - 1].0 <= readings[i].0)
    && (forall i :: 0 <= i < |readings| ==> readings[i].1 != 1)
  }

  function FinalReading(from: int, readings: seq<(int, int)>): int
  {
    if readings == [] then from else readings[|readings| - 1].0
  }

  /** Without a restart, and from a known non-zero last total, the deltas credited
      over a series of non-decreasing readings add up to exactly the growth. */
  lemma {:induction false} SteadyGrowthCreditedExactly(c: Counter, readings: seq<(int, int)>)
    requires 0 < c.last && SteadyGrowth(c.last, readings)
    ensures ObserveAll(c, readings).last == FinalReading(c.last, readings)
    ensures ObserveAll(c, readings).delta == c.delta + (FinalReading(c.last, readings) - c.last)
    decreases |readings|
  {
    if readings != [] {
      var c' := Observe(c, readings[0].0, readings[0].1);
      assert c' == Counter(readings[0].0, c.delta + (readings[0].0 - c.last));
      var rest := readings[1..];
      assert SteadyGrowth(c'.last, rest) by {
        forall i | 0 < i < |rest| ensures rest[i - 1].0 <= rest[i].0 {
          assert rest[i - 1] == readings[i] && rest[i] == readings[i + 1];
        }
      }
      SteadyGrowthCreditedExactly(c', rest);
      assert FinalReading(c'.last, rest) == FinalReading(c.last, readings);
    }
  }

  /** A window that opens with request count 1 and then grows steadily credits its
      final cumulative value in full, whatever the counter held before. */
  lemma FreshWindowCreditsFinalValue(c: Counter, readings: seq<(int, int)>)
    requires readings != [] && readings[0].1 == 1 && 0 < readings[0].0
    requires SteadyGrowth(readings[0].0, readings[1..])
    ensures ObserveAll(c, readings).delta == c.delta + FinalReading(readings[0].0, readings[1..])
  {
    var c' := Observe(c, readings[0].0, 1);
    SteadyGrowthCreditedExactly(c', readings[1..]);
  }

  // ---------------------------------------------------------------------------
  // Properties of a cycle
  // ---------------------------------------------------------------------------

  predicate NonNegativeDeltas(s: AggState)
  {
    0 <= s.prompt.delta && 0 <= s.complete.delta && 0 <= s.duration.delta && 0 <= s.reqCount.delta
  }

  predicate NonNegativeReadings(e: Event)
  {
    0 <= e.promptTokens && 0 <= e.completeTokens && 0 <= e.durationMs && 0 <= e.reqCount
  }

  /** Folding the batch adds entries for its models and removes none; entries of
      models without events are left as they were; the maximum is never touched. */
  lemma {:induction false} IngestAllFrame(t: Table, events: seq<Event>)
    ensures IngestAll(t, events).Keys == t.Keys + ModelsOf(events)
    ensures forall k :: k in t && k !in ModelsOf(events) ==> IngestAll(t, events)[k] == t[k]
    ensures forall k :: k in t ==> IngestAll(t, events)[k].maxDuration == t[k].maxDuration
    ensures forall k :: k in IngestAll(t, events) && k !in t ==> IngestAll(t, events)[k].maxDuration == 0
  {
    if events != [] {
      var front := events[..|events| - 1];
      IngestAllFrame(t, front);
      assert ModelsOf(events) == ModelsOf(front) + {events[|events| - 1].modelId} by {
        forall m | m in ModelsOf(events) ensures m in ModelsOf(front) + {events[|events| - 1].modelId} {
          var i :| 0 <= i < |events| && events[i].modelId == m;
          if i < |events| - 1 { assert front[i] == events[i]; }
        }
        forall m | m in ModelsOf(front) ensures m in ModelsOf(events) {
          var i :| 0 <= i < |front| && front[i].modelId == m;
          assert events[i] == front[i];
        }
      }
    }
  }

  /** With non-negative readings no delta ever becomes negative. */
  lemma {:induction false} IngestAllNonNegative(t: Table, events: seq<Event>)
    requires forall k :: k in t ==> NonNegativeDeltas(t[k])
    requires forall i :: 0 <= i < |events| ==> NonNegativeReadings(events[i])
    ensures forall k :: k in IngestAll(t, events) ==> NonNegativeDeltas(IngestAll(t, events)[k])
  {
    if events != [] {
      IngestAllNonNegative(t, events[..|events| - 1]);
    }
  }

  /** Every model already known and every model in the batch is reported, no other;
      the table keeps every model; all deltas are zero afterwards. */
  lemma CycleReportsEveryModel(t: Table, events: seq<Event>, intervalSeconds: int, prices: Prices)
    ensures CycleTable(t, events).Keys == t.Keys + ModelsOf(events)
    ensures CycleRecords(t, events, intervalSeconds, prices).Keys == CycleTable(t, events).Keys
    ensures forall k :: k in CycleTable(t, events) ==>
      var s := CycleTable(t, events)[k];
      s.prompt.delta == s.complete.delta == s.duration.delta == s.reqCount.delta == 0
  {
    IngestAllFrame(ResetAll(t), events);
  }

  /** The reported maximum is the larger of the previous maximum and this cycle's
      average, so it is at least the average and never decreases from cycle to cycle. */
  lemma CycleMaxDuration(t: Table, events: seq<Event>, intervalSeconds: int, prices: Prices, k: string)
    requires k in t + Ingested(t, events)
    ensures k in CycleTable(t, events) && k in CycleRecords(t, events, intervalSeconds, prices)
    ensures var r := CycleRecords(t, events, intervalSeconds, prices)[k];
      && r.maxDuration == CycleTable(t, events)[k].maxDuration
      && r.maxDuration == Max(if k in t then t[k].maxDuration else 0, r.avgDuration)
      && r.avgDuration <= r.maxDuration
      && (k in t ==> t[k].maxDuration <= r.maxDuration)
  {
    IngestAllFrame(ResetAll(t), events);
  }

  /** A model without events this cycle reports zero deltas and a zero average, and
      keeps its last totals. */
  lemma QuietModel(t: Table, events: seq<Event>, intervalSeconds: int, prices: Prices, k: string)
    requires k in t && k !in ModelsOf(events)
    ensures k in CycleRecords(t, events, intervalSeconds, prices)
    ensures var r := CycleRecords(t, events, intervalSeconds, prices)[k];
      && r.deltaPromptTokens == r.deltaCompleteTokens == r.deltaReqCount == 0
      && r.avgDuration == 0 && r.maxDuration == Max(t[k].maxDuration, 0)
    ensures CycleTable(t, events)[k] == ResetDeltas(t[k].(maxDuration := Max(t[k].maxDuration, 0)))
  {
    IngestAllFrame(ResetAll(t), events);
  }

  /** With non-negative readings every reported delta is non-negative. */
  lemma CycleNeverReportsNegative(t: Table, events: seq<Event>, intervalSeconds: int, prices: Prices, k: string)
    requires forall i :: 0 <= i < |events| ==> NonNegativeReadings(events[i])
    requires k in CycleRecords(t, events, intervalSeconds, prices)
    ensures var r := CycleRecords(t, events, intervalSeconds, prices)[k];
      0 <= r.deltaPromptTokens && 0 <= r.deltaCompleteTokens && 0 <= r.deltaReqCount
  {
    IngestAllNonNegative(ResetAll(t), events);
  }
}
