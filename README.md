# Collector cores of otel-database-dc, modelled in Dafny

This project models the data-collection cores of five collectors in the otel-database-dc
repository, and the command-based collection strategy of the Informix collector, and
proves properties about them.

- **The LLM collector** (`llm` module, `LLMDc`). It turns cumulative, restart-prone
  readings into per-cycle deltas: token counts, duration and request count. It keeps one
  `ModelAggregation` per model. Each cycle resets the deltas, folds in the drained batch
  of events, and reports every model's average duration, maximum duration, deltas and
  price per thousand tokens.
  - `LlmAggregation` states these steps as values.
  - `LlmDc` performs them in place, with one class per Java class. Each method is proved
    against the value-level definition.
- **The earlier AI collector** (`ai` module, `LLMDc`). It sums raw event values into
  Java `int` fields. Every `+=` wraps modulo 2^32, and so do the `(int)` casts of the
  `long` token counts. The `(int)` cast of the `double` duration saturates instead; it is
  left out with the floating point. It takes the maximum over raw durations and zeroes
  everything each cycle.
  - `AiAggregation` holds the value definitions and an independent reference definition
    by sums over each model's own events.
  - `AiDc` holds the classes.
- **The Informix collector** (`InformixDc`). It covers:
  - the quoted database-name list spliced into the tablespace queries;
  - the case-insensitive lookup of a polling tier by name;
  - the tasks a custom polling configuration schedules;
  - whether `start()` starts the default scheduler;
  - the three collection routines (long, medium, short) and the metric registry they
    write.
  - Modules: `InformixConfig` (values), `InformixMetrics` (each routine as a table of
    writes) and `InformixDc` (the class).
- **The command-based collection strategy** (`CommandStrategy`). A metric with a numeric
  return type runs its script through the `onstat` executor and parses the first output
  token with `Integer.parseInt`.
- **The two MQ appliance collectors** (`HostMqAppliance` and `ApplianceMq`, sharing
  `MqReadings`).
  - They read one probe line and split it on `;`.
  - The host collector needs at least seven fields. It sets the CPU, load and memory
    metrics only when field 0 has exactly six `:`-separated parts, then the network and
    queue-manager metrics.
  - The appliance collector needs exactly six fields.

Shared modules:

- `Wrappers`: Option and Result.
- `JavaInt`: Java `int` wrap-around and division that truncates toward zero.
- `JavaString`: `String.split` on one character with trailing empty strings removed,
  `trim`, `Integer.parseInt`, `Integer.toString` and `equalsIgnoreCase` (which also
  matches the Kelvin sign with 'K', the long s with 'S', and dotted and dotless I with
  'I').
- `MetricSink`: a sequence of `getRawMetric(name).setValue(value)` calls. Each value is
  computed just before it is stored. An exception while computing one ends the sequence
  and leaves the earlier stores in place.

Behaviour that follows the code where a summary of the design would say otherwise:

- The LLM collector's deltas are never negative only when the readings themselves are
  non-negative. A request count of 1 credits the whole reading, whatever its sign.
  `CycleNeverReportsNegative` therefore requires non-negative readings.
- The Informix tiers are not isolated from each other in the default `collectData`
  path. The long and medium routines catch only `SQLException`. Any other exception
  escapes `getallMetrics` and skips the later routines (`EscapeSkipsLaterTiers`).
- The first database name is quoted without `trim`; every later name is trimmed.
- The medium routine collects the transaction rate with a second call under the
  transaction-count id. That call runs its own query or command, so the rate need not
  equal the count, and it can fail after the count was stored.
- A tier name that `getPollingInterval` does not know gives null. The `assert` on it is
  off by default, so the `switch` on null throws and ends the loop. This is modelled as
  `InvalidIntervalName`.
- The appliance collector passes over a missing line (end of stream) and a line without
  exactly six fields silently. The host collector logs both.

## Model

Source paths are relative to the repository root. For brevity:

- L = `llm/src/main/java/com/instana/dc/llm/impl/llm/LLMDc.java`
- A = `ai/src/main/java/com/instana/dc/ai/impl/llm/LLMDc.java`
- I = `rdb/src/main/java/com/instana/dc/rdb/impl/informix/InformixDc.java`
- C = `rdb/src/main/java/com/instana/dc/rdb/impl/informix/metric/collection/strategy/CommandExecutorStrategy.java`
- H = `host/src/main/java/com/instana/dc/host/impl/mqappliance/MqApplianceDc.java`
- P = `appliance/src/main/java/com/instana/dc/appliance/impl/MqApplianceDc.java`

The table spells the paths out in full.

| member | source | states |
|---|---|---|
| LlmAggregation.Observe | llm/src/main/java/com/instana/dc/llm/impl/llm/LLMDc.java:79-91 | A zero reading changes nothing. Any other reading becomes the last total. A request count of 1 credits the whole reading. Otherwise the delta grows exactly when the reading exceeds a known non-zero last total, and by no more than that growth. |
| LlmAggregation.FoldEvent | llm/src/main/java/com/instana/dc/llm/impl/llm/LLMDc.java:230-235 | Duration is folded with the event's own request count, and the request count against its own last total. Both token counts are paired with the last total request count: the event's count when non-zero, else the previous last total. The AI system and the maximum stay as they were. |
| LlmAggregation.ResetDeltas | llm/src/main/java/com/instana/dc/llm/impl/llm/LLMDc.java:153-158 | The four deltas are zero; the last totals, the AI system and the maximum are kept. |
| LlmAggregation.SteadyGrowthCreditedExactly | llm/src/main/java/com/instana/dc/llm/impl/llm/LLMDc.java:83-90 | Without a restart and from a known non-zero last total, the deltas credited over non-decreasing readings add up to exactly the growth. |
| LlmAggregation.FreshWindowCreditsFinalValue | llm/src/main/java/com/instana/dc/llm/impl/llm/LLMDc.java:84-85 | A window that opens with request count 1 and then grows steadily credits its final cumulative value in full, whatever the counter held before. |
| LlmAggregation.PricePromptTokens | llm/src/main/java/com/instana/dc/llm/impl/llm/LLMDc.java:297-304 | A system other than watsonx, openai and anthropic is charged 0.0 for prompt tokens. |
| LlmAggregation.PriceCompleteTokens | llm/src/main/java/com/instana/dc/llm/impl/llm/LLMDc.java:306-313 | A system other than watsonx, openai and anthropic is charged 0.0 for completion tokens. |
| LlmAggregation.PriceLookup | llm/src/main/java/com/instana/dc/llm/impl/llm/LLMDc.java:163-168 | Each known system is charged the price configured under its own key, or 0.0 when the key is absent; unknown systems are charged 0.0. |
| LlmAggregation.IngestAllFrame | llm/src/main/java/com/instana/dc/llm/impl/llm/LLMDc.java:225-229 | Folding a batch adds an entry for each of its models and removes none. Entries of models without events are unchanged. Maximums are untouched, and new entries start at 0. |
| LlmAggregation.IngestAllNonNegative | llm/src/main/java/com/instana/dc/llm/impl/llm/LLMDc.java:79-146 | With non-negative readings, non-negative deltas stay non-negative over a whole batch. |
| LlmAggregation.CycleReportsEveryModel | llm/src/main/java/com/instana/dc/llm/impl/llm/LLMDc.java:243-293 | A cycle reports exactly the previously known models plus the models of the batch. The table keeps them all, with every delta zero afterwards. |
| LlmAggregation.CycleMaxDuration | llm/src/main/java/com/instana/dc/llm/impl/llm/LLMDc.java:253-257 | The reported and stored maximum is the larger of the previous maximum and this cycle's average. It is at least the average and never decreases. |
| LlmAggregation.QuietModel | llm/src/main/java/com/instana/dc/llm/impl/llm/LLMDc.java:209-257 | A known model without events reports zero deltas and a zero average, and keeps its last totals. |
| LlmAggregation.CycleNeverReportsNegative | llm/src/main/java/com/instana/dc/llm/impl/llm/LLMDc.java:247-250 | With non-negative readings, every reported delta is non-negative. |
| LlmDc.ModelAggregation.constructor | llm/src/main/java/com/instana/dc/llm/impl/llm/LLMDc.java:69-72 | A new aggregation has the model id and AI system given, and every counter and the maximum are 0. |
| LlmDc.ModelAggregation.AddDeltaPromptTokens | llm/src/main/java/com/instana/dc/llm/impl/llm/LLMDc.java:79-91 | The prompt counter becomes `Observe` of it; every other field stays. |
| LlmDc.ModelAggregation.AddDeltaCompleteTokens | llm/src/main/java/com/instana/dc/llm/impl/llm/LLMDc.java:96-108 | The completion counter becomes `Observe` of it; every other field stays. |
| LlmDc.ModelAggregation.AddDeltaDuration | llm/src/main/java/com/instana/dc/llm/impl/llm/LLMDc.java:112-124 | The duration counter becomes `Observe` of it; every other field stays. |
| LlmDc.ModelAggregation.AddDeltaReqCount | llm/src/main/java/com/instana/dc/llm/impl/llm/LLMDc.java:134-146 | The request counter becomes `Observe` of it, with the reading as its own request count; every other field stays. |
| LlmDc.ModelAggregation.SetMaxDuration | llm/src/main/java/com/instana/dc/llm/impl/llm/LLMDc.java:128-130 | Only the maximum changes. |
| LlmDc.ModelAggregation.ResetMetrics | llm/src/main/java/com/instana/dc/llm/impl/llm/LLMDc.java:153-158 | The state becomes `ResetDeltas` of the old state. |
| LlmDc.LlmDc.constructor | llm/src/main/java/com/instana/dc/llm/impl/llm/LLMDc.java:161-170 | The map starts empty. Each price is the configured value, or 0.0 when absent. |
| LlmDc.LlmDc.CollectData | llm/src/main/java/com/instana/dc/llm/impl/llm/LLMDc.java:206-295 | The aggregations afterwards, and the records reported, are those of one cycle over the old table and the batch, with the poll interval (1 when AGENTLESS_MODE_ENABLED is set). |
| LlmDc.LlmDc.ResetEntries | llm/src/main/java/com/instana/dc/llm/impl/llm/LLMDc.java:209-212 | Every aggregation in the map is reset; the map itself is unchanged. |
| LlmDc.LlmDc.ResetEntry | llm/src/main/java/com/instana/dc/llm/impl/llm/LLMDc.java:210-211 | Only the entry's aggregation is reset. |
| LlmDc.LlmDc.IngestBatch | llm/src/main/java/com/instana/dc/llm/impl/llm/LLMDc.java:214-240 | The table becomes the old table with the batch folded in, in order. Only fresh aggregations are added. |
| LlmDc.LlmDc.IngestEvent | llm/src/main/java/com/instana/dc/llm/impl/llm/LLMDc.java:225-235 | The table becomes the old table with the one event ingested. |
| LlmDc.LlmDc.AddEntry | llm/src/main/java/com/instana/dc/llm/impl/llm/LLMDc.java:225-229 | A fresh aggregation is filed under the new model; every other entry keeps its object. |
| LlmDc.LlmDc.FoldEntry | llm/src/main/java/com/instana/dc/llm/impl/llm/LLMDc.java:230-235 | Only the model's entry changes, to `FoldEvent` of it. |
| LlmDc.LlmDc.EmitEntry | llm/src/main/java/com/instana/dc/llm/impl/llm/LLMDc.java:244-292 | The record is `Emit` of the entry. The entry's maximum rises to the average when that is larger, and its deltas are reset. |
| LlmDc.LlmDc.EmitEntries | llm/src/main/java/com/instana/dc/llm/impl/llm/LLMDc.java:243-293 | Every entry is reported exactly once and left as `AfterEmit` of it. |
| AiAggregation.Reset | ai/src/main/java/com/instana/dc/ai/impl/llm/LLMDc.java:86-92 | All five counters are zero, the maximum included; the user is kept. |
| AiAggregation.FoldEvent | ai/src/main/java/com/instana/dc/ai/impl/llm/LLMDc.java:156-159 | The request count grows by one, with `int` wrap-around. The maximum becomes the event's duration when that is larger, so it bounds both. The user is kept. |
| AiAggregation.IngestEffect | ai/src/main/java/com/instana/dc/ai/impl/llm/LLMDc.java:150-159 | An event adds its model to the table and changes that model's entry only. |
| AiAggregation.MaxDuration | ai/src/main/java/com/instana/dc/ai/impl/llm/LLMDc.java:69-73 | The reference maximum is at least the floor and every duration, and equals the floor or one of them. |
| AiAggregation.FoldTotals | ai/src/main/java/com/instana/dc/ai/impl/llm/LLMDc.java:57-82 | Folding one event with the wrapping `+=` agrees with the exact sums over one more event, narrowed to `int` once. |
| AiAggregation.AvgDuration | ai/src/main/java/com/instana/dc/ai/impl/llm/LLMDc.java:175 | Without requests the average is the total duration itself. Otherwise it is the quotient rounded toward zero, except for `MIN_VALUE / -1`. |
| AiAggregation.IngestAllTotals | ai/src/main/java/com/instana/dc/ai/impl/llm/LLMDc.java:143-164 | After a batch, each model holds its previous totals plus the sums of its own events (wrapped), its request count plus its number of events, and the largest of its maximum and its durations. |
| AiAggregation.IngestAllKeys | ai/src/main/java/com/instana/dc/ai/impl/llm/LLMDc.java:150-154 | A batch adds exactly the models of its events. |
| AiAggregation.IngestAllKeepsUser | ai/src/main/java/com/instana/dc/ai/impl/llm/LLMDc.java:152 | Every entry is created for the user "llmUser". |
| AiAggregation.CycleKeys | ai/src/main/java/com/instana/dc/ai/impl/llm/LLMDc.java:136-183 | A cycle reports every model ever seen and afterwards holds them all zeroed. |
| AiAggregation.CycleRecordFromBatch | ai/src/main/java/com/instana/dc/ai/impl/llm/LLMDc.java:136-183 | What a model reports is the record its own events of this batch give. |
| AiAggregation.CycleIgnoresHistory | ai/src/main/java/com/instana/dc/ai/impl/llm/LLMDc.java:136-139 | Two tables that know the same models report the same records for the same batch. |
| AiAggregation.QuietModel | ai/src/main/java/com/instana/dc/ai/impl/llm/LLMDc.java:136-139 | A known model without events reports all zeros. |
| AiAggregation.AverageOfBatch | ai/src/main/java/com/instana/dc/ai/impl/llm/LLMDc.java:169-175 | Without wrap-around, the request count is the number of the model's events, and the average is their total duration divided by it, rounded toward zero. |
| AiDc.ModelAggregation.constructor | ai/src/main/java/com/instana/dc/ai/impl/llm/LLMDc.java:47-50 | A new aggregation has the ids given and every counter 0. |
| AiDc.ModelAggregation.AddTotalPromptTokens | ai/src/main/java/com/instana/dc/ai/impl/llm/LLMDc.java:57-59 | The prompt total grows by the tokens, with `int` wrap-around; nothing else changes. |
| AiDc.ModelAggregation.AddTotalCompleteTokens | ai/src/main/java/com/instana/dc/ai/impl/llm/LLMDc.java:63-65 | The completion total grows by the tokens, with `int` wrap-around; nothing else changes. |
| AiDc.ModelAggregation.AddTotalDuration | ai/src/main/java/com/instana/dc/ai/impl/llm/LLMDc.java:69-73 | The duration total grows with wrap-around, and the maximum rises to a larger duration. |
| AiDc.ModelAggregation.AddReqCount | ai/src/main/java/com/instana/dc/ai/impl/llm/LLMDc.java:80-82 | The request total grows by the count, with `int` wrap-around; nothing else changes. |
| AiDc.ModelAggregation.ResetMetrics | ai/src/main/java/com/instana/dc/ai/impl/llm/LLMDc.java:86-92 | The state becomes `Reset` of the old state. |
| AiDc.AiDc.constructor | ai/src/main/java/com/instana/dc/ai/impl/llm/LLMDc.java:95-97 | The map starts empty. |
| AiDc.AiDc.CollectData | ai/src/main/java/com/instana/dc/ai/impl/llm/LLMDc.java:133-200 | The aggregations afterwards, and the records reported, are those of one cycle over the old table and the batch. |
| AiDc.AiDc.ResetEntries | ai/src/main/java/com/instana/dc/ai/impl/llm/LLMDc.java:136-139 | Every aggregation is reset; the map is unchanged. |
| AiDc.AiDc.ResetEntry | ai/src/main/java/com/instana/dc/ai/impl/llm/LLMDc.java:137-138 | Only the entry's aggregation is reset. |
| AiDc.AiDc.IngestBatch | ai/src/main/java/com/instana/dc/ai/impl/llm/LLMDc.java:141-164 | The table becomes the old table with the batch folded in, in order. Only fresh aggregations are added. |
| AiDc.AiDc.IngestEvent | ai/src/main/java/com/instana/dc/ai/impl/llm/LLMDc.java:145-159 | The table becomes the old table with the one event ingested. |
| AiDc.AiDc.AddEntry | ai/src/main/java/com/instana/dc/ai/impl/llm/LLMDc.java:150-154 | A fresh aggregation for "llmUser" is filed under the new model; every other entry keeps its object. |
| AiDc.AiDc.FoldEntry | ai/src/main/java/com/instana/dc/ai/impl/llm/LLMDc.java:156-159 | Only the model's entry changes, to `FoldEvent` of it. |
| AiDc.AiDc.EmitEntries | ai/src/main/java/com/instana/dc/ai/impl/llm/LLMDc.java:167-199 | Every entry is reported exactly once and then reset. |
| AiDc.AiDc.EmitEntry | ai/src/main/java/com/instana/dc/ai/impl/llm/LLMDc.java:168-192 | The record is `Emit` of the entry, and the entry is reset. |
| JavaInt.Wrap32Facts | ai/src/main/java/com/instana/dc/ai/impl/llm/LLMDc.java:156-159 | Narrowing to `int` keeps a value modulo 2^32 and keeps a value already in range. |
| JavaInt.TruncDivBounds | llm/src/main/java/com/instana/dc/llm/impl/llm/LLMDc.java:253 | The remainder of Java's division has the sign of the dividend and is smaller than the divisor in magnitude; the quotient is no larger than the dividend. |
| JavaInt.Div32 | ai/src/main/java/com/instana/dc/ai/impl/llm/LLMDc.java:175 | `int` division gives `MIN_VALUE` for `MIN_VALUE / -1`, and otherwise the quotient rounded toward zero. |
| InformixConfig.Quote | rdb/src/main/java/com/instana/dc/rdb/impl/informix/InformixDc.java:135 | A quoted name is the name between two single quotes. |
| InformixConfig.Entries | rdb/src/main/java/com/instana/dc/rdb/impl/informix/InformixDc.java:134-138 | One entry per name: the first quoted as it is, every later one trimmed and quoted. |
| InformixConfig.DbNameListIsJoin | rdb/src/main/java/com/instana/dc/rdb/impl/informix/InformixDc.java:134-138 | The list is the entries joined by commas. |
| InformixConfig.DbNameListPieces | rdb/src/main/java/com/instana/dc/rdb/impl/informix/InformixDc.java:134-138 | Splitting the list on commas gives back exactly the entries. |
| InformixConfig.ParseDbNames | rdb/src/main/java/com/instana/dc/rdb/impl/informix/InformixDc.java:133-134 | A missing "custom.input", a missing or null "db.names", and a "db.names" value that is not a `String` (the cast's `ClassCastException`) are errors of their own. A success reads a `String` and holds at least one name, and no name holds a comma. The names joined by commas give back the value, less any commas at its end. |
| InformixConfig.OnlyCommasNoNames | rdb/src/main/java/com/instana/dc/rdb/impl/informix/InformixDc.java:134-135 | A value of commas only has no names, so reading the first name throws. |
| InformixConfig.TrailingCommaIgnored | rdb/src/main/java/com/instana/dc/rdb/impl/informix/InformixDc.java:134 | A trailing comma names the same databases as without it. |
| InformixConfig.IntervalType.Name | rdb/src/main/java/com/instana/dc/rdb/impl/informix/InformixDc.java:238-242 | A tier's name is upper-case ASCII. |
| InformixConfig.FindIntervalMatches | rdb/src/main/java/com/instana/dc/rdb/impl/informix/InformixDc.java:250-258 | The search returns a candidate whose name matches ignoring case. It returns none exactly when no candidate matches. |
| InformixConfig.GetPollingIntervalIff | rdb/src/main/java/com/instana/dc/rdb/impl/informix/InformixDc.java:250-258 | The lookup gives a tier exactly when the input equals that tier's name ignoring case. |
| InformixConfig.GetPollingIntervalOfName | rdb/src/main/java/com/instana/dc/rdb/impl/informix/InformixDc.java:250-258 | Every tier is found by its name in upper case and in lower case. |
| InformixConfig.CustomTask | rdb/src/main/java/com/instana/dc/rdb/impl/informix/InformixDc.java:109-124 | Scheduling throws exactly when the period is not positive. |
| InformixConfig.CastToInt | rdb/src/main/java/com/instana/dc/rdb/impl/informix/InformixDc.java:96 | `(int)` on the entry's value succeeds exactly for an `Integer`, giving its value; null throws `NullPointerException` and any other object `ClassCastException`. |
| InformixConfig.EntryTask | rdb/src/main/java/com/instana/dc/rdb/impl/informix/InformixDc.java:94-99 | An entry schedules its tier's routine with its own period after one second, exactly when its name is a tier and its value is a positive `Integer`. Otherwise the error names the cause, checked in source order: the cast, then the null tier at the switch, then the period. |
| InformixConfig.CastBeforeSwitch | rdb/src/main/java/com/instana/dc/rdb/impl/informix/InformixDc.java:95-98 | An unknown tier name with a value that is not an `Integer` throws the cast's exception, not the switch's. |
| InformixConfig.PlanScheduleRoutes | rdb/src/main/java/com/instana/dc/rdb/impl/informix/InformixDc.java:94-124 | With valid entries only, entry i schedules its tier's routine (HIGH long, MEDIUM medium, LOW short) with its period, and nothing throws. |
| InformixConfig.PlanScheduleStops | rdb/src/main/java/com/instana/dc/rdb/impl/informix/InformixDc.java:94-99 | The first invalid entry ends the loop. The entries before it stay scheduled and none after it is; its own error (`EntryTask`'s) is reported. |
| InformixMetrics.Position | rdb/src/main/java/com/instana/dc/rdb/impl/informix/InformixDc.java:190-227 | Every metric is written by some routine. |
| InformixMetrics.StepsOwnMetrics | rdb/src/main/java/com/instana/dc/rdb/impl/informix/InformixDc.java:190-227 | A routine writes only its own metrics, so no metric is written by two routines. |
| InformixMetrics.StepsDistinct | rdb/src/main/java/com/instana/dc/rdb/impl/informix/InformixDc.java:190-227 | Each routine writes each of its metrics once. |
| InformixMetrics.RunTierRoutes | rdb/src/main/java/com/instana/dc/rdb/impl/informix/InformixDc.java:190-227 | With a connection and every value collected, each metric of the routine holds the value of its own source, and nothing escapes. |
| InformixMetrics.TransactionRateOwnCall | rdb/src/main/java/com/instana/dc/rdb/impl/informix/InformixDc.java:194-195 | The count and the rate both ask for the transaction-count id, each in a call of its own. After a clean medium run each holds the answer to its own call; the two answers may differ. |
| InformixMetrics.TransactionRateFailureKeepsCount | rdb/src/main/java/com/instana/dc/rdb/impl/informix/InformixDc.java:194-200 | When the count's call succeeds and the rate's own call then fails, the count is stored, the rate and the elapsed time keep their old values, and the failure escapes unless it is an `SQLException`. |
| InformixMetrics.NoConnectionNoChange | rdb/src/main/java/com/instana/dc/rdb/impl/informix/InformixDc.java:190-200 | Without a connection a routine writes nothing and nothing escapes. |
| InformixMetrics.RunTierEscapes | rdb/src/main/java/com/instana/dc/rdb/impl/informix/InformixDc.java:190-227 | After the writes before a failing value, the short routine lets nothing escape. The other two let escape exactly the failures that are not `SQLException`. |
| InformixMetrics.EscapeSkipsLaterTiers | rdb/src/main/java/com/instana/dc/rdb/impl/informix/InformixDc.java:184-188 | A failure escaping the long routine escapes `getallMetrics` and leaves every medium and short metric as it was. |
| InformixMetrics.AllMetricsSetsEverything | rdb/src/main/java/com/instana/dc/rdb/impl/informix/InformixDc.java:184-188 | With every connection and every value available, one run sets every metric of every routine from its own source. |
| InformixMetrics.LaterTierKeeps | rdb/src/main/java/com/instana/dc/rdb/impl/informix/InformixDc.java:184-188 | A routine leaves the metrics of the other routines as they were. |
| InformixDc.DefaultTask | rdb/src/main/java/com/instana/dc/rdb/impl/informix/InformixDc.java:229-236 | The default task runs `collectData` every poll interval, and fails exactly when that interval is not positive. |
| InformixDc.ConstructAndStart | rdb/src/main/java/com/instana/dc/rdb/impl/informix/InformixDc.java:48-69 | Construction followed by `start()`: a failed read of the database names schedules nothing and reports its cause; otherwise the tasks scheduled and the exception are exactly `StartupSchedule`'s. |
| InformixDc.StartupScheduleExclusive | rdb/src/main/java/com/instana/dc/rdb/impl/informix/InformixDc.java:229-236 | The default scheduler runs exactly when no custom interval is configured (and the poll interval is positive). A custom configuration schedules only tier routines. |
| InformixDc.PlanScheduleTierRoutines | rdb/src/main/java/com/instana/dc/rdb/impl/informix/InformixDc.java:109-124 | The custom plan holds only tier routines. |
| InformixDc.InformixDc.constructor | rdb/src/main/java/com/instana/dc/rdb/impl/informix/InformixDc.java:41 | Custom polling starts enabled, nothing is scheduled and the registry is empty. |
| InformixDc.InformixDc.BuildDbNameList | rdb/src/main/java/com/instana/dc/rdb/impl/informix/InformixDc.java:135-138 | The `StringBuilder` loop builds the entries joined by commas. |
| InformixDc.InformixDc.ParseCustomAttributes | rdb/src/main/java/com/instana/dc/rdb/impl/informix/InformixDc.java:132-143 | A failed read reports its cause and keeps the list. Otherwise the list is the joined entries of the names; nothing else changes. |
| InformixDc.InformixDc.ScheduleCustomPollRate | rdb/src/main/java/com/instana/dc/rdb/impl/informix/InformixDc.java:109-124 | Appends the tier's task, or throws on a non-positive period and schedules nothing. |
| InformixDc.InformixDc.ParseCustomPollRate | rdb/src/main/java/com/instana/dc/rdb/impl/informix/InformixDc.java:84-100 | No map or an empty one disables custom polling. Otherwise the planned tasks are appended, up to the first failing entry, whose error is returned. |
| InformixDc.InformixDc.ScheduleEntry | rdb/src/main/java/com/instana/dc/rdb/impl/informix/InformixDc.java:94-99 | The lookup, the `(int)` cast and the scheduling of one entry: its task is appended, or its error is returned and nothing is scheduled. |
| InformixDc.InformixDc.Start | rdb/src/main/java/com/instana/dc/rdb/impl/informix/InformixDc.java:229-236 | With custom polling enabled nothing is started. Otherwise the default task is appended, or its error is returned. |
| InformixDc.InformixDc.Escape | rdb/src/main/java/com/instana/dc/rdb/impl/informix/InformixDc.java:197-227 | A failure escapes a routine exactly when its `catch` does not swallow it. |
| InformixDc.InformixDc.LongPollingInterval | rdb/src/main/java/com/instana/dc/rdb/impl/informix/InformixDc.java:218-227 | The registry and what escapes are `RunTier` of the long routine. |
| InformixDc.InformixDc.MediumPollingInterval | rdb/src/main/java/com/instana/dc/rdb/impl/informix/InformixDc.java:190-200 | The registry and what escapes are `RunTier` of the medium routine: five calls, the rate's a second one under the transaction-count id, each checked for failure before the next write. |
| InformixDc.InformixDc.ShortPollingInterval | rdb/src/main/java/com/instana/dc/rdb/impl/informix/InformixDc.java:202-216 | The registry and what escapes are `RunTier` of the short routine. |
| InformixDc.InformixDc.SetInstanceAndSessionMetrics | rdb/src/main/java/com/instana/dc/rdb/impl/informix/InformixDc.java:205-208 | The instance and session writes continue the short routine's writes from the second to the fifth. |
| InformixDc.InformixDc.GetAllMetrics | rdb/src/main/java/com/instana/dc/rdb/impl/informix/InformixDc.java:184-188 | The registry and what escapes are `AllMetrics`: long, medium and short in turn, until one lets an exception escape. |
| InformixDc.InformixDc.CollectData | rdb/src/main/java/com/instana/dc/rdb/impl/informix/InformixDc.java:178-182 | One run of all three routines, as `AllMetrics`. |
| CommandStrategy.CollectMetricsUsingCmd | rdb/src/main/java/com/instana/dc/rdb/impl/informix/metric/collection/strategy/CommandExecutorStrategy.java:24-32 | A non-numeric return type gives null and runs no script. A numeric one runs exactly its script, and gives null when the executor returns nothing. |
| CommandStrategy.OnlyFirstTokenRead | rdb/src/main/java/com/instana/dc/rdb/impl/informix/metric/collection/strategy/CommandExecutorStrategy.java:28 | Two outputs with the same first token collect alike. |
| CommandStrategy.FirstTokenValue | rdb/src/main/java/com/instana/dc/rdb/impl/informix/metric/collection/strategy/CommandExecutorStrategy.java:28 | A first token that `parseInt` accepts (a sign, leading zeros and all) yields its parsed value; in particular the decimal form of an `int` yields that `int`. |
| CommandStrategy.BadOutputEscapes | rdb/src/main/java/com/instana/dc/rdb/impl/informix/metric/collection/strategy/CommandExecutorStrategy.java:26-28 | An empty output or an unparsable first token throws. The empty output is exactly the missing-token case. |
| CommandStrategy.CollectMetricsUsesOwnExecutor | rdb/src/main/java/com/instana/dc/rdb/impl/informix/metric/collection/strategy/CommandExecutorStrategy.java:14-22 | `collectMetrics` uses the executor fixed at construction, so strategies whose executors answer alike collect alike. |
| JavaString.ParseInt | rdb/src/main/java/com/instana/dc/rdb/impl/informix/metric/collection/strategy/CommandExecutorStrategy.java:28 | The empty string does not parse. A parsed text ends in a digit, and a non-zero value is negative exactly when the text starts with '-'. |
| JavaString.ParseIntCanonical | rdb/src/main/java/com/instana/dc/rdb/impl/informix/metric/collection/strategy/CommandExecutorStrategy.java:28 | A parsed text, without its sign and leading zeros, is what `toString` writes for its value, after a '-' exactly when the value is negative. |
| JavaString.DigitsCanonical | rdb/src/main/java/com/instana/dc/rdb/impl/informix/metric/collection/strategy/CommandExecutorStrategy.java:28 | `toString` of a digit string's value is that string without its leading zeros. |
| JavaString.ParseIntSigned | rdb/src/main/java/com/instana/dc/rdb/impl/informix/metric/collection/strategy/CommandExecutorStrategy.java:28 | A sign and digits parse exactly when their value fits in an `int`, and then to that value. |
| JavaString.ParseIntOutOfRange | rdb/src/main/java/com/instana/dc/rdb/impl/informix/metric/collection/strategy/CommandExecutorStrategy.java:28 | Digits worth more than `Integer.MAX_VALUE` never parse, except "-2147483648". |
| JavaString.ParseIntIgnoresPlusAndZeros | rdb/src/main/java/com/instana/dc/rdb/impl/informix/metric/collection/strategy/CommandExecutorStrategy.java:28 | A '+' and leading zeros change neither whether digits parse nor their value. |
| JavaString.ParseIntToString | rdb/src/main/java/com/instana/dc/rdb/impl/informix/metric/collection/strategy/CommandExecutorStrategy.java:28 | `parseInt` reads back every `int` that `toString` writes. |
| JavaString.SplitJoin | rdb/src/main/java/com/instana/dc/rdb/impl/informix/InformixDc.java:134 | Whenever `split` gives a piece, joining the pieces with the separator gives back the input, less some separators at its end. |
| JavaString.SplitIgnoresTrailingSeparator | appliance/src/main/java/com/instana/dc/appliance/impl/MqApplianceDc.java:71 | A separator at the very end splits like the text without it. |
| MetricSink.ApplyOutcome | rdb/src/main/java/com/instana/dc/rdb/impl/informix/InformixDc.java:220-223 | A sequence of `setValue` calls removes no metric, and ends early exactly when some value could not be computed. |
| MetricSink.ApplyLeavesOthers | rdb/src/main/java/com/instana/dc/rdb/impl/informix/InformixDc.java:220-223 | A metric no call targets keeps its value, or stays absent. |
| MetricSink.ApplyStopsAtFailure | rdb/src/main/java/com/instana/dc/rdb/impl/informix/InformixDc.java:220-223 | The calls after the first failing one are never performed, and that failure is what escapes. |
| MetricSink.ApplyStoresEach | rdb/src/main/java/com/instana/dc/rdb/impl/informix/InformixDc.java:220-223 | With distinct targets and every value computed, each metric holds its own value. |
| MetricSink.ApplyAppend | host/src/main/java/com/instana/dc/host/impl/mqappliance/MqApplianceDc.java:61-73 | Two runs of calls one after the other are their concatenation; the second runs only when the first completes. |
| MetricSink.Registry.SetValue | host/src/main/java/com/instana/dc/host/impl/mqappliance/MqApplianceDc.java:62 | Stores a computed value under its metric, or stores nothing and reports the exception. Either way the call continues `Apply` over the remaining calls. |
| MqReadings.Convert | host/src/main/java/com/instana/dc/host/impl/mqappliance/MqApplianceDc.java:62-73 | A conversion succeeds exactly when its fields parse, and gives the reading of those fields. Otherwise it gives the failure for them. |
| MqReadings.SetSystemMetrics | appliance/src/main/java/com/instana/dc/appliance/impl/MqApplianceDc.java:73-77 | The five CPU, load and memory calls are `Apply` of the system writes. |
| MqReadings.SystemRouting | appliance/src/main/java/com/instana/dc/appliance/impl/MqApplianceDc.java:73-77 | When every conversion succeeds, the fields are stored as CPU usage (0), the 1, 5 and 15 minute loads (1-3) and memory usage (4 and 5), and nothing else changes. |
| HostMqAppliance.SetNetworkMetrics | host/src/main/java/com/instana/dc/host/impl/mqappliance/MqApplianceDc.java:68-73 | The six network and queue-manager calls are `Apply` of the network writes. |
| HostMqAppliance.MqApplianceDc.constructor | host/src/main/java/com/instana/dc/host/impl/mqappliance/MqApplianceDc.java:24-26 | The registry starts empty. |
| HostMqAppliance.MqApplianceDc.CollectData | host/src/main/java/com/instana/dc/host/impl/mqappliance/MqApplianceDc.java:51-83 | The registry and outcome are `Collect` of the old registry and the line read. |
| HostMqAppliance.ShortLineSetsNothing | host/src/main/java/com/instana/dc/host/impl/mqappliance/MqApplianceDc.java:59-76 | A line with fewer than seven fields sets nothing and logs the format error. |
| HostMqAppliance.NetworkRouting | host/src/main/java/com/instana/dc/host/impl/mqappliance/MqApplianceDc.java:68-73 | When fields 1 to 6 all convert, they are stored as connections, I/O, packets, errors, dropped and queue-manager status, and nothing else changes. |
| HostMqAppliance.MalformedSystemFieldSkipped | host/src/main/java/com/instana/dc/host/impl/mqappliance/MqApplianceDc.java:60-73 | When field 0 does not have exactly six parts, only the network calls run. The CPU, load and memory metrics keep their values. |
| HostMqAppliance.HostRouting | host/src/main/java/com/instana/dc/host/impl/mqappliance/MqApplianceDc.java:58-73 | With a well-formed field 0 and every conversion succeeding, the system metrics come from the parts of field 0 and the network metrics from fields 1 to 6, and the run ends normally. |
| HostMqAppliance.ExtraFieldsIgnored | host/src/main/java/com/instana/dc/host/impl/mqappliance/MqApplianceDc.java:58-73 | Fields after the seventh are never read. |
| HostMqAppliance.FailureKeepsEarlierWrites | host/src/main/java/com/instana/dc/host/impl/mqappliance/MqApplianceDc.java:62-73 | A conversion that fails part-way escapes `collectData`, and the calls before it stay in place. |
| HostMqAppliance.NoLineSetsNothing | host/src/main/java/com/instana/dc/host/impl/mqappliance/MqApplianceDc.java:55-82 | At the end of the stream or on a read failure nothing is set, and the matching message is logged. |
| ApplianceMq.MqApplianceDc.constructor | appliance/src/main/java/com/instana/dc/appliance/impl/MqApplianceDc.java:27-29 | The registry starts empty. |
| ApplianceMq.MqApplianceDc.CollectData | appliance/src/main/java/com/instana/dc/appliance/impl/MqApplianceDc.java:63-83 | The registry and outcome are `Collect` of the old registry and the line read. |
| ApplianceMq.WrongFieldCountIgnored | appliance/src/main/java/com/instana/dc/appliance/impl/MqApplianceDc.java:72-78 | A line with any number of fields other than six sets nothing and reports nothing. |
| ApplianceMq.ApplianceRouting | appliance/src/main/java/com/instana/dc/appliance/impl/MqApplianceDc.java:71-77 | With six fields that all convert, they are stored in order as CPU usage, the three loads and memory usage, and nothing else changes. |
| ApplianceMq.TrailingSeparatorIgnored | appliance/src/main/java/com/instana/dc/appliance/impl/MqApplianceDc.java:71-72 | A `;` closing the line changes nothing. |
| ApplianceMq.FailureKeepsEarlierWrites | appliance/src/main/java/com/instana/dc/appliance/impl/MqApplianceDc.java:73-77 | A conversion that fails part-way escapes `collectData`, and the calls before it stay in place. |
| ApplianceMq.NoLineSetsNothing | appliance/src/main/java/com/instana/dc/appliance/impl/MqApplianceDc.java:68-82 | Nothing is set without a line. Only a read failure is logged; the end of the stream passes silently. |

## Left out

- Event transport: the gRPC and HTTP servers of `initOnce` and the `MetricsCollectorService`
  queue. The drained batch is an input to `CollectData`.
- Floating point: the interval rates, token totals and costs of both LLM collectors, and
  the `duration * 1000` conversion with its saturating `(int)` cast in the `ai` collector.
  A record holds the exact integer deltas, the interval and the prices these are computed
  from; events carry the converted duration.
- The reads of the AGENTLESS_MODE_ENABLED environment variable. Whether it is set is a
  parameter.
- The `setValue(1)` of the LLM status metric in both LLM collectors. It does not depend
  on any state.
- The `System.out` and logger output of every collector. Only the severe messages of
  the MQ collectors are modelled, as `Outcome` values.
- The thread pools: how `scheduleWithFixedDelay` runs tasks, and concurrency between
  tiers. A scheduled task is recorded as a value.
- The order of `HashMap` iteration. The custom-interval entries are given in iteration
  order as a sequence; the per-model loops pick keys with `:|`.
- JDBC, connection pooling, `SqlExecutorStrategy`, `OnstatCommandExecutor` and
  `registerMetricCommands`. The answer to each `collectMetrics` call, and whether a
  connection opens, are parameters. Each call has its own answer, named by its routine,
  the position of the write it feeds and the id it asks for, so two calls under the
  same id may answer differently. The executor is a function from script name to
  output tokens.
- The rest of the Informix constructor. This covers the data-source setup, password
  decoding, the URL, `getDbNameAndVersion` and the SQL templates. `ConstructAndStart`
  calls `ParseCustomAttributes`, `ParseCustomPollRate` and `Start` in turn; the
  exceptions of the left-out steps, `getDbNameAndVersion`'s included, are not
  modelled.
- The `(Map<String, Object>)` casts of the "custom.input" and "custom.poll.interval"
  properties. Each is given as an optional map; a property that is not a map, and its
  `ClassCastException`, is not modelled. The values inside those maps are modelled as
  Java objects (`ConfigValue`), with the `(String)` and `(int)` casts and their
  exceptions.
- `(Number)` and `(List)` casts of collected values and their `ClassCastException`. A
  collected value is a `Sample`.
- `getResourceAttributes`, `getApplianceId` and the reader's connection to the probe.
  The line read is a `ReadResult`.
- `Double.parseDouble`, `Long.parseLong` and the `MqApplianceUtil` transforms. A reading
  records the conversion and the fields it was applied to; whether a conversion accepts
  its fields is the `Parses` parameter.
- `SetSystemMetrics`, `SetNetworkMetrics` and `SetInstanceAndSessionMetrics` split one
  straight run of source statements into helper methods, to keep each proof small.
- LlmAggregation.Observe: counters are unbounded integers. Java `long` wrap-around at
  2^63 is not modelled in the LLM collector.
- JavaString.ParseInt: accepts ASCII digits only, whereas Java's `parseInt` also
  accepts other Unicode decimal digits.
- JavaString.EqualsIgnoreCase: defined only for comparison with an upper-case ASCII name,
  which is the only use here.
- JavaString.Split: covers a single separator character that is not a regular-expression
  metacharacter (`;`, `:` and `,` here).
