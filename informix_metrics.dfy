/** The three Informix collection routines as tables of metric writes: which
    metric each routine sets, from which collection id, in which order, and which
    exceptions each routine swallows. */
module InformixMetrics {
  import opened Wrappers
  import opened MetricSink
  import opened InformixConfig

  /** The metrics the routines set; a collection id is named by the metric it
      normally feeds. */
  datatype Metric =
    | TablespaceSize | TablespaceUsed | TablespaceUtilization | TablespaceMax
    | SqlCount | SqlRate | TransactionCount | TransactionRate | SqlElapsedTime
    | Status | InstanceCount | InstanceActiveCount | SessionCount | SessionActiveCount
    | IoReadRate | IoWriteRate | MemUtilization

  /** What `collectMetrics` returns: a number, the rows of a query, or null. */
  datatype Sample = Number(n: int) | Rows(rows: seq<seq<string>>) | Null

  /** An exception thrown while a value is collected. */
  datatype Failure = SqlFailure | OtherFailure

  /** Where a routine takes a metric's value from. */
  datatype Source = Fixed(value: int) | Collected(id: Metric)

  /** The writes of each routine, in the order the source performs them. The
      transaction rate is fed from a second collection under the transaction-count
      id. */
  function Steps(tier: Tier): seq<(Metric, Source)>
  {
    match tier
    case LongPolling =>
      [(TablespaceSize, Collected(TablespaceSize)), (TablespaceUsed, Collected(TablespaceUsed)),
       (TablespaceUtilization, Collected(TablespaceUtilization)), (TablespaceMax, Collected(TablespaceMax))]
    case MediumPolling =>
      [(SqlCount, Collected(SqlCount)), (SqlRate, Collected(SqlRate)),
       (TransactionCount, Collected(TransactionCount)), (TransactionRate, Collected(TransactionCount)),
       (SqlElapsedTime, Collected(SqlElapsedTime))]
    case ShortPolling =>
      [(Status, Fixed(1)), (InstanceCount, Collected(InstanceCount)),
       (InstanceActiveCount, Collected(InstanceActiveCount)), (SessionCount, Collected(SessionCount)),
       (SessionActiveCount, Collected(SessionActiveCount)), (IoReadRate, Collected(IoReadRate)),
       (IoWriteRate, Collected(IoWriteRate)), (MemUtilization, Collected(MemUtilization))]
  }

  /** One call of `collectMetrics` in a routine: the routine, the position of the
      write it feeds, and the collection id it asks for. */
  datatype Call = Call(tier: Tier, index: nat, id: Metric)

  /** What the collection strategy answers to each call. Every call runs its own
      query or command, so two calls under the same id may answer differently. */
  type Collector = Call -> Result<Sample, Failure>

  /** The value write `i` of a routine stores: a fixed value, or the answer to the
      call made for that write. */
  function Value(tier: Tier, i: nat, collect: Collector): Result<Sample, Failure>
    requires i < |Steps(tier)|
  {
    match Steps(tier)[i].1
    case Fixed(n) => Ok(Number(n))
    case Collected(id) => collect(Call(tier, i, id))
  }

  function Writes(tier: Tier, collect: Collector): (ws: seq<(Metric, Result<Sample, Failure>)>)
    ensures |ws| == |Steps(tier)|
    ensures forall i :: 0 <= i < |ws| ==> ws[i] == (Steps(tier)[i].0, Value(tier, i, collect))
  {
    seq(|Steps(tier)|, i requires 0 <= i < |Steps(tier)| => (Steps(tier)[i].0, Value(tier, i, collect)))
  }

  /** Whether a routine's `catch` swallows the failure: the short routine catches
      every exception, the other two only `SQLException`. */
  predicate Catches(tier: Tier, f: Failure)
  {
    tier == ShortPolling || f == SqlFailure
  }

  /** One run of a routine on the registry: no connection means nothing is written
      (the `SQLException` is caught); otherwise the writes are performed until one
      fails. Returns the new registry and the exception that escapes the routine. */
  function RunTier(reg: map<Metric, Sample>, tier: Tier, connected: bool,
                   collect: Collector): (r: (map<Metric, Sample>, Option<Failure>))
  {
    if !connected then (reg, None)
    else
      var (reg', thrown) := Apply(reg, Writes(tier, collect));
      (reg', if thrown.Some? && !Catches(tier, thrown.value) then thrown else None)
  }

  /** `getallMetrics()`: long, then medium, then short, each with its own connection;
      an exception escaping one routine skips the rest. */
  function AllMetrics(reg: map<Metric, Sample>, connects: Tier -> bool,
                      collect: Collector): (r: (map<Metric, Sample>, Option<Failure>))
  {
    var long := RunTier(reg, LongPolling, connects(LongPolling), collect);
    if long.1.Some? then long
    else
      var medium := RunTier(long.0, MediumPolling, connects(MediumPolling), collect);
      if medium.1.Some? then medium
      else RunTier(medium.0, ShortPolling, connects(ShortPolling), collect)
  }

  // ---------------------------------------------------------------------------
  // Properties
  // ---------------------------------------------------------------------------

  /** The routine that writes a metric. */
  function TierOf(m: Metric): Tier
  {
    match m
    case TablespaceSize | TablespaceUsed | TablespaceUtilization | TablespaceMax => LongPolling
    case SqlCount | SqlRate | TransactionCount | TransactionRate | SqlElapsedTime => MediumPolling
    case _ => ShortPolling
  }

  /** Where in its routine a metric is written: every metric is written by some
      routine. */
  function Position(m: Metric): (i: nat)
    ensures i < |Steps(TierOf(m))| && Steps(TierOf(m))[i].0 == m
  {
    match m
    case TablespaceSize => 0
    case TablespaceUsed => 1
    case TablespaceUtilization => 2
    case TablespaceMax => 3
    case SqlCount => 0
    case SqlRate => 1
    case TransactionCount => 2
    case TransactionRate => 3
    case SqlElapsedTime => 4
    case Status => 0
    case InstanceCount => 1
    case InstanceActiveCount => 2
    case SessionCount => 3
    case SessionActiveCount => 4
    case IoReadRate => 5
    case IoWriteRate => 6
    case MemUtilization => 7
  }

  /** A routine writes only its own metrics, so no metric is written by two
      routines. */
  lemma StepsOwnMetrics(tier: Tier, i: nat)
    requires i < |Steps(tier)|
    ensures TierOf(Steps(tier)[i].0) == tier
  {
  }

  /** A routine writes no metric of another routine. */
  lemma NotTargeted(tier: Tier, collect: Collector, m: Metric)
    requires TierOf(m) != tier
    ensures !Targets(Writes(tier, collect), m)
  {
    var ws := Writes(tier, collect);
    forall i | 0 <= i < |ws| ensures ws[i].0 != m {
      StepsOwnMetrics(tier, i);
    }
  }

  /** Each routine writes each of its metrics once. */
  lemma StepsDistinct(tier: Tier, collect: Collector)
    ensures DistinctTargets(Writes(tier, collect))
  {
  }

  /** When the connection opens and every value is collected, each metric of the
      routine holds the value of its source, and nothing escapes. */
  lemma RunTierRoutes(reg: map<Metric, Sample>, tier: Tier, collect: Collector, i: nat)
    requires i < |Steps(tier)|
    requires forall j :: 0 <= j < |Steps(tier)| ==> Value(tier, j, collect).Ok?
    ensures RunTier(reg, tier, true, collect).1 == None
    ensures Steps(tier)[i].0 in RunTier(reg, tier, true, collect).0
    ensures RunTier(reg, tier, true, collect).0[Steps(tier)[i].0] == Value(tier, i, collect).value
  {
    var ws := Writes(tier, collect);
    StepsDistinct(tier, collect);
    ApplyOutcome(reg, ws);
    ApplyStoresEach(reg, ws, i);
  }

  /** The transaction count and the transaction rate both ask for the
      transaction-count id, in two calls of their own: after a clean medium run
      each holds the answer to its own call. */
  lemma TransactionRateOwnCall(reg: map<Metric, Sample>, collect: Collector)
    requires forall j :: 0 <= j < |Steps(MediumPolling)| ==> Value(MediumPolling, j, collect).Ok?
    ensures Steps(MediumPolling)[2] == (TransactionCount, Collected(TransactionCount))
    ensures Steps(MediumPolling)[3] == (TransactionRate, Collected(TransactionCount))
    ensures Value(MediumPolling, 2, collect) == collect(Call(MediumPolling, 2, TransactionCount))
    ensures Value(MediumPolling, 3, collect) == collect(Call(MediumPolling, 3, TransactionCount))
    ensures var r := RunTier(reg, MediumPolling, true, collect).0;
      TransactionCount in r && r[TransactionCount] == collect(Call(MediumPolling, 2, TransactionCount)).value &&
      TransactionRate in r && r[TransactionRate] == collect(Call(MediumPolling, 3, TransactionCount)).value
  {
    RunTierRoutes(reg, MediumPolling, collect, 2);
    RunTierRoutes(reg, MediumPolling, collect, 3);
  }

  /** When the count's call succeeds and the rate's own call then fails, the count
      is stored, the rate and the elapsed time keep their old values, and the
      failure escapes unless it is an `SQLException`. */
  lemma TransactionRateFailureKeepsCount(reg: map<Metric, Sample>, collect: Collector, m: Metric)
    requires forall j :: 0 <= j < 3 ==> Value(MediumPolling, j, collect).Ok?
    requires collect(Call(MediumPolling, 3, TransactionCount)).Err?
    requires m == TransactionRate || m == SqlElapsedTime
    ensures Value(MediumPolling, 2, collect) == collect(Call(MediumPolling, 2, TransactionCount))
    ensures var (r, escaped) := RunTier(reg, MediumPolling, true, collect);
      var f := collect(Call(MediumPolling, 3, TransactionCount)).error;
      TransactionCount in r && r[TransactionCount] == collect(Call(MediumPolling, 2, TransactionCount)).value &&
      (m in r <==> m in reg) && (m in reg ==> r[m] == reg[m]) &&
      escaped == (if f == SqlFailure then None else Some(f))
  {
    var ws := Writes(MediumPolling, collect);
    RunTierEscapes(reg, MediumPolling, collect, 3);
    var done := ws[..3];
    assert DistinctTargets(done);
    ApplyStoresEach(reg, done, 2);
    assert !Targets(done, m);
    ApplyLeavesOthers(reg, done, m);
  }

  /** Without a connection a routine writes nothing and lets nothing escape. */
  lemma NoConnectionNoChange(reg: map<Metric, Sample>, tier: Tier, collect: Collector)
    ensures RunTier(reg, tier, false, collect) == (reg, None)
  {
  }

  /** The short routine never lets an exception escape; the other two let escape
      exactly the failures that are not `SQLException`s, after the writes before
      the failing one. */
  lemma RunTierEscapes(reg: map<Metric, Sample>, tier: Tier, collect: Collector, i: nat)
    requires i < |Steps(tier)| && Value(tier, i, collect).Err?
    requires forall j :: 0 <= j < i ==> Value(tier, j, collect).Ok?
    ensures var f := Value(tier, i, collect).error;
      RunTier(reg, tier, true, collect) ==
        (Apply(reg, Writes(tier, collect)[..i]).0, if tier == ShortPolling || f == SqlFailure then None else Some(f))
  {
    ApplyStopsAtFailure(reg, Writes(tier, collect), i);
  }

  /** A metric no routine of a run writes keeps its value: a failure in the long
      routine that escapes leaves the medium and short metrics as they were. */
  lemma EscapeSkipsLaterTiers(reg: map<Metric, Sample>, connects: Tier -> bool,
                              collect: Collector, m: Metric)
    requires RunTier(reg, LongPolling, connects(LongPolling), collect).1.Some?
    requires TierOf(m) != LongPolling
    ensures AllMetrics(reg, connects, collect).1.Some?
    ensures m in AllMetrics(reg, connects, collect).0 <==> m in reg
    ensures m in reg ==> AllMetrics(reg, connects, collect).0[m] == reg[m]
  {
    NotTargeted(LongPolling, collect, m);
    ApplyLeavesOthers(reg, Writes(LongPolling, collect), m);
  }

  /** When every connection opens and every value is collected, one run of
      `getallMetrics()` sets every metric, each from its own source. */
  lemma AllMetricsSetsEverything(reg: map<Metric, Sample>, connects: Tier -> bool,
                                 collect: Collector, tier: Tier, i: nat)
    requires forall t :: connects(t)
    requires forall c :: collect(c).Ok?
    requires i < |Steps(tier)|
    ensures AllMetrics(reg, connects, collect).1 == None
    ensures Steps(tier)[i].0 in AllMetrics(reg, connects, collect).0
    ensures AllMetrics(reg, connects, collect).0[Steps(tier)[i].0] == Value(tier, i, collect).value
  {
    var m := Steps(tier)[i].0;
    StepsOwnMetrics(tier, i);
    var r1 := RunTier(reg, LongPolling, true, collect).0;
    var r2 := RunTier(r1, MediumPolling, true, collect).0;
    RunTierRoutes(reg, LongPolling, collect, 0);
    RunTierRoutes(r1, MediumPolling, collect, 0);
    RunTierRoutes(r2, ShortPolling, collect, 0);
    match tier
    case LongPolling =>
      RunTierRoutes(reg, LongPolling, collect, i);
      LaterTierKeeps(r1, MediumPolling, collect, m);
      LaterTierKeeps(r2, ShortPolling, collect, m);
    case MediumPolling =>
      RunTierRoutes(r1, MediumPolling, collect, i);
      LaterTierKeeps(r2, ShortPolling, collect, m);
    case ShortPolling =>
      RunTierRoutes(r2, ShortPolling, collect, i);
  }

  /** A routine leaves the metrics it does not write as they were. */
  lemma LaterTierKeeps(reg: map<Metric, Sample>, tier: Tier, collect: Collector, m: Metric)
    requires TierOf(m) != tier
    ensures m in RunTier(reg, tier, true, collect).0 <==> m in reg
    ensures m in reg ==> RunTier(reg, tier, true, collect).0[m] == reg[m]
  {
    NotTargeted(tier, collect, m);
    ApplyLeavesOthers(reg, Writes(tier, collect), m);
  }
}
