/** The Informix data collector as an object: the quoted database-name list it
    builds, the custom polling tasks it schedules, whether it starts the default
    scheduler, and the metric registry its three collection routines write. Each
    method is proved against the value-level definitions of InformixConfig and
    InformixMetrics. */
module InformixDc {
  import opened Wrappers
  import opened JavaInt
  import opened JavaString
  import opened MetricSink
  import opened InformixConfig
  import opened InformixMetrics

  /** The task the default scheduler runs: `collectData` every `pollInterval` seconds
      after one second, or the exception `scheduleWithFixedDelay` throws. */
  function DefaultTask(pollInterval: int): (r: Result<Task, ConfigError>)
    ensures pollInterval <= 0 <==> r.Err?
    ensures r.Ok? ==> r.value.routine == DefaultCollect && r.value.period == pollInterval
  {
    if pollInterval <= 0 then Err(NonPositivePeriod(pollInterval))
    else Ok(Task(DefaultCollect, 1, pollInterval))
  }

  /** Every task scheduled between construction and `start()`, for the custom-interval
      map `customEntries` (its entries in iteration order), and the exception that
      ends construction or `start()`, if any. */
  function StartupSchedule(customEntries: Option<seq<(string, ConfigValue)>>, pollInterval: int): (r: (seq<Task>, Option<ConfigError>))
  {
    if customEntries.None? || customEntries.value == [] then
      match DefaultTask(pollInterval)
      case Ok(task) => ([task], None)
      case Err(e) => ([], Some(e))
    else PlanSchedule(customEntries.value)
  }

  /** The default scheduler runs exactly when no custom interval is configured, and
      custom and default scheduling never both happen. */
  lemma StartupScheduleExclusive(customEntries: Option<seq<(string, ConfigValue)>>, pollInterval: int)
    ensures var r := StartupSchedule(customEntries, pollInterval);
      (customEntries.None? || customEntries.value == []) && pollInterval > 0 <==>
        r.0 == [Task(DefaultCollect, 1, pollInterval)]
    ensures customEntries.Some? && customEntries.value != [] ==>
      forall i :: 0 <= i < |StartupSchedule(customEntries, pollInterval).0| ==>
        StartupSchedule(customEntries, pollInterval).0[i].routine.TierRoutine?
  {
    if customEntries.Some? && customEntries.value != [] {
      PlanScheduleTierRoutines(customEntries.value);
      var r := StartupSchedule(customEntries, pollInterval);
      assert r.0 != [] ==> r.0[0].routine.TierRoutine?;
    }
  }

  /** Construction followed by `start()`: the constructor calls
      `parseCustomAttributes` and then `parseCustomPollRate`, and `start()` is called
      on the object once it exists; an exception from the constructor means `start()`
      never runs. The tasks then scheduled, and the exception, are `StartupSchedule`'s
      once the database names are read. */
  method ConstructAndStart(customInput: Option<map<string, ConfigValue>>, customEntries: Option<seq<(string, ConfigValue)>>,
                           pollInterval: int)
    returns (dc: InformixDc, err: Option<ConfigError>)
    ensures ParseDbNames(customInput).Err? ==>
      dc.customTasks + dc.defaultTasks == [] && err == Some(ParseDbNames(customInput).error)
    ensures ParseDbNames(customInput).Ok? ==>
      (dc.customTasks + dc.defaultTasks, err) == StartupSchedule(customEntries, pollInterval)
  {
    dc := new InformixDc(pollInterval);
    err := dc.ParseCustomAttributes(customInput);
    if err.Some? {
      return;
    }
    err := dc.ParseCustomPollRate(customEntries);
    if err.Some? {
      assert dc.customTasks == [] + PlanSchedule(customEntries.value).0 == StartupSchedule(customEntries, pollInterval).0;
      assert dc.customTasks + dc.defaultTasks == dc.customTasks;
      return;
    }
    err := dc.Start();
    if customEntries.None? || customEntries.value == [] {
      assert dc.customTasks == [];
      assert StartupSchedule(customEntries, pollInterval).1 == err;
      assert StartupSchedule(customEntries, pollInterval).0 == dc.defaultTasks == dc.customTasks + dc.defaultTasks;
    } else {
      assert dc.defaultTasks == [];
      assert StartupSchedule(customEntries, pollInterval).1 == err;
      assert StartupSchedule(customEntries, pollInterval).0 == dc.customTasks == dc.customTasks + dc.defaultTasks;
    }
  }

  /** The custom plan schedules only tier routines. */
  lemma {:induction false} PlanScheduleTierRoutines(entries: seq<(string, ConfigValue)>)
    ensures forall i :: 0 <= i < |PlanSchedule(entries).0| ==> PlanSchedule(entries).0[i].routine.TierRoutine?
    decreases |entries|
  {
    if entries != [] {
      PlanScheduleTierRoutines(entries[1..]);
    }
  }

  /** One turn of the loop over the custom-interval entries, from entry `i` on. */
  lemma PlanScheduleFrom(entries: seq<(string, ConfigValue)>, i: nat)
    requires i < |entries|
    ensures EntryTask(entries[i]).Err? ==> PlanSchedule(entries[i..]) == ([], Some(EntryTask(entries[i]).error))
    ensures EntryTask(entries[i]).Ok? ==>
      PlanSchedule(entries[i..]) == ([EntryTask(entries[i]).value] + PlanSchedule(entries[i + 1..]).0, PlanSchedule(entries[i + 1..]).1)
  {
    assert entries[i..][0] == entries[i] && entries[i..][1..] == entries[i + 1..];
  }

  class InformixDc {
    var customPollRateEnabled: bool
    /** The quoted list spliced into the four tablespace queries. */
    var dbNameList: string
    /** Tasks given to the custom three-thread scheduler, in scheduling order. */
    var customTasks: seq<Task>
    /** Tasks given to the default scheduler by `start()`. */
    var defaultTasks: seq<Task>
    /** The raw metrics and the value each was last set to. */
    const registry: Registry<Metric, Sample>
    const pollInterval: int

    constructor (pollInterval: int)
      ensures this.pollInterval == pollInterval
      ensures customPollRateEnabled && dbNameList == [] && customTasks == [] && defaultTasks == []
      ensures fresh(registry) && registry.metrics == map[]
    {
      this.pollInterval := pollInterval;
      customPollRateEnabled := true;
      dbNameList := [];
      customTasks := [];
      defaultTasks := [];
      registry := new Registry();
    }

    /** The `StringBuilder` loop: the first name quoted, then each later name trimmed,
        quoted and preceded by a comma. */
    static method BuildDbNameList(dbNames: seq<string>) returns (sb: string)
      requires 1 <= |dbNames|
      ensures sb == Join(Entries(dbNames), ',')
    {
      sb := Quote(dbNames[0]);
      for i := 1 to |dbNames|
        invariant sb == DbNameList(dbNames[..i])
      {
        assert dbNames[..i + 1][..i] == dbNames[..i];
        sb := sb + [','] + Quote(Trim(dbNames[i]));
      }
      assert dbNames[..|dbNames|] == dbNames;
      DbNameListIsJoin(dbNames);
    }

    /** `parseCustomAttributes(properties)`, with `properties.get("custom.input")` as
        `customInput`; an exception leaves the list as it was. */
    method ParseCustomAttributes(customInput: Option<map<string, ConfigValue>>) returns (err: Option<ConfigError>)
      modifies this
      ensures ParseDbNames(customInput).Err? ==> err == Some(ParseDbNames(customInput).error) && dbNameList == old(dbNameList)
      ensures ParseDbNames(customInput).Ok? ==> err == None && dbNameList == Join(Entries(ParseDbNames(customInput).value), ',')
      ensures customPollRateEnabled == old(customPollRateEnabled) && customTasks == old(customTasks)
      ensures defaultTasks == old(defaultTasks)
    {
      var dbNames := ParseDbNames(customInput);
      if dbNames.Err? {
        return Some(dbNames.error);
      }
      dbNameList := BuildDbNameList(dbNames.value);
      err := None;
    }

    /** `scheduleCustomPollRate(pollInterval, intervalType)`: the tier's routine
        every `period` seconds after one second. */
    method ScheduleCustomPollRate(period: Int32, t: IntervalType) returns (err: Option<ConfigError>)
      modifies this
      ensures CustomTask(period, t).Ok? ==> err == None && customTasks == old(customTasks) + [CustomTask(period, t).value]
      ensures CustomTask(period, t).Err? ==> err == Some(CustomTask(period, t).error) && customTasks == old(customTasks)
      ensures customPollRateEnabled == old(customPollRateEnabled) && dbNameList == old(dbNameList)
      ensures defaultTasks == old(defaultTasks)
    {
      if period <= 0 {
        return Some(NonPositivePeriod(period));
      }
      err := None;
      match t
      case High => customTasks := customTasks + [Task(TierRoutine(LongPolling), 1, period)];
      case Medium => customTasks := customTasks + [Task(TierRoutine(MediumPolling), 1, period)];
      case Low => customTasks := customTasks + [Task(TierRoutine(ShortPolling), 1, period)];
    }

    /** `parseCustomPollRate(properties)`, with the "custom.poll.interval" map given
        as its entries in iteration order: no map or an empty one disables custom
        polling; otherwise every entry is scheduled until one throws. */
    method ParseCustomPollRate(customEntries: Option<seq<(string, ConfigValue)>>) returns (err: Option<ConfigError>)
      modifies this
      ensures customEntries.None? || customEntries.value == [] ==>
        !customPollRateEnabled && customTasks == old(customTasks) && err == None
      ensures customEntries.Some? && customEntries.value != [] ==>
        customPollRateEnabled == old(customPollRateEnabled) &&
        customTasks == old(customTasks) + PlanSchedule(customEntries.value).0 &&
        err == PlanSchedule(customEntries.value).1
      ensures dbNameList == old(dbNameList) && defaultTasks == old(defaultTasks)
    {
      if customEntries.None? || customEntries.value == [] {
        customPollRateEnabled := false;
        return None;
      }
      var entries := customEntries.value;
      var i := 0;
      while i < |entries|
        invariant 0 <= i <= |entries|
        invariant customTasks + PlanSchedule(entries[i..]).0 == old(customTasks) + PlanSchedule(entries).0
        invariant PlanSchedule(entries[i..]).1 == PlanSchedule(entries).1
        invariant customPollRateEnabled == old(customPollRateEnabled) && dbNameList == old(dbNameList)
        invariant defaultTasks == old(defaultTasks)
      {
        PlanScheduleFrom(entries, i);
        ghost var before, rest := customTasks, PlanSchedule(entries[i + 1..]).0;
        err := ScheduleEntry(entries[i]);
        if err.Some? {
          return;
        }
        assert customTasks + rest == before + ([EntryTask(entries[i]).value] + rest);
        i := i + 1;
      }
      assert entries[i..] == [];
      err := None;
    }

    /** One turn of the loop in `parseCustomPollRate`: look up the tier named by
        `entry`, cast its value to `int` and schedule the tier with that period. */
    method ScheduleEntry(entry: (string, ConfigValue)) returns (err: Option<ConfigError>)
      modifies this
      ensures EntryTask(entry).Ok? ==> err == None && customTasks == old(customTasks) + [EntryTask(entry).value]
      ensures EntryTask(entry).Err? ==> err == Some(EntryTask(entry).error) && customTasks == old(customTasks)
      ensures customPollRateEnabled == old(customPollRateEnabled) && dbNameList == old(dbNameList)
      ensures defaultTasks == old(defaultTasks)
    {
      var t := GetPollingInterval(entry.0);
      var period := CastToInt(entry.0, entry.1);
      if period.Err? {
        return Some(period.error);
      }
      if t.None? {
        // the switch on a null tier throws
        return Some(InvalidIntervalName(entry.0));
      }
      err := ScheduleCustomPollRate(period.value, t.value);
    }

    /** `start()`: the default scheduler is started only when custom polling is
        disabled. */
    method Start() returns (err: Option<ConfigError>)
      modifies this
      ensures customPollRateEnabled ==> defaultTasks == old(defaultTasks) && err == None
      ensures !customPollRateEnabled && DefaultTask(pollInterval).Ok? ==>
        defaultTasks == old(defaultTasks) + [DefaultTask(pollInterval).value] && err == None
      ensures !customPollRateEnabled && DefaultTask(pollInterval).Err? ==>
        defaultTasks == old(defaultTasks) && err == Some(DefaultTask(pollInterval).error)
      ensures customPollRateEnabled == old(customPollRateEnabled) && dbNameList == old(dbNameList)
      ensures customTasks == old(customTasks)
    {
      if customPollRateEnabled {
        return None;
      }
      if pollInterval <= 0 {
        return Some(NonPositivePeriod(pollInterval));
      }
      defaultTasks := defaultTasks + [Task(DefaultCollect, 1, pollInterval)];
      err := None;
    }

    /** What escapes a routine when computing a value threw `f`. */
    static function Escape(tier: Tier, f: Failure): (r: Option<Failure>)
      ensures r.None? <==> Catches(tier, f)
      ensures r.Some? ==> r.value == f
    {
      if Catches(tier, f) then None else Some(f)
    }

    /** `longPollingInterval()`: the four tablespace metrics. */
    method LongPollingInterval(connected: bool, collect: Collector) returns (escaped: Option<Failure>)
      modifies registry
      ensures (registry.metrics, escaped) == RunTier(old(registry.metrics), LongPolling, connected, collect)
    {
      if !connected {
        return None;
      }
      ghost var ws := Writes(LongPolling, collect);
      assert ws[0..] == ws;
      var thrown := registry.SetValue(TablespaceSize, collect(Call(LongPolling, 0, TablespaceSize)), ws, 0);
      if thrown.Some? {
        return Escape(LongPolling, thrown.value);
      }
      thrown := registry.SetValue(TablespaceUsed, collect(Call(LongPolling, 1, TablespaceUsed)), ws, 1);
      if thrown.Some? {
        return Escape(LongPolling, thrown.value);
      }
      thrown := registry.SetValue(TablespaceUtilization, collect(Call(LongPolling, 2, TablespaceUtilization)), ws, 2);
      if thrown.Some? {
        return Escape(LongPolling, thrown.value);
      }
      thrown := registry.SetValue(TablespaceMax, collect(Call(LongPolling, 3, TablespaceMax)), ws, 3);
      escaped := if thrown.Some? then Escape(LongPolling, thrown.value) else None;
    }

    /** `mediumPollingInterval()`: the statement and transaction metrics; the
        transaction rate is collected again under the transaction-count id. */
    method MediumPollingInterval(connected: bool, collect: Collector) returns (escaped: Option<Failure>)
      modifies registry
      ensures (registry.metrics, escaped) == RunTier(old(registry.metrics), MediumPolling, connected, collect)
    {
      if !connected {
        return None;
      }
      ghost var ws := Writes(MediumPolling, collect);
      assert ws[0..] == ws;
      var thrown := registry.SetValue(SqlCount, collect(Call(MediumPolling, 0, SqlCount)), ws, 0);
      if thrown.Some? {
        return Escape(MediumPolling, thrown.value);
      }
      thrown := registry.SetValue(SqlRate, collect(Call(MediumPolling, 1, SqlRate)), ws, 1);
      if thrown.Some? {
        return Escape(MediumPolling, thrown.value);
      }
      thrown := registry.SetValue(TransactionCount, collect(Call(MediumPolling, 2, TransactionCount)), ws, 2);
      if thrown.Some? {
        return Escape(MediumPolling, thrown.value);
      }
      thrown := registry.SetValue(TransactionRate, collect(Call(MediumPolling, 3, TransactionCount)), ws, 3);
      if thrown.Some? {
        return Escape(MediumPolling, thrown.value);
      }
      thrown := registry.SetValue(SqlElapsedTime, collect(Call(MediumPolling, 4, SqlElapsedTime)), ws, 4);
      escaped := if thrown.Some? then Escape(MediumPolling, thrown.value) else None;
    }

    /** `shortPollingInterval()`: the status, instance, session, I/O and memory
        metrics; every exception is caught. */
    method ShortPollingInterval(connected: bool, collect: Collector) returns (escaped: Option<Failure>)
      modifies registry
      ensures (registry.metrics, escaped) == RunTier(old(registry.metrics), ShortPolling, connected, collect)
    {
      if !connected {
        return None;
      }
      ghost var ws := Writes(ShortPolling, collect);
      assert ws[0..] == ws;
      var thrown := registry.SetValue(Status, Ok(Number(1)), ws, 0);
      thrown := SetInstanceAndSessionMetrics(collect, ws);
      if thrown.Some? {
        return None;
      }
      thrown := registry.SetValue(IoReadRate, collect(Call(ShortPolling, 5, IoReadRate)), ws, 5);
      if thrown.Some? {
        return None;
      }
      thrown := registry.SetValue(IoWriteRate, collect(Call(ShortPolling, 6, IoWriteRate)), ws, 6);
      if thrown.Some? {
        return None;
      }
      thrown := registry.SetValue(MemUtilization, collect(Call(ShortPolling, 7, MemUtilization)), ws, 7);
      // the catch swallows every exception
      escaped := None;
    }

    /** The instance and session writes of `shortPollingInterval()`, the second to
        the fifth of its writes. */
    method SetInstanceAndSessionMetrics(collect: Collector, ghost ws: seq<(Metric, Result<Sample, Failure>)>)
      returns (thrown: Option<Failure>)
      requires ws == Writes(ShortPolling, collect)
      modifies registry
      ensures thrown.None? ==> Apply(old(registry.metrics), ws[1..]) == Apply(registry.metrics, ws[5..])
      ensures thrown.Some? ==> Apply(old(registry.metrics), ws[1..]) == (registry.metrics, thrown)
    {
      thrown := registry.SetValue(InstanceCount, collect(Call(ShortPolling, 1, InstanceCount)), ws, 1);
      if thrown.Some? {
        return;
      }
      thrown := registry.SetValue(InstanceActiveCount, collect(Call(ShortPolling, 2, InstanceActiveCount)), ws, 2);
      if thrown.Some? {
        return;
      }
      thrown := registry.SetValue(SessionCount, collect(Call(ShortPolling, 3, SessionCount)), ws, 3);
      if thrown.Some? {
        return;
      }
      thrown := registry.SetValue(SessionActiveCount, collect(Call(ShortPolling, 4, SessionActiveCount)), ws, 4);
    }

    /** `getallMetrics()`: long, then medium, then short; an exception escaping one
        routine ends the sequence. */
    method GetAllMetrics(connects: Tier -> bool, collect: Collector) returns (escaped: Option<Failure>)
      modifies registry
      ensures (registry.metrics, escaped) == AllMetrics(old(registry.metrics), connects, collect)
    {
      escaped := LongPollingInterval(connects(LongPolling), collect);
      if escaped.Some? {
        return;
      }
      escaped := MediumPollingInterval(connects(MediumPolling), collect);
      if escaped.Some? {
        return;
      }
      escaped := ShortPollingInterval(connects(ShortPolling), collect);
    }

    /** `collectData()`: one run of all three routines. */
    method CollectData(connects: Tier -> bool, collect: Collector) returns (escaped: Option<Failure>)
      modifies registry
      ensures (registry.metrics, escaped) == AllMetrics(old(registry.metrics), connects, collect)
    {
      escaped := GetAllMetrics(connects, collect);
    }
  }
}
