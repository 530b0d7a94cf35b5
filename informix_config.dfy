/** The configuration logic of the Informix data collector that computes values:
    the quoted list of database names spliced into the tablespace queries, the
    case-insensitive lookup of a polling tier by name, and the plan of periodic tasks
    a custom polling configuration schedules. */
module InformixConfig {
  import opened Wrappers
  import opened JavaInt
  import opened JavaString

  /** A value of the properties map, which Java holds as an `Object`: an `Integer`,
      a `String`, null, or an object of any other class (a `Long`, a `List`, ...). */
  datatype ConfigValue = IntegerValue(n: Int32) | StringValue(s: string) | NullValue | OtherValue

  /** Why reading the configuration fails (each is an exception the constructor
      lets escape). */
  datatype ConfigError =
    | MissingCustomInput                  // no "custom.input" map: NullPointerException
    | MissingDbNames                      // "db.names" absent or null: NullPointerException
    | DbNamesNotString(v: ConfigValue)    // the `(String)` cast: ClassCastException
    | NoDbNames                           // `split` gave no piece: ArrayIndexOutOfBoundsException
    | NullPeriod(name: string)            // the `(int)` cast unboxing null: NullPointerException
    | PeriodNotInteger(v: ConfigValue)    // the `(int)` cast: ClassCastException
    | InvalidIntervalName(name: string)   // the switch on a null tier: NullPointerException
    | NonPositivePeriod(period: int)      // scheduleWithFixedDelay: IllegalArgumentException

  // ---------------------------------------------------------------------------
  // The quoted database-name list
  // ---------------------------------------------------------------------------

  function Quote(s: string): (r: string)
    ensures |r| == |s| + 2 && r[0] == '\'' && r[|r| - 1] == '\'' && r[1..|r| - 1] == s
  {
    ['\''] + s + ['\'']
  }

  /** The entry each name contributes: the first name quoted as it is, every later
      name trimmed and quoted. */
  function Entry(names: seq<string>, i: nat): string
    requires i < |names|
  {
    if i == 0 then Quote(names[0]) else Quote(Trim(names[i]))
  }

  function Entries(names: seq<string>): (es: seq<string>)
    ensures |es| == |names|
    ensures forall i :: 0 <= i < |names| ==> es[i] == Entry(names, i)
  {
    seq(|names|, i requires 0 <= i < |names| => Entry(names, i))
  }

  /** The list as the `StringBuilder` holds it after reading `names[..|names|]`. */
  function DbNameList(names: seq<string>): string
    requires 1 <= |names|
  {
    if |names| == 1 then Quote(names[0])
    else DbNameList(names[..|names| - 1]) + [','] + Quote(Trim(names[|names| - 1]))
  }

  lemma EntriesSnoc(names: seq<string>)
    requires 1 < |names|
    ensures Entries(names) == Entries(names[..|names| - 1]) + [Quote(Trim(names[|names| - 1]))]
  {
    var pre := names[..|names| - 1];
    var es, both := Entries(names), Entries(pre) + [Quote(Trim(names[|names| - 1]))];
    forall i | 0 <= i < |es| ensures es[i] == both[i] {
      if i < |pre| {
        assert names[i] == pre[i];
      }
    }
  }

  /** The list is the entries joined by commas. */
  lemma {:induction false} DbNameListIsJoin(names: seq<string>)
    requires 1 <= |names|
    ensures DbNameList(names) == Join(Entries(names), ',')
    decreases |names|
  {
    if |names| > 1 {
      var pre := names[..|names| - 1];
      DbNameListIsJoin(pre);
      var last := Quote(Trim(names[|names| - 1]));
      EntriesSnoc(names);
      JoinAppend(Entries(pre), ',', last);
    }
  }

  /** Names without commas give one quoted entry per name: splitting the list on
      commas gives back exactly the entries. */
  lemma DbNameListPieces(names: seq<string>)
    requires 1 <= |names|
    requires forall i :: 0 <= i < |names| ==> ',' !in names[i]
    ensures Pieces(DbNameList(names), ',') == Entries(names)
  {
    DbNameListIsJoin(names);
    var es := Entries(names);
    forall i | 0 <= i < |es| ensures ',' !in es[i] {
      EntryCommaFree(names, i);
    }
    PiecesOfJoin(es, ',');
  }

  /** A name without commas gives an entry without commas. */
  lemma EntryCommaFree(names: seq<string>, i: nat)
    requires i < |names| && ',' !in names[i]
    ensures ',' !in Entry(names, i)
  {
    var n := if i == 0 then names[0] else Trim(names[i]);
    assert ',' !in n;
    assert Entry(names, i) == ['\''] + n + ['\''];
  }

  /** Whether `customInput.get("db.names")` is null: the key is absent or holds null. */
  predicate DbNamesNull(customInput: map<string, ConfigValue>)
  {
    "db.names" !in customInput || customInput["db.names"] == NullValue
  }

  /** `((String) customInput.get("db.names")).split(",")` for the "custom.input" map,
      or the exception reading it throws. */
  function ParseDbNames(customInput: Option<map<string, ConfigValue>>): (r: Result<seq<string>, ConfigError>)
    ensures r.Ok? ==> 1 <= |r.value| && forall i :: 0 <= i < |r.value| ==> ',' !in r.value[i]
    ensures r.Ok? ==> customInput.Some? && "db.names" in customInput.value && customInput.value["db.names"].StringValue?
    ensures r.Ok? ==>  // the names joined by commas are the value minus some trailing commas
      var v, joined := customInput.value["db.names"].s, Join(r.value, ',');
      joined <= v && forall i :: |joined| <= i < |v| ==> v[i] == ','
    ensures customInput.None? <==> r == Err(MissingCustomInput)
    ensures customInput.Some? && DbNamesNull(customInput.value) <==> r == Err(MissingDbNames)
    ensures customInput.Some? && !DbNamesNull(customInput.value) && !customInput.value["db.names"].StringValue? ==>
      r == Err(DbNamesNotString(customInput.value["db.names"]))
    ensures r.Err? && r.error.DbNamesNotString? ==>
      customInput.Some? && "db.names" in customInput.value && !customInput.value["db.names"].StringValue?
  {
    if customInput.None? then Err(MissingCustomInput)
    else if DbNamesNull(customInput.value) then Err(MissingDbNames)
    else if !customInput.value["db.names"].StringValue? then Err(DbNamesNotString(customInput.value["db.names"]))
    else
      var v := customInput.value["db.names"].s;
      var names := Split(v, ',');
      if names == [] then Err(NoDbNames)
      else
        PiecesHaveNoSeparator(v, ',');
        assert v != [] ==> names <= Pieces(v, ',');
        SplitJoin(v, ',');
        Ok(names)
  }

  /** A value of commas only has no names: reading it throws where the first name is
      taken. */
  lemma OnlyCommasNoNames(customInput: map<string, ConfigValue>, v: string)
    requires "db.names" in customInput && customInput["db.names"] == StringValue(v)
    requires v != [] && forall i :: 0 <= i < |v| ==> v[i] == ','
    ensures ParseDbNames(Some(customInput)) == Err(NoDbNames)
  {
    SplitOfSeparators(v, ',');
  }

  /** A value with a trailing comma names the same databases as without it. */
  lemma TrailingCommaIgnored(customInput: map<string, ConfigValue>, v: string)
    requires v != []
    ensures ParseDbNames(Some(customInput["db.names" := StringValue(v + [','])])) ==
      ParseDbNames(Some(customInput["db.names" := StringValue(v)]))
  {
    SplitIgnoresTrailingSeparator(v, ',');
  }

  // ---------------------------------------------------------------------------
  // Polling tiers
  // ---------------------------------------------------------------------------

  datatype IntervalType = High | Medium | Low
  {
    /** The constant's name, `name()`. */
    function Name(): (n: string)
      ensures forall i :: 0 <= i < |n| ==> IsAsciiUpper(n[i])
    {
      match this
      case High => "HIGH"
      case Medium => "MEDIUM"
      case Low => "LOW"
    }
  }

  /** `IntervalType.values()`, in declaration order. */
  const IntervalTypes: seq<IntervalType> := [High, Medium, Low]

  /** The first of `candidates` whose name equals `input` ignoring case. */
  function FindInterval(input: string, candidates: seq<IntervalType>): Option<IntervalType>
  {
    if candidates == [] then None
    else if EqualsIgnoreCase(input, candidates[0].Name()) then Some(candidates[0])
    else FindInterval(input, candidates[1..])
  }

  /** The search finds a candidate whose name matches, and finds none exactly when
      no candidate's name matches. */
  lemma {:induction false} FindIntervalMatches(input: string, candidates: seq<IntervalType>)
    ensures var r := FindInterval(input, candidates);
      r.Some? ==> r.value in candidates && EqualsIgnoreCase(input, r.value.Name())
    ensures FindInterval(input, candidates).None? <==>
      forall i :: 0 <= i < |candidates| ==> !EqualsIgnoreCase(input, candidates[i].Name())
    decreases |candidates|
  {
    if candidates != [] && !EqualsIgnoreCase(input, candidates[0].Name()) {
      var tail := candidates[1..];
      FindIntervalMatches(input, tail);
      assert forall i :: 1 <= i < |candidates| ==> candidates[i] == tail[i - 1];
    }
  }

  /** `getPollingInterval(input)`: the tier named `input` ignoring case, or null. */
  function GetPollingInterval(input: string): Option<IntervalType>
  {
    FindInterval(input, IntervalTypes)
  }

  /** The tier names have different lengths, so at most one matches, and the lookup
      finds a tier exactly when the input is its name ignoring case. */
  lemma GetPollingIntervalIff(input: string, t: IntervalType)
    ensures GetPollingInterval(input) == Some(t) <==> EqualsIgnoreCase(input, t.Name())
  {
    assert IntervalTypes[0] == High && IntervalTypes[1] == Medium && IntervalTypes[2] == Low;
    FindIntervalMatches(input, IntervalTypes);
    if EqualsIgnoreCase(input, t.Name()) {
      var r := GetPollingInterval(input);
      assert r.Some?;
      assert |r.value.Name()| == |input| == |t.Name()|;
    }
  }

  /** Every tier is found by its own name, in upper case or in lower case. */
  lemma GetPollingIntervalOfName(t: IntervalType, lower: string)
    requires |lower| == |t.Name()| && forall i :: 0 <= i < |lower| ==> lower[i] as int == t.Name()[i] as int + 32
    ensures GetPollingInterval(t.Name()) == Some(t)
    ensures GetPollingInterval(lower) == Some(t)
  {
    GetPollingIntervalIff(t.Name(), t);
    GetPollingIntervalIff(lower, t);
  }

  // ---------------------------------------------------------------------------
  // Custom polling: the tasks scheduled
  // ---------------------------------------------------------------------------

  /** The collection routines that run on a schedule. */
  datatype Tier = LongPolling | MediumPolling | ShortPolling
  datatype Routine = TierRoutine(tier: Tier) | DefaultCollect

  /** `scheduleWithFixedDelay(routine, initialDelay, period, SECONDS)`. */
  datatype Task = Task(routine: Routine, initialDelay: int, period: int)

  /** The fixed routing of `scheduleCustomPollRate`. */
  function TierFor(t: IntervalType): Tier
  {
    match t
    case High => LongPolling
    case Medium => MediumPolling
    case Low => ShortPolling
  }

  /** The task `scheduleCustomPollRate(period, t)` schedules, or why it throws. */
  function CustomTask(period: int, t: IntervalType): (r: Result<Task, ConfigError>)
    ensures period <= 0 <==> r.Err?
  {
    if period <= 0 then Err(NonPositivePeriod(period))
    else Ok(Task(TierRoutine(TierFor(t)), 1, period))
  }

  /** An entry the loop accepts: a known tier name with a positive `Integer` period. */
  predicate ValidEntry(entry: (string, ConfigValue))
  {
    GetPollingInterval(entry.0).Some? && entry.1.IntegerValue? && entry.1.n > 0
  }

  /** `(int) value`: the unboxed `Integer`, or the exception the cast throws. */
  function CastToInt(name: string, value: ConfigValue): (r: Result<Int32, ConfigError>)
    ensures r.Ok? <==> value.IntegerValue?
    ensures r.Ok? ==> r.value == value.n
    ensures value == NullValue ==> r == Err(NullPeriod(name))
    ensures !value.IntegerValue? && value != NullValue ==> r == Err(PeriodNotInteger(value))
  {
    match value
    case IntegerValue(n) => Ok(n)
    case NullValue => Err(NullPeriod(name))
    case _ => Err(PeriodNotInteger(value))
  }

  /** What one entry of the custom-interval map schedules: its tier's routine with its
      own period, or the exception its value, tier name or period causes, in that
      order. The tier is looked up first, but a null tier only throws at the switch,
      after the value is cast. */
  function EntryTask(entry: (string, ConfigValue)): (r: Result<Task, ConfigError>)
    ensures r.Ok? <==> ValidEntry(entry)
    ensures !entry.1.IntegerValue? ==> r == Err(CastToInt(entry.0, entry.1).error)
    ensures entry.1.IntegerValue? && GetPollingInterval(entry.0).None? ==> r == Err(InvalidIntervalName(entry.0))
    ensures entry.1.IntegerValue? && GetPollingInterval(entry.0).Some? && entry.1.n <= 0 ==>
      r == Err(NonPositivePeriod(entry.1.n))
    ensures r.Ok? ==> r.value == Task(TierRoutine(TierFor(GetPollingInterval(entry.0).value)), 1, entry.1.n)
  {
    var t := GetPollingInterval(entry.0);
    match CastToInt(entry.0, entry.1)
    case Err(e) => Err(e)
    case Ok(period) =>
      if t.None? then Err(InvalidIntervalName(entry.0)) else CustomTask(period, t.value)
  }

  /** The cast comes before the switch: an unknown tier name with a value that is
      not an `Integer` throws the cast's exception, not the switch's. */
  lemma CastBeforeSwitch(name: string, value: ConfigValue)
    requires GetPollingInterval(name).None? && !value.IntegerValue?
    ensures EntryTask((name, value)) == Err(if value == NullValue then NullPeriod(name) else PeriodNotInteger(value))
  {
  }

  /** The tasks the loop over the custom-interval entries schedules, in order, and the
      exception that ends it, if any. */
  function PlanSchedule(entries: seq<(string, ConfigValue)>): (r: (seq<Task>, Option<ConfigError>))
    ensures |r.0| <= |entries|
  {
    if entries == [] then ([], None)
    else match EntryTask(entries[0])
      case Err(e) => ([], Some(e))
      case Ok(task) =>
        var rest := PlanSchedule(entries[1..]);
        ([task] + rest.0, rest.1)
  }

  /** With valid entries only, every entry schedules its tier's routine with its own
      period and an initial delay of one second. */
  lemma {:induction false} PlanScheduleRoutes(entries: seq<(string, ConfigValue)>)
    requires forall i :: 0 <= i < |entries| ==> ValidEntry(entries[i])
    ensures PlanSchedule(entries).1 == None
    ensures |PlanSchedule(entries).0| == |entries|
    ensures forall i, t :: 0 <= i < |entries| && GetPollingInterval(entries[i].0) == Some(t) && entries[i].1.IntegerValue? ==>
      PlanSchedule(entries).0[i] == Task(TierRoutine(TierFor(t)), 1, entries[i].1.n)
    decreases |entries|
  {
    if entries != [] {
      var tail := entries[1..];
      assert forall i :: 0 <= i < |tail| ==> tail[i] == entries[i + 1];
      PlanScheduleRoutes(tail);
    }
  }

  /** The first invalid entry ends the loop: the entries before it stay scheduled and
      nothing after it is. */
  lemma {:induction false} PlanScheduleStops(entries: seq<(string, ConfigValue)>, i: nat)
    requires i < |entries| && !ValidEntry(entries[i])
    requires forall j :: 0 <= j < i ==> ValidEntry(entries[j])
    ensures PlanSchedule(entries).0 == PlanSchedule(entries[..i]).0
    ensures EntryTask(entries[i]).Err? && PlanSchedule(entries).1 == Some(EntryTask(entries[i]).error)
    decreases i
  {
    if i > 0 {
      assert entries[..i][1..] == entries[1..][..i - 1];
      PlanScheduleStops(entries[1..], i - 1);
    }
  }
}
