/** What the two MQ appliance collectors share: the system metrics they set, the
    readings they store (kept as the conversion and the field text it was applied
    to, since the numeric conversions are not part of this model), and the CPU, load
    and memory writes both perform from six fields. */
module MqReadings {
  import opened Wrappers
  import opened MetricSink

  datatype SystemMetric =
    | CpuTime | CpuLoad1 | CpuLoad5 | CpuLoad15 | MemoryUsage
    | NetworkConnections | NetworkIo | NetworkPackets | NetworkErrors | NetworkDropped | QmgrStatus

  /** The conversion applied to field text before it is stored: the `MqApplianceUtil`
      transforms and `Double.parseDouble`. */
  datatype Converter = CpuUsage | ParseDouble | MemUsage | ConnectionsOf | InterfaceOf | QmgrStatusOf

  /** A stored value: the conversion and the fields it was computed from. */
  datatype Reading = Reading(converter: Converter, fields: seq<string>)

  /** The unchecked exception a conversion throws on malformed text (for instance a
      NumberFormatException); it is not an IOException, so `collectData` lets it escape. */
  datatype ParseFailure = ParseFailure(converter: Converter, fields: seq<string>)

  /** Which conversions succeed on which fields. */
  type Parses = (Converter, seq<string>) -> bool

  function Convert(c: Converter, fields: seq<string>, parses: Parses): (r: Result<Reading, ParseFailure>)
    ensures r.Ok? <==> parses(c, fields)
    ensures r.Ok? ==> r.value == Reading(c, fields)
    ensures r.Err? ==> r.error == ParseFailure(c, fields)
  {
    if parses(c, fields) then Ok(Reading(c, fields)) else Err(ParseFailure(c, fields))
  }

  /** What `bufferedReader.readLine()` gives: a line, null at the end of the stream,
      or an IOException. */
  datatype ReadResult = Line(text: string) | EndOfStream | ReadFailure

  /** How one run of `collectData` ends: normally, with one of the severe log
      messages, or with an exception escaping it. */
  datatype Outcome =
    | Done
    | IncorrectFormat      // "Incorrect data format, cannot parse it."
    | NoDataReturned       // "No data returned. ..."
    | CannotRecord         // "Cannot record loads: ..." (the IOException is caught)
    | Escaped(failure: ParseFailure)

  /** The CPU, load and memory writes from six fields, in order: field 0 is the CPU
      usage, fields 1 to 3 the 1, 5 and 15 minute loads, fields 4 and 5 together the
      memory usage. */
  function SystemWrites(fields: seq<string>, parses: Parses): (ws: seq<(SystemMetric, Result<Reading, ParseFailure>)>)
    requires |fields| == 6
    ensures |ws| == 5
  {
    [(CpuTime, Convert(CpuUsage, [fields[0]], parses)),
     (CpuLoad1, Convert(ParseDouble, [fields[1]], parses)),
     (CpuLoad5, Convert(ParseDouble, [fields[2]], parses)),
     (CpuLoad15, Convert(ParseDouble, [fields[3]], parses)),
     (MemoryUsage, Convert(MemUsage, [fields[4], fields[5]], parses))]
  }

  /** The five `setValue` calls on the CPU, load and memory metrics. */
  method SetSystemMetrics(registry: Registry<SystemMetric, Reading>, fields: seq<string>, parses: Parses)
    returns (thrown: Option<ParseFailure>)
    requires |fields| == 6
    modifies registry
    ensures (registry.metrics, thrown) == Apply(old(registry.metrics), SystemWrites(fields, parses))
  {
    ghost var ws := SystemWrites(fields, parses);
    assert ws[0..] == ws;
    thrown := registry.SetValue(CpuTime, Convert(CpuUsage, [fields[0]], parses), ws, 0);
    if thrown.Some? {
      return;
    }
    thrown := registry.SetValue(CpuLoad1, Convert(ParseDouble, [fields[1]], parses), ws, 1);
    if thrown.Some? {
      return;
    }
    thrown := registry.SetValue(CpuLoad5, Convert(ParseDouble, [fields[2]], parses), ws, 2);
    if thrown.Some? {
      return;
    }
    thrown := registry.SetValue(CpuLoad15, Convert(ParseDouble, [fields[3]], parses), ws, 3);
    if thrown.Some? {
      return;
    }
    thrown := registry.SetValue(MemoryUsage, Convert(MemUsage, [fields[4], fields[5]], parses), ws, 4);
    assert ws[5..] == [];
  }

  /** Every conversion of the CPU, load and memory fields succeeds. */
  predicate SystemParses(fields: seq<string>, parses: Parses)
    requires |fields| == 6
  {
    parses(CpuUsage, [fields[0]]) && parses(ParseDouble, [fields[1]]) && parses(ParseDouble, [fields[2]])
    && parses(ParseDouble, [fields[3]]) && parses(MemUsage, [fields[4], fields[5]])
  }

  /** When every conversion succeeds the five metrics are set, in order, each to the
      reading of its own fields, and nothing else changes. */
  lemma SystemRouting(reg: map<SystemMetric, Reading>, fields: seq<string>, parses: Parses)
    requires |fields| == 6 && SystemParses(fields, parses)
    ensures Apply(reg, SystemWrites(fields, parses)) ==
      (reg[CpuTime := Reading(CpuUsage, [fields[0]])]
          [CpuLoad1 := Reading(ParseDouble, [fields[1]])]
          [CpuLoad5 := Reading(ParseDouble, [fields[2]])]
          [CpuLoad15 := Reading(ParseDouble, [fields[3]])]
          [MemoryUsage := Reading(MemUsage, [fields[4], fields[5]])], None)
  {
    var r0, r1, r2 := Reading(CpuUsage, [fields[0]]), Reading(ParseDouble, [fields[1]]), Reading(ParseDouble, [fields[2]]);
    var r3, r4 := Reading(ParseDouble, [fields[3]]), Reading(MemUsage, [fields[4], fields[5]]);
    var none: seq<(SystemMetric, Result<Reading, ParseFailure>)> := [];
    var w4 := [(MemoryUsage, Ok(r4))];
    var w3 := [(CpuLoad15, Ok(r3))] + w4;
    var w2 := [(CpuLoad5, Ok(r2))] + w3;
    var w1 := [(CpuLoad1, Ok(r1))] + w2;
    assert SystemWrites(fields, parses) == [(CpuTime, Ok(r0))] + w1;
    var m1 := reg[CpuTime := r0];
    ApplyOk(reg, CpuTime, r0, w1);
    ApplyOk(m1, CpuLoad1, r1, w2);
    ApplyOk(m1[CpuLoad1 := r1], CpuLoad5, r2, w3);
    ApplyOk(m1[CpuLoad1 := r1][CpuLoad5 := r2], CpuLoad15, r3, w4);
    ApplyOk(m1[CpuLoad1 := r1][CpuLoad5 := r2][CpuLoad15 := r3], MemoryUsage, r4, none);
    assert w4 == [(MemoryUsage, Ok(r4))] + none;
  }
}
