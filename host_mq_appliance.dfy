/** The host-side MQ appliance collector: one probe line of `;`-separated fields,
    whose first field holds the `:`-separated CPU, load and memory figures and whose
    next six fields hold the network and queue-manager figures. */
module HostMqAppliance {
  import opened Wrappers
  import opened JavaString
  import opened MetricSink
  import opened MqReadings

  /** The network and queue-manager writes from fields 1 to 6, in order. */
  function NetworkWrites(tokens: seq<string>, parses: Parses): (ws: seq<(SystemMetric, Result<Reading, ParseFailure>)>)
    requires |tokens| >= 7
    ensures |ws| == 6
  {
    [(NetworkConnections, Convert(ConnectionsOf, [tokens[1]], parses)),
     (NetworkIo, Convert(InterfaceOf, [tokens[2]], parses)),
     (NetworkPackets, Convert(InterfaceOf, [tokens[3]], parses)),
     (NetworkErrors, Convert(InterfaceOf, [tokens[4]], parses)),
     (NetworkDropped, Convert(InterfaceOf, [tokens[5]], parses)),
     (QmgrStatus, Convert(QmgrStatusOf, [tokens[6]], parses))]
  }

  /** Every write of a well-formed line: the system writes only when field 0 has
      exactly six `:`-separated parts, then the network writes. */
  function LineWrites(tokens: seq<string>, parses: Parses): seq<(SystemMetric, Result<Reading, ParseFailure>)>
    requires |tokens| >= 7
  {
    var sys := Split(tokens[0], ':');
    (if |sys| == 6 then SystemWrites(sys, parses) else []) + NetworkWrites(tokens, parses)
  }

  /** One run of `collectData` on the registry. */
  function Collect(reg: map<SystemMetric, Reading>, read: ReadResult, parses: Parses): (r: (map<SystemMetric, Reading>, Outcome))
  {
    match read
    case ReadFailure => (reg, CannotRecord)
    case EndOfStream => (reg, NoDataReturned)
    case Line(text) =>
      var tokens := Split(text, ';');
      if |tokens| < 7 then (reg, IncorrectFormat)
      else
        var (reg', thrown) := Apply(reg, LineWrites(tokens, parses));
        (reg', if thrown.Some? then Escaped(thrown.value) else Done)
  }

  /** The six `setValue` calls on the network and queue-manager metrics. */
  method SetNetworkMetrics(registry: Registry<SystemMetric, Reading>, tokens: seq<string>, parses: Parses)
    returns (thrown: Option<ParseFailure>)
    requires |tokens| >= 7
    modifies registry
    ensures (registry.metrics, thrown) == Apply(old(registry.metrics), NetworkWrites(tokens, parses))
  {
    ghost var ws := NetworkWrites(tokens, parses);
    assert ws[0..] == ws;
    thrown := registry.SetValue(NetworkConnections, Convert(ConnectionsOf, [tokens[1]], parses), ws, 0);
    if thrown.Some? {
      return;
    }
    thrown := registry.SetValue(NetworkIo, Convert(InterfaceOf, [tokens[2]], parses), ws, 1);
    if thrown.Some? {
      return;
    }
    thrown := registry.SetValue(NetworkPackets, Convert(InterfaceOf, [tokens[3]], parses), ws, 2);
    if thrown.Some? {
      return;
    }
    thrown := registry.SetValue(NetworkErrors, Convert(InterfaceOf, [tokens[4]], parses), ws, 3);
    if thrown.Some? {
      return;
    }
    thrown := registry.SetValue(NetworkDropped, Convert(InterfaceOf, [tokens[5]], parses), ws, 4);
    if thrown.Some? {
      return;
    }
    thrown := registry.SetValue(QmgrStatus, Convert(QmgrStatusOf, [tokens[6]], parses), ws, 5);
    assert ws[6..] == [];
  }

  class MqApplianceDc {
    const registry: Registry<SystemMetric, Reading>

    constructor ()
      ensures fresh(registry) && registry.metrics == map[]
    {
      registry := new Registry();
    }

    /** `collectData()`, reading `read` from the probe. */
    method CollectData(read: ReadResult, parses: Parses) returns (outcome: Outcome)
      modifies registry
      ensures (registry.metrics, outcome) == Collect(old(registry.metrics), read, parses)
    {
      if read.ReadFailure? {
        return CannotRecord;
      }
      if read.EndOfStream? {
        return NoDataReturned;
      }
      var tokens := Split(read.text, ';');
      if |tokens| < 7 {
        return IncorrectFormat;
      }
      var sys := Split(tokens[0], ':');
      ghost var first := if |sys| == 6 then SystemWrites(sys, parses) else [];
      ApplyAppend(registry.metrics, first, NetworkWrites(tokens, parses));
      var thrown := None;
      if |sys| == 6 {
        thrown := SetSystemMetrics(registry, sys, parses);
      }
      if thrown.None? {
        thrown := SetNetworkMetrics(registry, tokens, parses);
      }
      outcome := if thrown.Some? then Escaped(thrown.value) else Done;
    }
  }

  // ---------------------------------------------------------------------------
  // Properties
  // ---------------------------------------------------------------------------

  /** A line with fewer than seven fields sets nothing and logs the format error. */
  lemma ShortLineSetsNothing(reg: map<SystemMetric, Reading>, text: string, parses: Parses)
    requires |Split(text, ';')| < 7
    ensures Collect(reg, Line(text), parses) == (reg, IncorrectFormat)
  {
  }

  /** Every conversion of fields 1 to 6 succeeds. */
  predicate NetworkParses(tokens: seq<string>, parses: Parses)
    requires |tokens| >= 7
  {
    parses(ConnectionsOf, [tokens[1]]) && parses(InterfaceOf, [tokens[2]]) && parses(InterfaceOf, [tokens[3]])
    && parses(InterfaceOf, [tokens[4]]) && parses(InterfaceOf, [tokens[5]]) && parses(QmgrStatusOf, [tokens[6]])
  }

  /** The registry after the network writes all succeed: fields 1 to 6 stored, in
      order, as connections, I/O, packets, errors, dropped and queue-manager status. */
  function WithNetwork(reg: map<SystemMetric, Reading>, tokens: seq<string>): map<SystemMetric, Reading>
    requires |tokens| >= 7
  {
    reg[NetworkConnections := Reading(ConnectionsOf, [tokens[1]])]
       [NetworkIo := Reading(InterfaceOf, [tokens[2]])]
       [NetworkPackets := Reading(InterfaceOf, [tokens[3]])]
       [NetworkErrors := Reading(InterfaceOf, [tokens[4]])]
       [NetworkDropped := Reading(InterfaceOf, [tokens[5]])]
       [QmgrStatus := Reading(QmgrStatusOf, [tokens[6]])]
  }

  /** When fields 1 to 6 all convert, the network writes set exactly those six
      metrics. */
  lemma NetworkRouting(reg: map<SystemMetric, Reading>, tokens: seq<string>, parses: Parses)
    requires |tokens| >= 7 && NetworkParses(tokens, parses)
    ensures Apply(reg, NetworkWrites(tokens, parses)) == (WithNetwork(reg, tokens), None)
  {
    var r1, r2, r3 := Reading(ConnectionsOf, [tokens[1]]), Reading(InterfaceOf, [tokens[2]]), Reading(InterfaceOf, [tokens[3]]);
    var r4, r5, r6 := Reading(InterfaceOf, [tokens[4]]), Reading(InterfaceOf, [tokens[5]]), Reading(QmgrStatusOf, [tokens[6]]);
    var none: seq<(SystemMetric, Result<Reading, ParseFailure>)> := [];
    var w6 := [(QmgrStatus, Ok(r6))];
    var w5 := [(NetworkDropped, Ok(r5))] + w6;
    var w4 := [(NetworkErrors, Ok(r4))] + w5;
    var w3 := [(NetworkPackets, Ok(r3))] + w4;
    var w2 := [(NetworkIo, Ok(r2))] + w3;
    assert NetworkWrites(tokens, parses) == [(NetworkConnections, Ok(r1))] + w2;
    var m1 := reg[NetworkConnections := r1];
    var m3 := m1[NetworkIo := r2][NetworkPackets := r3];
    var m5 := m3[NetworkErrors := r4][NetworkDropped := r5];
    ApplyOk(reg, NetworkConnections, r1, w2);
    ApplyOk(m1, NetworkIo, r2, w3);
    ApplyOk(m1[NetworkIo := r2], NetworkPackets, r3, w4);
    ApplyOk(m3, NetworkErrors, r4, w5);
    ApplyOk(m3[NetworkErrors := r4], NetworkDropped, r5, w6);
    ApplyOk(m5, QmgrStatus, r6, none);
    assert w6 == [(QmgrStatus, Ok(r6))] + none;
  }

  /** When field 0 does not have exactly six `:`-separated parts, the CPU, load and
      memory metrics are not touched: the line performs the network writes only, and
      when those convert it stores fields 1 to 6 and nothing else. */
  lemma MalformedSystemFieldSkipped(reg: map<SystemMetric, Reading>, text: string, parses: Parses)
    requires var tokens := Split(text, ';'); |tokens| >= 7 && |Split(tokens[0], ':')| != 6
    ensures var tokens := Split(text, ';');
      var (reg', thrown) := Apply(reg, NetworkWrites(tokens, parses));
      Collect(reg, Line(text), parses) == (reg', if thrown.Some? then Escaped(thrown.value) else Done)
    ensures var tokens := Split(text, ';');
      NetworkParses(tokens, parses) ==> Collect(reg, Line(text), parses) == (WithNetwork(reg, tokens), Done)
  {
    var tokens := Split(text, ';');
    assert LineWrites(tokens, parses) == NetworkWrites(tokens, parses);
    if NetworkParses(tokens, parses) {
      NetworkRouting(reg, tokens, parses);
    }
  }

  /** With a well-formed first field and every conversion succeeding, the fields are
      stored in order: the `:`-parts of field 0 as CPU, loads and memory, then fields
      1 to 6 as the network and queue-manager metrics. */
  lemma HostRouting(reg: map<SystemMetric, Reading>, text: string, parses: Parses)
    requires var tokens := Split(text, ';'); |tokens| >= 7 && |Split(tokens[0], ':')| == 6
    requires var tokens := Split(text, ';');
      SystemParses(Split(tokens[0], ':'), parses) && NetworkParses(tokens, parses)
    ensures var tokens := Split(text, ';');
      var sys := Split(tokens[0], ':');
      Collect(reg, Line(text), parses) ==
        (WithNetwork(Apply(reg, SystemWrites(sys, parses)).0, tokens), Done)
    ensures var sys := Split(Split(text, ';')[0], ':');
      Apply(reg, SystemWrites(sys, parses)).0 ==
        reg[CpuTime := Reading(CpuUsage, [sys[0]])]
           [CpuLoad1 := Reading(ParseDouble, [sys[1]])]
           [CpuLoad5 := Reading(ParseDouble, [sys[2]])]
           [CpuLoad15 := Reading(ParseDouble, [sys[3]])]
           [MemoryUsage := Reading(MemUsage, [sys[4], sys[5]])]
  {
    var tokens := Split(text, ';');
    var sys := Split(tokens[0], ':');
    SystemRouting(reg, sys, parses);
    ApplyAppend(reg, SystemWrites(sys, parses), NetworkWrites(tokens, parses));
    NetworkRouting(Apply(reg, SystemWrites(sys, parses)).0, tokens, parses);
  }

  /** Fields after the seventh are never read: two lines that agree on their first
      seven fields collect alike. */
  lemma ExtraFieldsIgnored(reg: map<SystemMetric, Reading>, a: string, b: string, parses: Parses)
    requires |Split(a, ';')| >= 7 && |Split(b, ';')| >= 7
    requires Split(a, ';')[..7] == Split(b, ';')[..7]
    ensures Collect(reg, Line(a), parses) == Collect(reg, Line(b), parses)
  {
    var ta, tb := Split(a, ';'), Split(b, ';');
    assert forall i :: 0 <= i < 7 ==> ta[i] == ta[..7][i] == tb[..7][i] == tb[i];
    assert LineWrites(ta, parses) == LineWrites(tb, parses);
  }

  /** A conversion that fails part-way escapes `collectData`, and the writes before
      it stay in place. */
  lemma FailureKeepsEarlierWrites(reg: map<SystemMetric, Reading>, text: string, parses: Parses, i: nat)
    requires |Split(text, ';')| >= 7
    requires var ws := LineWrites(Split(text, ';'), parses);
      i < |ws| && ws[i].1.Err? && forall j :: 0 <= j < i ==> ws[j].1.Ok?
    ensures var ws := LineWrites(Split(text, ';'), parses);
      Collect(reg, Line(text), parses) == (Apply(reg, ws[..i]).0, Escaped(ws[i].1.error))
  {
    ApplyStopsAtFailure(reg, LineWrites(Split(text, ';'), parses), i);
  }

  /** At the end of the stream, or when reading fails, nothing is set. */
  lemma NoLineSetsNothing(reg: map<SystemMetric, Reading>, read: ReadResult, parses: Parses)
    requires !read.Line?
    ensures Collect(reg, read, parses).0 == reg
    ensures Collect(reg, read, parses).1 == if read.EndOfStream? then NoDataReturned else CannotRecord
  {
  }
}
