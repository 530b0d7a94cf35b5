/** The appliance-side MQ appliance collector: one probe line of exactly six
    `;`-separated fields holding the CPU, load and memory figures. */
module ApplianceMq {
  import opened Wrappers
  import opened JavaString
  import opened MetricSink
  import opened MqReadings

  /** One run of `collectData` on the registry. A line without exactly six fields and
      the end of the stream are both passed over without a log message. */
  function Collect(reg: map<SystemMetric, Reading>, read: ReadResult, parses: Parses): (r: (map<SystemMetric, Reading>, Outcome))
  {
    match read
    case ReadFailure => (reg, CannotRecord)
    case EndOfStream => (reg, Done)
    case Line(text) =>
      var tokens := Split(text, ';');
      if |tokens| != 6 then (reg, Done)
      else
        var (reg', thrown) := Apply(reg, SystemWrites(tokens, parses));
        (reg', if thrown.Some? then Escaped(thrown.value) else Done)
  }

  class MqApplianceDc {
    const registry: Registry<SystemMetric, Reading>

    constructor ()
      ensures fresh(registry) && registry.metrics == map[]
    {
      registry := new Registry();
    }

    /** `collectData()`, reading `read` from the probe. */
    method CollectData(read: ReadResult, parses: Parses) returns (outcome: Outcome)
      modifies registry
      ensures (registry.metrics, outcome) == Collect(old(registry.metrics), read, parses)
    {
      if read.ReadFailure? {
        return CannotRecord;
      }
      outcome := Done;
      if read.Line? {
        var tokens := Split(read.text, ';');
        if |tokens| == 6 {
          var thrown := SetSystemMetrics(registry, tokens, parses);
          if thrown.Some? {
            outcome := Escaped(thrown.value);
          }
        }
      }
    }
  }

  // ---------------------------------------------------------------------------
  // Properties
  // ---------------------------------------------------------------------------

  /** A line with any other number of fields than six sets nothing and reports
      nothing. */
  lemma WrongFieldCountIgnored(reg: map<SystemMetric, Reading>, text: string, parses: Parses)
    requires |Split(text, ';')| != 6
    ensures Collect(reg, Line(text), parses) == (reg, Done)
  {
  }

  /** With six fields that all convert, the fields are stored in order as CPU usage,
      the three loads and memory usage, and nothing else changes. */
  lemma ApplianceRouting(reg: map<SystemMetric, Reading>, text: string, parses: Parses)
    requires |Split(text, ';')| == 6 && SystemParses(Split(text, ';'), parses)
    ensures var f := Split(text, ';');
      Collect(reg, Line(text), parses) ==
        (reg[CpuTime := Reading(CpuUsage, [f[0]])]
            [CpuLoad1 := Reading(ParseDouble, [f[1]])]
            [CpuLoad5 := Reading(ParseDouble, [f[2]])]
            [CpuLoad15 := Reading(ParseDouble, [f[3]])]
            [MemoryUsage := Reading(MemUsage, [f[4], f[5]])], Done)
  {
    SystemRouting(reg, Split(text, ';'), parses);
  }

  /** A `;` closing the line changes nothing, since `split` drops the trailing empty
      field: "a;b;c;d;e;f;" collects like "a;b;c;d;e;f". */
  lemma TrailingSeparatorIgnored(reg: map<SystemMetric, Reading>, text: string, parses: Parses)
    requires text != []
    ensures Collect(reg, Line(text + [';']), parses) == Collect(reg, Line(text), parses)
  {
    SplitIgnoresTrailingSeparator(text, ';');
  }

  /** A conversion that fails part-way escapes `collectData`, and the writes before
      it stay in place. */
  lemma FailureKeepsEarlierWrites(reg: map<SystemMetric, Reading>, text: string, parses: Parses, i: nat)
    requires |Split(text, ';')| == 6
    requires var ws := SystemWrites(Split(text, ';'), parses);
      i < |ws| && ws[i].1.Err? && forall j :: 0 <= j < i ==> ws[j].1.Ok?
    ensures var ws := SystemWrites(Split(text, ';'), parses);
      Collect(reg, Line(text), parses) == (Apply(reg, ws[..i]).0, Escaped(ws[i].1.error))
  {
    ApplyStopsAtFailure(reg, SystemWrites(Split(text, ';'), parses), i);
  }

  /** Only a failed read is reported; the end of the stream passes silently. */
  lemma NoLineSetsNothing(reg: map<SystemMetric, Reading>, read: ReadResult, parses: Parses)
    requires !read.Line?
    ensures Collect(reg, read, parses) == (reg, if read.EndOfStream? then Done else CannotRecord)
  {
  }
}
