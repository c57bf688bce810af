/** Consent tiers, attribute keys and the records the SDK emits: which tier each attribute and
    each record needs, and what is left of a fully described record at a given tier. */
module Signals {
  import opened Wrappers

  datatype Tier = Anonymous | Basic | Full | OptIn {
    function Rank(): nat {
      match this case Anonymous => 0 case Basic => 1 case Full => 2 case OptIn => 3
    }

    predicate Allows(required: Tier) {
      Rank() >= required.Rank()
    }

    function Wire(): string {
      match this case Anonymous => "anonymous" case Basic => "basic" case Full => "full" case OptIn => "optin_plus"
    }
  }

  datatype Key =
    | TierKey | CommandName | Suggestion | ExitCode | DurationMs | FlagNames
    | SessionId | InstallId | HelpFlag | InstallMethod | Feature
    | ErrorType | ErrorReason | ErrorMessage | ErrorStack
    | CounterName | CounterLabel | MeasureName | MeasureLabel | ValueName | ValueUnit
    | Dim(name: string)
    | PeakRssBytes | CpuTimeMs | BinarySizeBytes | StartupMs
    | Shell | Terminal | StdoutIsTty | RuntimeName | RuntimeVersion
    | ConfigCustomizedCount | AuthState
  {
    /** The tier each key is documented to need. */
    function MinTier(): Tier {
      if AtEveryTier() then Anonymous
      else if ErrorMessage? || ErrorStack? then OptIn
      else Basic
    }

    predicate AtEveryTier() {
      || TierKey? || CommandName? || ExitCode? || DurationMs? || HelpFlag? || InstallMethod?
      || CounterName? || CounterLabel? || MeasureName? || MeasureLabel? || ValueName? || ValueUnit? || Dim?
    }

    /** The attribute name on the wire. */
    function Wire(): string {
      match this
      case TierKey => "cli.analytics.tier"
      case CommandName => "cli.command.name"
      case Suggestion => "cli.command.suggestion"
      case ExitCode => "cli.command.exit_code"
      case DurationMs => "cli.command.duration_ms"
      case FlagNames => "cli.flag.names"
      case SessionId => "cli.session_id"
      case InstallId => "cli.install_id"
      case HelpFlag => "cli.help.flag"
      case InstallMethod => "cli.install.method"
      case Feature => "cli.activation.feature"
      case ErrorType => "cli.error.type"
      case ErrorReason => "cli.error.reason"
      case ErrorMessage => "cli.error.message"
      case ErrorStack => "cli.error.stacktrace"
      case CounterName => "cli.counter.name"
      case CounterLabel => "cli.counter.label"
      case MeasureName => "cli.measure.name"
      case MeasureLabel => "cli.measure.label"
      case ValueName => "cli.value.name"
      case ValueUnit => "cli.value.unit"
      case Dim(k) => "cli.dim." + k
      case PeakRssBytes => "cli.process.peak_rss_bytes"
      case CpuTimeMs => "cli.process.cpu_time_ms"
      case BinarySizeBytes => "cli.binary.size_bytes"
      case StartupMs => "cli.startup.duration_ms"
      case Shell => "cli.shell"
      case Terminal => "cli.terminal"
      case StdoutIsTty => "cli.stdout.is_tty"
      case RuntimeName => "cli.runtime.name"
      case RuntimeVersion => "cli.runtime.version"
      case ConfigCustomizedCount => "cli.config.customized_count"
      case AuthState => "cli.auth.state"
    }
  }

  datatype Value = Text(s: string) | Number(n: int) | Truth(b: bool) | Texts(ss: seq<string>)

  /** An attribute set; adding a key that is present replaces its value. */
  type Attrs = map<Key, Value>

  datatype EventName =
    | SessionStarted | CommandInvoked | CommandCompleted | HelpViewed
    | ErrorRaised | FeatureActivated | CommandUnknown

  datatype Instrument = Invocations | Latency | Errors | Counter | Measure | ValueHistogram

  /** What a data point measures: a count, a duration in nanoseconds or microseconds, a quantity. */
  datatype Amount = Count(n: int) | Nanos(ns: int) | Micros(us: int) | Quantity(v: real)

  datatype Signal =
    | Event(name: EventName)
    | Span(command: string, failed: bool)
    | Point(instrument: Instrument, amount: Amount)

  datatype Record = Record(signal: Signal, attrs: Attrs)

  // ----- records described in full

  /** Everything a record could carry, and the tier the record itself needs. */
  datatype Declared = Declared(required: Tier, signal: Signal, fields: map<Key, Option<Value>>)

  /** The fields that are present and whose key the tier allows. */
  function Visible(tier: Tier, fields: map<Key, Option<Value>>): Attrs {
    map k | k in fields && fields[k].Some? && tier.Allows(k.MinTier()) :: fields[k].value
  }

  lemma VisibleUnion(tier: Tier, a: map<Key, Option<Value>>, b: map<Key, Option<Value>>)
    requires a.Keys !! b.Keys
    ensures Visible(tier, a + b) == Visible(tier, a) + Visible(tier, b)
  {
  }

  lemma VisibleUnions(tier: Tier, a: map<Key, Option<Value>>, b: map<Key, Option<Value>>,
                      c: map<Key, Option<Value>>, d: map<Key, Option<Value>>)
    requires a.Keys !! b.Keys !! c.Keys !! d.Keys
    ensures Visible(tier, a + b + c + d) == Visible(tier, a) + Visible(tier, b) + Visible(tier, c) + Visible(tier, d)
  {
    VisibleUnion(tier, a, b);
    VisibleUnion(tier, a + b, c);
    VisibleUnion(tier, a + b + c, d);
  }

  /** The records a tier allows, each cut down to the fields it allows. */
  function Emitted(tier: Tier, declared: seq<Declared>): seq<Record> {
    if declared == [] then []
    else
      var d := declared[0];
      (if tier.Allows(d.required) then [Record(d.signal, Visible(tier, d.fields))] else [])
            + Emitted(tier, declared[1..])
  }

  lemma EmittedOne(tier: Tier, d: Declared)
    ensures Emitted(tier, [d]) == if tier.Allows(d.required) then [Record(d.signal, Visible(tier, d.fields))] else []
  {
    assert [d][1..] == [];
  }

  lemma {:induction false} EmittedConcat(tier: Tier, a: seq<Declared>, b: seq<Declared>)
    ensures Emitted(tier, a + b) == Emitted(tier, a) + Emitted(tier, b)
  {
    if a == [] {
      assert a + b == b;
    } else {
      assert (a + b)[1..] == a[1..] + b;
      EmittedConcat(tier, a[1..], b);
    }
  }

  lemma EmittedTwo(tier: Tier, a: Declared, b: Declared)
    ensures Emitted(tier, [a, b]) == Emitted(tier, [a]) + Emitted(tier, [b])
  {
    assert [a, b] == [a] + [b];
    EmittedConcat(tier, [a], [b]);
  }

  lemma EmittedFour(tier: Tier, a: Declared, b: Declared, c: Declared, d: Declared)
    ensures Emitted(tier, [a, b, c, d])
              == Emitted(tier, [a]) + Emitted(tier, [b]) + Emitted(tier, [c]) + Emitted(tier, [d])
  {
    assert [a, b, c, d] == [a, b] + [c, d];
    EmittedConcat(tier, [a, b], [c, d]);
    EmittedTwo(tier, a, b);
    EmittedTwo(tier, c, d);
  }

  function Plain(s: string): Option<Value> {
    Some(Text(s))
  }

  function NonEmpty(s: string): Option<Value> {
    if s == "" then None else Some(Text(s))
  }

  function Numeral(n: int): Option<Value> {
    Some(Number(n))
  }

  // ----- wire names

  /** The keys a vendor metric point may carry. */
  predicate OnVendorPoint(k: Key) {
    || k.TierKey? || k.CommandName? || k.InstallId? || k.Dim?
    || k.CounterName? || k.CounterLabel? || k.MeasureName? || k.MeasureLabel? || k.ValueName? || k.ValueUnit?
  }

  function Tail(s: string): string
    requires |s| >= 8
  {
    s[8..]
  }

  /** Two keys of a vendor metric point never share a wire name, whatever dimensions the vendor
      declares: a dimension cannot shadow a built-in attribute. */
  lemma VendorKeysHaveDistinctNames(a: Key, b: Key)
    requires OnVendorPoint(a) && OnVendorPoint(b)
    ensures a.Wire() == b.Wire() <==> a == b
  {
    var x, y := a.Wire(), b.Wire();
    if x == y {
      assert x[4] == y[4] && x[5] == y[5];
      if a.Dim? && b.Dim? {
        assert Tail(x) == a.name && Tail(y) == b.name;
      } else if |x| == 14 && !a.Dim? && !b.Dim? {
        assert x[10] == y[10];
      }
    }
  }
}
