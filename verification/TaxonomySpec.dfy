/** What every Record* call of taxonomy.go means, stated apart from how the code gets there:
    each call describes its records in full, and the tier decides what is left of them. */
module TaxonomySpec {
  import opened Wrappers
  import opened Signals
  import CommandNames
  import Utf8
  import V = VendorMetrics

  const MAX_FEATURE_LENGTH := 64
  const MAX_CONFIG_CUSTOMIZED_COUNT := 1000

  /** What New fixes for the life of a client. `installSource` is the result of the one attempt
      to load or create the install ID. */
  datatype Config = Config(tier: Tier, cliName: string, installMethod: string, queueSize: nat, installSource: string) {
    predicate Basic() {
      tier.Allows(Signals.Basic)
    }

    function Named(path: string): string {
      CommandNames.CommandName(cliName, path)
    }
  }

  /** A vendor callback: not configured, one that panics, or one that returns. */
  datatype Callback<T> = Unset | Panics | Returns(value: T)

  /** What the environment, the process and the vendor's callbacks would say at session start. */
  datatype SessionFacts = SessionFacts(
    startupMs: int, binarySize: Option<int>, shell: Option<string>, terminal: string,
    stdoutIsTty: Option<bool>, runtimeVersion: Option<string>,
    configCount: Callback<int>, authState: Callback<string>)

  datatype Call =
    | SessionStart(facts: SessionFacts)
    | Invocation(path: string, flags: seq<string>)
    | CommandDone(path: string, flags: seq<string>, exitCode: int, duration: int, peakRss: int, cpuTime: int)
    | FeatureUsed(feature: string)
    | SetKnown(paths: seq<string>)
    | Unknown(suggestion: string)
    | Help(path: string)
    | Failed(path: string, category: string, reason: string)
    | FailedInDetail(path: string, message: Option<string>, stack: string)
    | Vendor(metric: V.Call)

  /** What one queued job will emit, and whether running it loads the install ID. */
  datatype Batch = Batch(records: seq<Record>, loads: bool)

  datatype State = State(
    closed: bool,
    sessionOn: bool,
    session: Option<string>,
    command: Option<string>,
    activated: set<string>,
    known: Option<set<string>>,
    ready: Option<string>,
    asking: bool,
    overflow: nat,
    belowTier: nat,
    pending: seq<Batch>,
    sink: seq<Record>,
    points: seq<Record>)

  const INITIAL := State(false, false, None, None, {}, None, None, false, 0, 0, [], [], [])

  // ----- vocabularies

  predicate ValidCategory(c: string) {
    c in {"unknown", "user", "validation", "network", "auth", "internal", "timeout", "canceled"}
  }

  function Category(c: string): string {
    if ValidCategory(c) then c else "unknown"
  }

  predicate ValidAuthState(a: string) {
    a in {"authenticated", "anonymous", "unknown"}
  }

  function ClampCount(n: int): int {
    if n < 0 then 0 else if n > MAX_CONFIG_CUSTOMIZED_COUNT then MAX_CONFIG_CUSTOMIZED_COUNT else n
  }

  function NonNegative(d: int): nat {
    if d < 0 then 0 else d
  }

  // ----- records in full

  type Fields = map<Key, Option<Value>>

  function FlagTexts(flags: seq<string>): Option<Value> {
    if flags == [] then None else Some(Texts(flags))
  }

  function Positive(n: int): Option<Value> {
    if n > 0 then Numeral(n) else None
  }

  function PlainIf(o: Option<string>): Option<Value> {
    if o.Some? then Plain(o.value) else None
  }

  function TierField(cfg: Config): Fields {
    map[TierKey := Plain(cfg.tier.Wire())]
  }

  /** The session ID, once there is one, and the install ID, if it could be persisted. */
  function IdentityFields(cfg: Config, s: State): Fields {
    map[SessionId := if s.session.Some? then NonEmpty(s.session.value) else None,
        InstallId := NonEmpty(cfg.installSource)]
  }

  function MeasuredFields(f: SessionFacts): Fields {
    map[BinarySizeBytes := if f.binarySize.Some? then Positive(f.binarySize.value) else None,
        StartupMs := if f.startupMs >= 0 then Numeral(f.startupMs) else None]
  }

  function EnvironmentFields(f: SessionFacts): Fields {
    map[Shell := PlainIf(f.shell),
        Terminal := Plain(f.terminal),
        StdoutIsTty := if f.stdoutIsTty.Some? then Some(Truth(f.stdoutIsTty.value)) else None,
        RuntimeName := Plain("go"),
        RuntimeVersion := PlainIf(f.runtimeVersion)]
  }

  function VendorFields(f: SessionFacts): Fields {
    map[ConfigCustomizedCount := if f.configCount.Returns? then Numeral(ClampCount(f.configCount.value)) else None,
        AuthState := if f.authState.Returns? && ValidAuthState(f.authState.value)
                     then Plain(f.authState.value)
                     else None]
  }

  function SessionFields(cfg: Config, s: State, f: SessionFacts): Fields {
    IdentityFields(cfg, s) + map[InstallMethod := NonEmpty(cfg.installMethod)]
      + MeasuredFields(f) + EnvironmentFields(f) + VendorFields(f) + TierField(cfg)
  }

  function InvocationFields(name: string, flags: seq<string>): Fields {
    map[CommandName := Plain(name), FlagNames := FlagTexts(flags)]
  }

  function OutcomeFields(name: string, exitCode: int): Fields {
    map[CommandName := Plain(name), ExitCode := Numeral(exitCode)]
  }

  function CompletedFields(name: string, exitCode: int, duration: int): Fields {
    OutcomeFields(name, exitCode)[DurationMs := Numeral(NonNegative(duration) / 1_000_000)]
  }

  function UsageFields(flags: seq<string>, peakRss: int, cpuTime: int): Fields {
    map[FlagNames := FlagTexts(flags), PeakRssBytes := Positive(peakRss), CpuTimeMs := Positive(cpuTime)]
  }

  function FeatureFields(feature: string, command: Option<string>): Fields {
    map[Feature := Plain(Utf8.Truncated(feature, MAX_FEATURE_LENGTH)), CommandName := PlainIf(command)]
  }

  function ErrorFields(name: string, category: string, reason: string): Fields {
    map[CommandName := Plain(name),
        ErrorType := Plain(Category(category)),
        ErrorReason := if V.ValidIdentifier(reason) then Plain(reason) else None]
  }

  function DetailFields(name: string, message: Option<string>, stack: string): Fields {
    map[CommandName := Plain(name), ErrorMessage := PlainIf(message), ErrorStack := NonEmpty(stack)]
  }

  /** Every record a call can lead to through the job queue, in order, as it would be if no tier
      held anything back. `s` is the state once the call has left its own marks. */
  function Declares(cfg: Config, s: State, c: Call): seq<Declared>
    requires !c.Vendor? && !c.SetKnown?
  {
    var tier, ids := TierField(cfg), IdentityFields(cfg, s);
    match c
    case SessionStart(f) =>
      [Declared(Anonymous, Event(SessionStarted), SessionFields(cfg, s, f))]
    case Invocation(path, flags) =>
      [Declared(Anonymous, Event(CommandInvoked), InvocationFields(cfg.Named(path), flags) + ids + tier)]
    case CommandDone(path, flags, exitCode, duration, peakRss, cpuTime) =>
      var name := cfg.Named(path);
      [Declared(Anonymous, Span(name, exitCode != 0),
                tier + CompletedFields(name, exitCode, duration) + UsageFields(flags, peakRss, cpuTime)),
       Declared(Anonymous, Point(Invocations, Count(1)), tier + OutcomeFields(name, exitCode)),
       Declared(Anonymous, Point(Latency, Micros(NonNegative(duration) / 1000)), tier + OutcomeFields(name, exitCode)),
       Declared(Anonymous, Event(CommandCompleted), CompletedFields(name, exitCode, duration) + ids + tier)]
    case FeatureUsed(feature) =>
      [Declared(Basic, Event(FeatureActivated), FeatureFields(feature, s.command) + ids + tier)]
    case Unknown(suggestion) =>
      [Declared(Anonymous, Event(CommandUnknown),
                map[Suggestion := NonEmpty(CommandNames.KnownCommand(cfg.cliName, s.known, suggestion))] + tier)]
    case Help(path) =>
      [Declared(Anonymous, Event(HelpViewed),
                map[CommandName := Plain(cfg.Named(path)), HelpFlag := Plain("help")] + tier)]
    case Failed(path, category, reason) =>
      [Declared(Anonymous, Point(Errors, Count(1)), ErrorFields(cfg.Named(path), category, reason) + tier),
       Declared(Basic, Event(ErrorRaised), ErrorFields(cfg.Named(path), category, reason) + ids + tier)]
    case FailedInDetail(path, message, stack) =>
      [Declared(OptIn, Event(ErrorRaised), DetailFields(cfg.Named(path), message, stack) + tier)]
  }

  // ----- calls

  /** The calls whose records carry the session and install IDs. */
  predicate CarriesIdentity(c: Call) {
    c.SessionStart? || c.Invocation? || c.CommandDone? || c.FeatureUsed? || c.Failed?
  }

  /** Calls that an open client drops without trace: a second session start, an empty or repeated
      feature, the detail of no error. */
  predicate Ignored(cfg: Config, s: State, c: Call) {
    || (c.SessionStart? && s.sessionOn)
    || (c.FeatureUsed? && cfg.Basic() &&
        (Utf8.Truncated(c.feature, MAX_FEATURE_LENGTH) == ""
         || Utf8.Truncated(c.feature, MAX_FEATURE_LENGTH) in s.activated))
    || (c.FailedInDetail? && c.message.None?)
  }

  /** The marks a call leaves on the client before it is queued. `drawn` is the session ID that
      would be drawn now; only the first one drawn is ever used. */
  function Marked(cfg: Config, s: State, c: Call, drawn: string): State {
    s.(sessionOn := s.sessionOn || c.SessionStart?,
       session := if CarriesIdentity(c) && cfg.Basic() then s.session.Or(Some(drawn)) else s.session,
       command := if c.Invocation? then Some(cfg.Named(c.path)) else s.command,
       activated := if c.FeatureUsed? && cfg.Basic()
                    then s.activated + {Utf8.Truncated(c.feature, MAX_FEATURE_LENGTH)}
                    else s.activated)
  }

  /** dispatch: a full queue drops the job and counts it. */
  function Enqueue(cfg: Config, s: State, b: Batch): State {
    if |s.pending| < cfg.queueSize then s.(pending := s.pending + [b]) else s.(overflow := s.overflow + 1)
  }

  /** The first metric call at Basic and above that finds no install ID asks for one. */
  function AskForInstall(cfg: Config, s: State): State {
    if cfg.Basic() && s.ready.None? && !s.asking then Enqueue(cfg, s.(asking := true), Batch([], true)) else s
  }

  function PointRecord(cfg: Config, s: State, m: V.Call): Record
    requires V.Accepted(m)
  {
    var id := V.IdentityOf(m);
    Record(Point(id.instrument, V.AmountOf(m)), V.PointAttrs(id, cfg.tier, s.command, s.ready))
  }

  function PerformVendor(cfg: Config, s: State, m: V.Call): State {
    if !V.AsksForInstall(m) then s
    else
      var asked := AskForInstall(cfg, s);
      if V.Accepted(m) then asked.(points := asked.points + [PointRecord(cfg, s, m)]) else asked
  }

  /** What is left of a call's records goes on the queue as one job; nothing left is one drop. */
  function Submit(cfg: Config, marked: State, records: seq<Record>, loads: bool): State {
    if records == [] then marked.(belowTier := marked.belowTier + 1) else Enqueue(cfg, marked, Batch(records, loads))
  }

  function PerformQueued(cfg: Config, s: State, c: Call, drawn: string): State
    requires !c.Vendor? && !c.SetKnown?
  {
    var marked := Marked(cfg, s, c, drawn);
    Submit(cfg, marked, Emitted(cfg.tier, Declares(cfg, marked, c)), cfg.Basic() && CarriesIdentity(c))
  }

  function Perform(cfg: Config, s: State, c: Call, drawn: string): State {
    if s.closed || Ignored(cfg, s, c) then s
    else if c.Vendor? then PerformVendor(cfg, s, c.metric)
    else if c.SetKnown? then s.(known := Some(CommandNames.KnownSet(cfg.cliName, c.paths)))
    else PerformQueued(cfg, s, c, drawn)
  }

  // ----- the worker and the end

  /** The worker runs the oldest job. */
  function RunNext(cfg: Config, s: State): State {
    if s.pending == [] then s
    else s.(pending := s.pending[1..],
            sink := s.sink + s.pending[0].records,
            ready := if s.pending[0].loads then s.ready.Or(Some(cfg.installSource)) else s.ready)
  }

  /** One step of a schedule: a call, one job of the worker, or the flag Shutdown sets. */
  datatype Step = Do(call: Call, drawn: string) | Work | Close

  function Next(cfg: Config, s: State, step: Step): State {
    match step
    case Do(call, drawn) => Perform(cfg, s, call, drawn)
    case Work => RunNext(cfg, s)
    case Close => s.(closed := true)
  }

  function Run(cfg: Config, s: State, steps: seq<Step>): State
    decreases |steps|
  {
    if steps == [] then s else Run(cfg, Next(cfg, s, steps[0]), steps[1..])
  }
}
