/** The Client of client.go and taxonomy.go as one goroutine sees it: the Record* methods with
    their branches, the job queue, and the jobs themselves. Every method is tied to
    TaxonomySpec.Perform, which describes records in full and lets the tier cut them down. */
module ClientCode {
  import opened Wrappers
  import opened Signals
  import opened TaxonomySpec
  import CommandNames
  import Utf8
  import V = VendorMetrics

  /** A queued closure: which one it is and what it captured. */
  datatype Job =
    | LoadInstall
    | EmitPlain(name: EventName, attrs: Attrs)
    | EmitIdentified(name: EventName, attrs: Attrs, session: string)
    | EmitSession(session: string, facts: SessionFacts, vendor: Attrs)
    | EmitCommand(command: string, exitCode: int, duration: nat, attrs: Attrs, spanAttrs: Attrs, session: string)
    | EmitError(pointAttrs: Attrs, attrs: Attrs, session: string)

  // ----- what a job will emit

  function WithTier(cfg: Config, attrs: Attrs): Attrs {
    attrs[TierKey := Text(cfg.tier.Wire())]
  }

  function WithIdentity(cfg: Config, attrs: Attrs, session: string): Attrs {
    var a := if session != "" then attrs[SessionId := Text(session)] else attrs;
    if cfg.Basic() && cfg.installSource != "" then a[InstallId := Text(cfg.installSource)] else a
  }

  function MeasuredAttrs(f: SessionFacts): Attrs {
    var sized := f.binarySize.Some? && f.binarySize.value > 0;
    var a: Attrs := if sized then map[BinarySizeBytes := Number(f.binarySize.value)] else map[];
    if f.startupMs >= 0 then a[StartupMs := Number(f.startupMs)] else a
  }

  /** readSessionEnvironment */
  function EnvironmentAttrs(f: SessionFacts): Attrs {
    var a: Attrs := if f.shell.Some? then map[Shell := Text(f.shell.value)] else map[];
    var b := a[Terminal := Text(f.terminal)];
    var c := if f.stdoutIsTty.Some? then b[StdoutIsTty := Truth(f.stdoutIsTty.value)] else b;
    var d := c[RuntimeName := Text("go")];
    if f.runtimeVersion.Some? then d[RuntimeVersion := Text(f.runtimeVersion.value)] else d
  }

  function VendorAttrs(f: SessionFacts): Attrs {
    Visible(Signals.Basic, VendorFields(f))
  }

  function SessionAttrs(cfg: Config, session: string, f: SessionFacts, vendor: Attrs): Attrs {
    var a := WithIdentity(cfg, map[], session);
    var b := if cfg.installMethod != "" then a[InstallMethod := Text(cfg.installMethod)] else a;
    if cfg.Basic() then b + MeasuredAttrs(f) + EnvironmentAttrs(f) + vendor else b
  }

  function InvocationAttrs(cfg: Config, name: string, flags: seq<string>): Attrs {
    var a: Attrs := map[CommandName := Text(name)];
    if cfg.Basic() && flags != [] then a[FlagNames := Texts(flags)] else a
  }

  function FeatureAttrs(feature: string, command: Option<string>): Attrs {
    var a: Attrs := map[Feature := Text(feature)];
    if command.Some? then a[CommandName := Text(command.value)] else a
  }

  function DetailAttrs(name: string, message: string, stack: string): Attrs {
    var a: Attrs := map[CommandName := Text(name), ErrorMessage := Text(message)];
    if stack != "" then a[ErrorStack := Text(stack)] else a
  }

  function OutcomeAttrs(name: string, exitCode: int): Attrs {
    map[CommandName := Text(name), ExitCode := Number(exitCode)]
  }

  function CompletedAttrs(name: string, exitCode: int, duration: nat): Attrs {
    OutcomeAttrs(name, exitCode)[DurationMs := Number(duration / 1_000_000)]
  }

  function UsageAttrs(flags: seq<string>, peakRss: int, cpuTime: int): Attrs {
    var a: Attrs := if flags != [] then map[FlagNames := Texts(flags)] else map[];
    var b := if peakRss > 0 then a[PeakRssBytes := Number(peakRss)] else a;
    if cpuTime > 0 then b[CpuTimeMs := Number(cpuTime)] else b
  }

  function SpanAttrs(cfg: Config, name: string, exitCode: int, duration: nat, flags: seq<string>, peakRss: int,
                     cpuTime: int): Attrs {
    var a := WithTier(cfg, CompletedAttrs(name, exitCode, duration));
    if cfg.Basic() then a + UsageAttrs(flags, peakRss, cpuTime) else a
  }

  function ErrorAttrs(cfg: Config, name: string, category: string, reason: string): Attrs {
    var a: Attrs := map[CommandName := Text(name)];
    if !cfg.Basic() then a
    else
      var b := a[ErrorType := Text(Category(category))];
      if V.ValidIdentifier(reason) then b[ErrorReason := Text(reason)] else b
  }

  function InContextAttrs(cfg: Config, attrs: Attrs, command: Option<string>, install: Option<string>,
                          unit: string): Attrs {
    var a := if command.Some? then attrs[CommandName := Text(command.value)] else attrs;
    var b := if cfg.Basic() && install.Some? && install.value != "" then a[InstallId := Text(install.value)] else a;
    if unit != "" then b[ValueUnit := Text(unit)] else b
  }

  function JobBatch(cfg: Config, job: Job): Batch {
    match job
    case LoadInstall => Batch([], true)
    case EmitPlain(name, attrs) => Batch([Record(Event(name), WithTier(cfg, attrs))], false)
    case EmitIdentified(name, attrs, session) =>
      Batch([Record(Event(name), WithTier(cfg, WithIdentity(cfg, attrs, session)))], cfg.Basic())
    case EmitSession(session, facts, vendor) =>
      Batch([Record(Event(SessionStarted), WithTier(cfg, SessionAttrs(cfg, session, facts, vendor)))], cfg.Basic())
    case EmitCommand(name, exitCode, duration, attrs, spanAttrs, session) =>
      Batch([Record(Span(name, exitCode != 0), spanAttrs),
             Record(Point(Invocations, Count(1)), attrs),
             Record(Point(Latency, Micros(duration / 1000)), attrs),
             Record(Event(CommandCompleted),
                    WithTier(cfg, WithIdentity(cfg, CompletedAttrs(name, exitCode, duration), session)))],
            cfg.Basic())
    case EmitError(pointAttrs, attrs, session) =>
      Batch([Record(Point(Errors, Count(1)), pointAttrs)] +
              (if cfg.Basic() then [Record(Event(ErrorRaised), WithTier(cfg, WithIdentity(cfg, attrs, session)))]
               else []),
            cfg.Basic())
  }

  function Batches(cfg: Config, jobs: seq<Job>): seq<Batch> {
    seq(|jobs|, i requires 0 <= i < |jobs| => JobBatch(cfg, jobs[i]))
  }

  lemma BatchesAppend(cfg: Config, jobs: seq<Job>, job: Job)
    ensures Batches(cfg, jobs + [job]) == Batches(cfg, jobs) + [JobBatch(cfg, job)]
  {
  }

  lemma BatchesHead(cfg: Config, jobs: seq<Job>)
    requires jobs != []
    ensures Batches(cfg, jobs)[0] == JobBatch(cfg, jobs[0]) && Batches(cfg, jobs[1..]) == Batches(cfg, jobs)[1..]
  {
  }

  predicate TellsVendorFacts(attrs: Attrs, f: SessionFacts) {
    && attrs.Keys <= {ConfigCustomizedCount, AuthState}
    && (ConfigCustomizedCount in attrs <==> f.configCount.Returns?)
    && (ConfigCustomizedCount in attrs ==>
          && attrs[ConfigCustomizedCount].Number?
          && InRange(attrs[ConfigCustomizedCount].n, f.configCount.value))
    && (AuthState in attrs <==> f.authState.Returns? && f.authState.value in {"authenticated", "anonymous", "unknown"})
    && (AuthState in attrs ==> attrs[AuthState] == Text(f.authState.value))
  }

  /** `n` is the number of 0..1000 that is nearest to `count`. */
  predicate InRange(n: int, count: int) {
    0 <= n <= 1000 && (n < count ==> n == 1000) && (n > count ==> n == 0)
  }

  /** Those clauses leave no choice: they describe the vendor's part of a session start. */
  lemma VendorFactsAreDescribed(attrs: Attrs, f: SessionFacts)
    ensures TellsVendorFacts(attrs, f) <==> attrs == VendorAttrs(f)
  {
    var described := VendorAttrs(f);
    if TellsVendorFacts(attrs, f) {
      assert attrs.Keys == described.Keys;
    }
  }

  class Client {
    const cfg: Config
    var closed: bool
    var sessionOn: bool
    var session: Option<string>
    var currentCommand: Option<string>
    var activated: set<string>
    var knownCommands: Option<set<string>>
    var installReady: Option<string>
    var installLoading: bool
    var queueOverflow: nat
    var belowTier: nat
    var jobs: seq<Job>
    var sink: seq<Record>
    var points: seq<Record>
    const counter: V.CounterInstrument

    /** The counter instrument has been given exactly the counts among the data points. */
    ghost predicate Counted()
      reads this, counter
    {
      counter.Valid() && counter.added == V.CounterAdds(points)
    }

    ghost function View(): State
      reads this
    {
      State(closed, sessionOn, session, currentCommand, activated, knownCommands, installReady, installLoading,
            queueOverflow, belowTier, Batches(cfg, jobs), sink, points)
    }

    constructor (cfg: Config)
      ensures this.cfg == cfg && View() == INITIAL && Counted() && fresh(counter)
    {
      this.cfg := cfg;
      counter := new V.CounterInstrument();
      closed, sessionOn, session, currentCommand := false, false, None, None;
      activated, knownCommands, installReady, installLoading := {}, None, None, false;
      queueOverflow, belowTier, jobs, sink, points := 0, 0, [], [], [];
    }

    // ----- shared steps

    /** gate, for an enabled client: counts the drop when the tier does not allow `required`. */
    method Gate(required: Tier) returns (ok: bool)
      modifies this`belowTier
      ensures ok <==> !closed && cfg.tier.Allows(required)
      ensures belowTier == old(belowTier) + if !closed && !ok then 1 else 0
    {
      if closed {
        return false;
      }
      if !cfg.tier.Allows(required) {
        belowTier := belowTier + 1;
        return false;
      }
      return true;
    }

    method Dispatch(job: Job)
      modifies this`jobs, this`queueOverflow
      ensures View() == if old(closed) then old(View()) else Enqueue(cfg, old(View()), JobBatch(cfg, job))
    {
      if closed {
        return;
      }
      BatchesAppend(cfg, jobs, job);
      if |jobs| < cfg.queueSize {
        jobs := jobs + [job];
      } else {
        queueOverflow := queueOverflow + 1;
      }
    }

    /** ensureSessionID; `drawn` is what newSessionID would return. */
    method EnsureSessionId(drawn: string) returns (id: string)
      modifies this`session
      ensures session == if cfg.Basic() then old(session).Or(Some(drawn)) else old(session)
      ensures id == if cfg.Basic() then session.value else ""
    {
      if !cfg.tier.Allows(Basic) {
        return "";
      }
      if session.None? {
        session := Some(drawn);
      }
      return session.value;
    }

    method LoadInstallId() returns (id: string)
      modifies this`installReady
      ensures installReady == old(installReady).Or(Some(cfg.installSource)) && id == cfg.installSource
    {
      if installReady.None? {
        installReady := Some(cfg.installSource);
      }
      return cfg.installSource;
    }

    /** identityAttrs, added to the attributes of a record. */
    method AddIdentity(attrs: Attrs, sessionId: string) returns (r: Attrs)
      modifies this`installReady
      ensures r == WithIdentity(cfg, attrs, sessionId)
      ensures installReady == if cfg.Basic() then old(installReady).Or(Some(cfg.installSource)) else old(installReady)
    {
      r := attrs;
      if sessionId != "" {
        r := r[SessionId := Text(sessionId)];
      }
      if cfg.tier.Allows(Basic) {
        var id := LoadInstallId();
        if id != "" {
          r := r[InstallId := Text(id)];
        }
      }
    }

    // ----- sessions, commands, features

    /** vendorSessionAttrs: nothing but the two facts, each only if its callback returned; the count
        is brought into range, an authentication state outside the vocabulary is left out. */
    method VendorSessionAttrs(facts: SessionFacts) returns (attrs: Attrs)
      ensures TellsVendorFacts(attrs, facts)
    {
      attrs := map[];
      match facts.configCount {
        case Returns(n) => attrs := attrs[ConfigCustomizedCount := Number(ClampCount(n))];
        case _ =>
      }
      match facts.authState {
        case Returns(a) =>
          if ValidAuthState(a) {
            attrs := attrs[AuthState := Text(a)];
          }
        case _ =>
      }
    }

    method RecordSessionStart(facts: SessionFacts, drawn: string)
      modifies this
      ensures View() == Perform(cfg, old(View()), SessionStart(facts), drawn)
    {
      ghost var before := View();
      if closed || sessionOn {
        return;
      }
      sessionOn := true;
      var sessionId := EnsureSessionId(drawn);
      var vendor: Attrs := map[];
      if cfg.tier.Allows(Basic) {
        vendor := VendorSessionAttrs(facts);
        VendorFactsAreDescribed(vendor, facts);
      }
      SessionQueued(cfg, before, View(), facts, drawn, sessionId, vendor);
      Dispatch(EmitSession(sessionId, facts, vendor));
    }

    method RecordCommandInvocation(path: string, flags: seq<string>, drawn: string)
      modifies this
      ensures View() == Perform(cfg, old(View()), Invocation(path, flags), drawn)
    {
      ghost var before := View();
      if closed {
        return;
      }
      var name := CommandNames.CommandName(cfg.cliName, path);
      currentCommand := Some(name);
      var attrs: Attrs := map[CommandName := Text(name)];
      if cfg.tier.Allows(Basic) && |flags| > 0 {
        attrs := attrs[FlagNames := Texts(flags)];
      }
      var sessionId := EnsureSessionId(drawn);
      InvocationQueued(cfg, before, View(), path, flags, drawn, sessionId);
      Dispatch(EmitIdentified(CommandInvoked, attrs, sessionId));
    }

    method RecordCommand(path: string, flags: seq<string>, exitCode: int, duration: int, peakRss: int, cpuTime: int,
                         drawn: string)
      modifies this
      ensures View() == Perform(cfg, old(View()), CommandDone(path, flags, exitCode, duration, peakRss, cpuTime), drawn)
    {
      ghost var before := View();
      if closed {
        return;
      }
      var d: nat := 0;
      if duration >= 0 {
        d := duration;
      }
      var name := CommandNames.CommandName(cfg.cliName, path);
      var attrs: Attrs := map[CommandName := Text(name), ExitCode := Number(exitCode),
                              TierKey := Text(cfg.tier.Wire())];
      var spanAttrs := attrs[DurationMs := Number(d / 1_000_000)];
      if cfg.tier.Allows(Basic) {
        spanAttrs := AppendUsage(spanAttrs, flags, peakRss, cpuTime);
      }
      var sessionId := EnsureSessionId(drawn);
      ghost var c := CommandDone(path, flags, exitCode, duration, peakRss, cpuTime);
      CommandQueued(cfg, before, View(), c, drawn, sessionId, attrs, spanAttrs);
      Dispatch(EmitCommand(name, exitCode, d, attrs, spanAttrs, sessionId));
    }

    /** The part of RecordCommand that needs Basic: flag names and resource usage. */
    method AppendUsage(attrs: Attrs, flags: seq<string>, peakRss: int, cpuTime: int) returns (r: Attrs)
      ensures r == attrs + UsageAttrs(flags, peakRss, cpuTime)
    {
      AddUsage(attrs, flags, peakRss, cpuTime);
      r := attrs;
      if |flags| > 0 {
        r := r[FlagNames := Texts(flags)];
      }
      if peakRss > 0 {
        r := r[PeakRssBytes := Number(peakRss)];
      }
      if cpuTime > 0 {
        r := r[CpuTimeMs := Number(cpuTime)];
      }
    }

    method RecordFeatureActivated(feature: string, drawn: string)
      modifies this
      ensures View() == Perform(cfg, old(View()), FeatureUsed(feature), drawn)
    {
      ghost var before := View();
      var allowed := Gate(Basic);
      if !allowed {
        FeatureBelowBasic(cfg, before, feature, drawn);
        return;
      }
      var cut := Utf8.TruncateUtf8(feature, MAX_FEATURE_LENGTH);
      if cut == "" || cut in activated {
        FeatureIgnored(cfg, before, feature, drawn);
        return;
      }
      activated := activated + {cut};
      var attrs: Attrs := map[Feature := Text(cut)];
      if currentCommand.Some? {
        attrs := attrs[CommandName := Text(currentCommand.value)];
      }
      var sessionId := EnsureSessionId(drawn);
      FeatureQueued(cfg, before, View(), feature, drawn, sessionId);
      Dispatch(EmitIdentified(FeatureActivated, attrs, sessionId));
    }

    // ----- unknown commands and help

    method SetKnownCommands(paths: seq<string>)
      modifies this`knownCommands
      ensures View() == Perform(cfg, old(View()), SetKnown(paths), "")
    {
      if closed {
        return;
      }
      var known: set<string> := {};
      for i := 0 to |paths|
        invariant known == CommandNames.KnownSet(cfg.cliName, paths[..i])
      {
        assert paths[..i + 1] == paths[..i] + [paths[i]];
        if !Blank(paths[i]) {
          known := known + {CommandNames.CommandName(cfg.cliName, paths[i])};
        }
      }
      assert paths[..|paths|] == paths;
      knownCommands := Some(known);
    }

    method RecordUnknownCommand(suggestion: string)
      modifies this
      ensures View() == Perform(cfg, old(View()), Unknown(suggestion), "")
    {
      var allowed := Gate(Anonymous);
      if !allowed {
        return;
      }
      var attrs: Attrs := map[];
      if cfg.tier.Allows(Basic) {
        var name := CommandNames.KnownCommand(cfg.cliName, knownCommands, suggestion);
        if name != "" {
          attrs := attrs[Suggestion := Text(name)];
        }
      }
      UnknownBatch(cfg, View(), suggestion, attrs);
      PlainQueued(cfg, View(), Unknown(suggestion), EmitPlain(CommandUnknown, attrs));
      Dispatch(EmitPlain(CommandUnknown, attrs));
    }

    method RecordHelpFlagUsage(path: string)
      modifies this
      ensures View() == Perform(cfg, old(View()), Help(path), "")
    {
      var allowed := Gate(Anonymous);
      if !allowed {
        return;
      }
      HelpBatch(cfg, View(), path);
      Dispatch(EmitPlain(HelpViewed,
                         map[CommandName := Text(CommandNames.CommandName(cfg.cliName, path)),
                             HelpFlag := Text("help")]));
    }

    // ----- errors

    method RecordError(path: string, category: string, reason: string, drawn: string)
      modifies this
      ensures View() == Perform(cfg, old(View()), Failed(path, category, reason), drawn)
    {
      ghost var before := View();
      if closed {
        return;
      }
      var kind := category;
      if !ValidCategory(category) {
        kind := "unknown";
      }
      var attrs: Attrs := map[CommandName := Text(CommandNames.CommandName(cfg.cliName, path))];
      if cfg.tier.Allows(Basic) {
        attrs := attrs[ErrorType := Text(kind)];
        var fits := V.CheckIdentifier(reason);
        if fits {
          attrs := attrs[ErrorReason := Text(reason)];
        }
      }
      var pointAttrs := attrs[TierKey := Text(cfg.tier.Wire())];
      var sessionId := EnsureSessionId(drawn);
      ErrorQueued(cfg, before, View(), path, category, reason, drawn, sessionId);
      Dispatch(EmitError(pointAttrs, attrs, sessionId));
    }

    /** RecordErrorDetailWithStack; RecordErrorDetail is the same with an empty stack. */
    method RecordErrorDetail(path: string, message: Option<string>, stack: string)
      modifies this
      ensures View() == Perform(cfg, old(View()), FailedInDetail(path, message, stack), "")
    {
      if message.None? {
        return;
      }
      DetailBelowOptIn(cfg, View(), path, message, stack);
      var allowed := Gate(OptIn);
      if !allowed {
        return;
      }
      var attrs: Attrs := map[CommandName := Text(CommandNames.CommandName(cfg.cliName, path)),
                              ErrorMessage := Text(message.value)];
      if |stack| > 0 {
        attrs := attrs[ErrorStack := Text(stack)];
      }
      DetailBatch(cfg, View(), path, message.value, stack);
      Dispatch(EmitPlain(ErrorRaised, attrs));
    }

    // ----- vendor metrics

    /** metricInstallAttrs: the published install ID, or none; the first call to find none at Basic
        and above asks the worker to load it. Only called past the gate. */
    method MetricInstallId() returns (id: Option<string>)
      requires !closed
      modifies this
      ensures View() == AskForInstall(cfg, old(View())) && points == old(points)
      ensures id == if cfg.Basic() && old(installReady) != Some("") then old(installReady) else None
    {
      if !cfg.tier.Allows(Basic) {
        return None;
      }
      if installReady.Some? {
        if installReady.value == "" {
          return None;
        }
        return installReady;
      }
      if !installLoading {
        installLoading := true;
        Dispatch(LoadInstall);
      }
      return None;
    }

    /** The attribute list RecordCounter and RecordDuration build; not `ok` when the label is bad. */
    method NamedAttrs(instrument: Instrument, name: string, tag: string) returns (attrs: seq<(Key, Value)>, ok: bool)
      requires !closed
      modifies this
      ensures View() == AskForInstall(cfg, old(View())) && points == old(points)
      ensures ok <==> V.LabelFits(tag)
      ensures ok ==> V.DistinctKeys(attrs)
      ensures ok ==>
                var id := V.Identity(instrument, name, tag, "", map[]);
                V.ToAttrs(attrs) == V.PointAttrs(id, cfg.tier, old(currentCommand), old(installReady))
    {
      ghost var command, ready := currentCommand, installReady;
      attrs := Named(instrument, name);
      var id := MetricInstallId();
      attrs, ok := V.AppendContext(attrs, id, V.LabelKey(instrument), tag, currentCommand);
      NamedIsPoint(cfg, instrument, name, tag, command, ready);
    }

    /** metricHandle.attrs, with the unit a value adds at the end. */
    method HandleAttrs(h: V.Handle, instrument: Instrument, values: seq<string>, unit: string)
        returns (attrs: seq<(Key, Value)>, ok: bool)
      requires !closed
      modifies this
      ensures ok <==> V.ValuesFit(h, values)
      ensures View() == (if ok then AskForInstall(cfg, old(View())) else old(View())) && points == old(points)
      ensures ok ==> V.DistinctKeys(attrs)
      ensures ok ==>
                var id := V.Identity(instrument, h.name, "", unit, V.Zip(h.keys, values));
                V.ToAttrs(attrs) == V.PointAttrs(id, cfg.tier, old(currentCommand), old(installReady))
    {
      if !h.valid || |values| != |h.keys| {
        return [], false;
      }
      attrs := Named(instrument, h.name);
      attrs, ok := V.AppendDims(attrs, h.keys, values);
      if !ok {
        return;
      }
      ghost var id := V.Identity(instrument, h.name, "", unit, V.Zip(h.keys, values));
      UntaggedIsPoint(cfg, id, currentCommand, installReady);
      DimsOutOfContext(cfg, id);
      attrs := InContext(attrs, unit);
    }

    method Named(instrument: Instrument, name: string) returns (attrs: seq<(Key, Value)>)
      ensures V.DistinctKeys(attrs)
      ensures V.ToAttrs(attrs) == map[TierKey := Text(cfg.tier.Wire()), V.NameKey(instrument) := Text(name)]
    {
      attrs := [(TierKey, Text(cfg.tier.Wire()))];
      V.ToAttrsAppend([], TierKey, Text(cfg.tier.Wire()));
      assert [] + attrs == attrs;
      attrs := V.Append(attrs, V.NameKey(instrument), Text(name));
    }

    /** The end of a handle's list: current command, install ID, unit. */
    method InContext(list: seq<(Key, Value)>, unit: string) returns (attrs: seq<(Key, Value)>)
      requires !closed
      requires V.DistinctKeys(list) && forall k :: k in V.ToAttrs(list) ==>
                 k != CommandName && k != InstallId && k != ValueUnit
      modifies this
      ensures View() == AskForInstall(cfg, old(View())) && points == old(points)
      ensures V.DistinctKeys(attrs)
      ensures V.ToAttrs(attrs) == InContextAttrs(cfg, V.ToAttrs(list), old(currentCommand), old(installReady), unit)
    {
      attrs := list;
      if currentCommand.Some? {
        attrs := V.Append(attrs, CommandName, Text(currentCommand.value));
      }
      var id := MetricInstallId();
      if id.Some? {
        attrs := V.Append(attrs, InstallId, Text(id.value));
      }
      if unit != "" {
        attrs := V.Append(attrs, ValueUnit, Text(unit));
      }
    }

    /** The counter instrument's own Add. */
    method AddToCounter(n: int, attrs: Attrs)
      requires Counted()
      modifies this`points, counter
      ensures Counted()
      ensures points == old(points) + [Record(Point(Counter, Count(n)), attrs)]
    {
      counter.Add(n, attrs);
      V.CounterAddsAppend(points, Record(Point(Counter, Count(n)), attrs));
      points := points + [Record(Point(Counter, Count(n)), attrs)];
    }

    /** A histogram instrument's Record. */
    method AddPoint(instrument: Instrument, amount: Amount, attrs: Attrs)
      requires Counted() && instrument != Counter
      modifies this`points
      ensures Counted()
      ensures points == old(points) + [Record(Point(instrument, amount), attrs)]
    {
      V.CounterAddsAppend(points, Record(Point(instrument, amount), attrs));
      points := points + [Record(Point(instrument, amount), attrs)];
    }

    method RecordCounter(name: string, n: int, tag: string)
      requires Counted()
      modifies this, counter
      ensures View() == Perform(cfg, old(View()), Vendor(V.CountNamed(name, n, tag)), "")
      ensures Counted()
    {
      ghost var before := View();
      var fits := V.CheckIdentifier(name);
      if n <= 0 || !fits || closed {
        NothingAdded(cfg, before, V.CountNamed(name, n, tag));
        return;
      }
      var attrs, ok := NamedAttrs(Counter, name, tag);
      if !ok {
        NothingAdded(cfg, before, V.CountNamed(name, n, tag));
        return;
      }
      PointAdded(cfg, before, V.CountNamed(name, n, tag), Counter, Count(n), V.ToAttrs(attrs));
      AddToCounter(n, V.ToAttrs(attrs));
    }

    method RecordDuration(name: string, d: int, tag: string)
      requires Counted()
      modifies this
      ensures View() == Perform(cfg, old(View()), Vendor(V.TimeNamed(name, d, tag)), "")
      ensures Counted()
    {
      ghost var before := View();
      var fits := V.CheckIdentifier(name);
      if d <= 0 || !fits || closed {
        NothingAdded(cfg, before, V.TimeNamed(name, d, tag));
        return;
      }
      var attrs, ok := NamedAttrs(Measure, name, tag);
      if !ok {
        NothingAdded(cfg, before, V.TimeNamed(name, d, tag));
        return;
      }
      PointAdded(cfg, before, V.TimeNamed(name, d, tag), Measure, Nanos(d), V.ToAttrs(attrs));
      AddPoint(Measure, Nanos(d), V.ToAttrs(attrs));
    }

    method CounterAdd(h: V.Handle, n: int, values: seq<string>)
      requires Counted()
      modifies this, counter
      ensures View() == Perform(cfg, old(View()), Vendor(V.CountByHandle(h, n, values)), "")
      ensures Counted()
    {
      ghost var before := View();
      if n <= 0 || closed {
        NothingAdded(cfg, before, V.CountByHandle(h, n, values));
        return;
      }
      var attrs, ok := HandleAttrs(h, Counter, values, "");
      if !ok {
        NothingAdded(cfg, before, V.CountByHandle(h, n, values));
        return;
      }
      PointAdded(cfg, before, V.CountByHandle(h, n, values), Counter, Count(n), V.ToAttrs(attrs));
      AddToCounter(n, V.ToAttrs(attrs));
    }

    /** The end of Duration.Record and Value.Record; `m` is the whole call. */
    method AddByHandle(h: V.Handle, instrument: Instrument, amount: Amount, values: seq<string>, unit: string,
                       ghost m: V.Call)
      requires Counted() && !closed && instrument != Counter
      requires V.Accepted(m) <==> V.ValuesFit(h, values)
      requires V.AsksForInstall(m) <==> V.ValuesFit(h, values)
      requires V.Accepted(m) ==>
                 && V.AmountOf(m) == amount
                 && V.IdentityOf(m) == V.Identity(instrument, h.name, "", unit, V.Zip(h.keys, values))
      modifies this
      ensures View() == Perform(cfg, old(View()), Vendor(m), "")
      ensures Counted()
    {
      ghost var before := View();
      var attrs, ok := HandleAttrs(h, instrument, values, unit);
      if !ok {
        NothingAdded(cfg, before, m);
        return;
      }
      PointAdded(cfg, before, m, instrument, amount, V.ToAttrs(attrs));
      AddPoint(instrument, amount, V.ToAttrs(attrs));
    }

    method DurationRecord(h: V.Handle, d: int, values: seq<string>)
      requires Counted()
      modifies this
      ensures View() == Perform(cfg, old(View()), Vendor(V.TimeByHandle(h, d, values)), "")
      ensures Counted()
    {
      if d <= 0 || closed {
        NothingAdded(cfg, View(), V.TimeByHandle(h, d, values));
        return;
      }
      AddByHandle(h, Measure, Nanos(d), values, "", V.TimeByHandle(h, d, values));
    }

    method ValueRecord(h: V.Handle, unit: string, v: V.Float, values: seq<string>)
      requires Counted()
      modifies this
      ensures View() == Perform(cfg, old(View()), Vendor(V.RecordValue(h, unit, v, values)), "")
      ensures Counted()
    {
      if !v.Finite? || v.r < 0.0 || closed {
        NothingAdded(cfg, View(), V.RecordValue(h, unit, v, values));
        return;
      }
      AddByHandle(h, ValueHistogram, Quantity(v.r), values, unit, V.RecordValue(h, unit, v, values));
    }

    // ----- the end

    /** Shutdown's compare-and-swap: from here on every call is dropped; only the first one wins. */
    method WinShutdown() returns (won: bool)
      modifies this`closed
      ensures View() == Next(cfg, old(View()), Close)
      ensures closed && won == !old(closed)
    {
      won := !closed;
      closed := true;
    }

    // ----- the worker

    /** runJob: takes the oldest job off the queue and runs it. */
    method RunNextJob()
      modifies this
      ensures View() == RunNext(cfg, old(View()))
    {
      if jobs == [] {
        return;
      }
      BatchesHead(cfg, jobs);
      var job := jobs[0];
      jobs := jobs[1..];
      match job
      case LoadInstall =>
        var _ := LoadInstallId();
      case EmitPlain(name, attrs) =>
        EmitNow(name, attrs);
      case EmitIdentified(name, attrs, sessionId) =>
        var full := AddIdentity(attrs, sessionId);
        EmitNow(name, full);
      case EmitSession(sessionId, facts, vendor) =>
        RunSessionJob(sessionId, facts, vendor);
      case EmitCommand(name, exitCode, duration, attrs, spanAttrs, sessionId) =>
        RunCommandJob(name, exitCode, duration, attrs, spanAttrs, sessionId);
      case EmitError(pointAttrs, attrs, sessionId) =>
        sink := sink + [Record(Point(Errors, Count(1)), pointAttrs)];
        if cfg.tier.Allows(Basic) {
          var full := AddIdentity(attrs, sessionId);
          EmitNow(ErrorRaised, full);
        }
    }

    method EmitNow(name: EventName, attrs: Attrs)
      modifies this`sink
      ensures sink == old(sink) + [Record(Event(name), WithTier(cfg, attrs))]
    {
      sink := sink + [Record(Event(name), attrs[TierKey := Text(cfg.tier.Wire())])];
    }

    method RunCommandJob(name: string, exitCode: int, duration: nat, attrs: Attrs, spanAttrs: Attrs, sessionId: string)
      modifies this`sink, this`installReady
      ensures sink == old(sink)
                + JobBatch(cfg, EmitCommand(name, exitCode, duration, attrs, spanAttrs, sessionId)).records
      ensures installReady == if cfg.Basic() then old(installReady).Or(Some(cfg.installSource)) else old(installReady)
    {
      sink := sink + [Record(Span(name, exitCode != 0), spanAttrs)];
      sink := sink + [Record(Point(Invocations, Count(1)), attrs)];
      sink := sink + [Record(Point(Latency, Micros(duration / 1000)), attrs)];
      var full := AddIdentity(CompletedAttrs(name, exitCode, duration), sessionId);
      EmitNow(CommandCompleted, full);
    }

    method RunSessionJob(sessionId: string, facts: SessionFacts, vendor: Attrs)
      modifies this`sink, this`installReady
      ensures sink == old(sink) + JobBatch(cfg, EmitSession(sessionId, facts, vendor)).records
      ensures installReady == if cfg.Basic() then old(installReady).Or(Some(cfg.installSource)) else old(installReady)
    {
      var attrs := AddIdentity(map[], sessionId);
      if cfg.installMethod != "" {
        attrs := attrs[InstallMethod := Text(cfg.installMethod)];
      }
      if cfg.tier.Allows(Basic) {
        AddMeasured(attrs, facts);
        if facts.binarySize.Some? && facts.binarySize.value > 0 {
          attrs := attrs[BinarySizeBytes := Number(facts.binarySize.value)];
        }
        if facts.startupMs >= 0 {
          attrs := attrs[StartupMs := Number(facts.startupMs)];
        }
        attrs := attrs + EnvironmentAttrs(facts);
        attrs := attrs + vendor;
      }
      EmitNow(SessionStarted, attrs);
    }
  }

  // ----- the code builds what the specification declares

  lemma AddMeasured(attrs: Attrs, f: SessionFacts)
    ensures attrs + MeasuredAttrs(f) ==
            var sized := f.binarySize.Some? && f.binarySize.value > 0;
            var a := if sized then attrs[BinarySizeBytes := Number(f.binarySize.value)] else attrs;
            if f.startupMs >= 0 then a[StartupMs := Number(f.startupMs)] else a
  {
  }

  lemma AddUsage(attrs: Attrs, flags: seq<string>, peakRss: int, cpuTime: int)
    ensures attrs + UsageAttrs(flags, peakRss, cpuTime) ==
            var a := if flags != [] then attrs[FlagNames := Texts(flags)] else attrs;
            var b := if peakRss > 0 then a[PeakRssBytes := Number(peakRss)] else a;
            if cpuTime > 0 then b[CpuTimeMs := Number(cpuTime)] else b
  {
  }

  lemma PointAdded(cfg: Config, s: State, m: V.Call, instrument: Instrument, amount: Amount, attrs: Attrs)
    requires !s.closed && V.Accepted(m)
    requires V.IdentityOf(m).instrument == instrument && V.AmountOf(m) == amount
    requires attrs == V.PointAttrs(V.IdentityOf(m), cfg.tier, s.command, s.ready)
    ensures Perform(cfg, s, Vendor(m), "")
              == AskForInstall(cfg, s).(points := s.points + [Record(Point(instrument, amount), attrs)])
  {
  }

  lemma NothingAdded(cfg: Config, s: State, m: V.Call)
    requires s.closed || !V.Accepted(m)
    ensures Perform(cfg, s, Vendor(m), "") == if s.closed || !V.AsksForInstall(m) then s else AskForInstall(cfg, s)
  {
  }

  lemma UntaggedIsPoint(cfg: Config, id: V.Identity, command: Option<string>, ready: Option<string>)
    requires id.Proper() && id.tag == ""
    ensures var a: Attrs := map[TierKey := Text(cfg.tier.Wire()), V.NameKey(id.instrument) := Text(id.name)]
              + V.DimAttrs(id.dims);
            InContextAttrs(cfg, a, command, ready, id.unit) == V.PointAttrs(id, cfg.tier, command, ready)
  {
    V.AssembledIsPointAttrs(id, cfg.tier, command, ready);
  }

  lemma DimsOutOfContext(cfg: Config, id: V.Identity)
    requires id.Proper()
    ensures var a: Attrs := map[TierKey := Text(cfg.tier.Wire()), V.NameKey(id.instrument) := Text(id.name)]
              + V.DimAttrs(id.dims);
            forall k :: k in a ==> k != CommandName && k != InstallId && k != ValueUnit
  {
  }

  lemma NamedIsPoint(cfg: Config, instrument: Instrument, name: string, tag: string, command: Option<string>,
                     ready: Option<string>)
    ensures var a: Attrs := map[TierKey := Text(cfg.tier.Wire()), V.NameKey(instrument) := Text(name)];
            var b := V.Put(V.Put(a, InstallId, V.InstallField(cfg.tier, ready)), V.LabelKey(instrument), NonEmpty(tag));
            V.Put(b, CommandName, V.TextField(command))
                  == V.PointAttrs(V.Identity(instrument, name, tag, "", map[]), cfg.tier, command, ready)
  {
    var id := V.Identity(instrument, name, tag, "", map[]);
    V.AssembledIsPointAttrs(id, cfg.tier, command, ready);
    V.ReorderPuts(V.Opening(id, cfg.tier), V.InstallField(cfg.tier, ready), V.LabelKey(instrument), NonEmpty(tag),
                  V.TextField(command));
    assert V.Opening(id, cfg.tier) == map[TierKey := Text(cfg.tier.Wire()), V.NameKey(instrument) := Text(name)];
  }

  /** `id` is the session ID as the code passes it around: empty below Basic. */
  predicate Passed(cfg: Config, s: State, id: string) {
    if cfg.Basic() then s.session == Some(id) else id == ""
  }

  lemma TierVisible(cfg: Config)
    ensures Visible(cfg.tier, TierField(cfg)) == map[TierKey := Text(cfg.tier.Wire())]
  {
  }

  lemma IdentityVisible(cfg: Config, s: State, id: string, attrs: Attrs)
    requires Passed(cfg, s, id)
    ensures attrs + Visible(cfg.tier, IdentityFields(cfg, s)) == WithIdentity(cfg, attrs, id)
  {
  }

  /** Identity and tier added to what is visible of the rest. */
  lemma IdentifiedVisible(cfg: Config, s: State, id: string, fields: Fields)
    requires Passed(cfg, s, id)
    requires SessionId !in fields && InstallId !in fields && TierKey !in fields
    ensures Visible(cfg.tier, fields + IdentityFields(cfg, s) + TierField(cfg)) ==
            WithTier(cfg, WithIdentity(cfg, Visible(cfg.tier, fields), id))
  {
    VisibleUnion(cfg.tier, fields, IdentityFields(cfg, s));
    VisibleUnion(cfg.tier, fields + IdentityFields(cfg, s), TierField(cfg));
    IdentityVisible(cfg, s, id, Visible(cfg.tier, fields));
    TierVisible(cfg);
  }

  lemma TieredVisible(cfg: Config, fields: Fields)
    requires TierKey !in fields
    ensures Visible(cfg.tier, fields + TierField(cfg)) == WithTier(cfg, Visible(cfg.tier, fields))
    ensures Visible(cfg.tier, TierField(cfg) + fields) == WithTier(cfg, Visible(cfg.tier, fields))
  {
    VisibleUnion(cfg.tier, fields, TierField(cfg));
    TierVisible(cfg);
    assert TierField(cfg) + fields == fields + TierField(cfg);
  }

  lemma MeasuredVisible(tier: Tier, f: SessionFacts)
    ensures Visible(tier, MeasuredFields(f)) == if tier.Allows(Basic) then MeasuredAttrs(f) else map[]
  {
  }

  lemma EnvironmentAt(tier: Tier, f: SessionFacts, k: Key)
    requires tier.Allows(Basic)
    ensures var v := Visible(tier, EnvironmentFields(f));
            && (k in v <==> k in EnvironmentAttrs(f))
            && (k in v ==> v[k] == EnvironmentAttrs(f)[k])
  {
  }

  lemma EnvironmentVisible(tier: Tier, f: SessionFacts)
    ensures Visible(tier, EnvironmentFields(f)) == if tier.Allows(Basic) then EnvironmentAttrs(f) else map[]
  {
    if tier.Allows(Basic) {
      forall k: Key
        ensures k in Visible(tier, EnvironmentFields(f)) <==> k in EnvironmentAttrs(f)
        ensures k in Visible(tier, EnvironmentFields(f)) ==>
                  Visible(tier, EnvironmentFields(f))[k] == EnvironmentAttrs(f)[k]
      {
        EnvironmentAt(tier, f, k);
      }
    }
  }

  lemma VendorVisible(tier: Tier, f: SessionFacts)
    ensures Visible(tier, VendorFields(f)) == if tier.Allows(Basic) then VendorAttrs(f) else map[]
  {
  }

  lemma StartVisible(cfg: Config, s: State, id: string)
    requires Passed(cfg, s, id)
    ensures Visible(cfg.tier, IdentityFields(cfg, s) + map[InstallMethod := NonEmpty(cfg.installMethod)]) ==
            var a := WithIdentity(cfg, map[], id);
            if cfg.installMethod != "" then a[InstallMethod := Text(cfg.installMethod)] else a
  {
    VisibleUnion(cfg.tier, IdentityFields(cfg, s), map[InstallMethod := NonEmpty(cfg.installMethod)]);
    IdentityVisible(cfg, s, id, map[]);
    assert map[] + Visible(cfg.tier, IdentityFields(cfg, s)) == Visible(cfg.tier, IdentityFields(cfg, s));
  }

  lemma SessionVisible(cfg: Config, s: State, f: SessionFacts, id: string, vendor: Attrs)
    requires vendor == if cfg.Basic() then VendorAttrs(f) else map[]
    requires Passed(cfg, s, id)
    ensures Visible(cfg.tier, SessionFields(cfg, s, f)) == WithTier(cfg, SessionAttrs(cfg, id, f, vendor))
  {
    var start: Fields := IdentityFields(cfg, s) + map[InstallMethod := NonEmpty(cfg.installMethod)];
    SessionKeys(cfg, s, f);
    StartVisible(cfg, s, id);
    VisibleUnions(cfg.tier, start, MeasuredFields(f), EnvironmentFields(f), VendorFields(f));
    MeasuredVisible(cfg.tier, f);
    EnvironmentVisible(cfg.tier, f);
    VendorVisible(cfg.tier, f);
    TieredVisible(cfg, start + MeasuredFields(f) + EnvironmentFields(f) + VendorFields(f));
  }

  lemma SessionKeys(cfg: Config, s: State, f: SessionFacts)
    ensures var start: Fields := IdentityFields(cfg, s) + map[InstallMethod := NonEmpty(cfg.installMethod)];
            start.Keys !! MeasuredFields(f).Keys !! EnvironmentFields(f).Keys !! VendorFields(f).Keys
    ensures TierKey !in IdentityFields(cfg, s) + map[InstallMethod := NonEmpty(cfg.installMethod)] + MeasuredFields(f)
              + EnvironmentFields(f) + VendorFields(f)
  {
  }

  function SessionAfter(cfg: Config, s: State, drawn: string): Option<string> {
    if cfg.Basic() then s.session.Or(Some(drawn)) else s.session
  }

  /** A job that emits what the call describes is the job the call queues. */
  lemma JobQueued(cfg: Config, s: State, marked: State, c: Call, drawn: string, job: Job)
    requires !s.closed && !c.Vendor? && !c.SetKnown? && !Ignored(cfg, s, c)
    requires marked == Marked(cfg, s, c, drawn)
    requires var records := Emitted(cfg.tier, Declares(cfg, marked, c));
             records != [] && JobBatch(cfg, job) == Batch(records, cfg.Basic() && CarriesIdentity(c))
    ensures Perform(cfg, s, c, drawn) == Enqueue(cfg, marked, JobBatch(cfg, job))
  {
  }

  /** The same for a call that leaves no marks. */
  lemma PlainQueued(cfg: Config, s: State, c: Call, job: Job)
    requires !s.closed && (c.Unknown? || c.Help? || (c.FailedInDetail? && c.message.Some?))
    requires var records := Emitted(cfg.tier, Declares(cfg, s, c));
             records != [] && JobBatch(cfg, job) == Batch(records, false)
    ensures Perform(cfg, s, c, "") == Enqueue(cfg, s, JobBatch(cfg, job))
  {
    JobQueued(cfg, s, s, c, "", job);
  }

  lemma SessionQueued(cfg: Config, s: State, marked: State, f: SessionFacts, drawn: string, id: string, vendor: Attrs)
    requires !s.closed && !s.sessionOn && Passed(cfg, marked, id)
    requires marked == s.(sessionOn := true, session := SessionAfter(cfg, s, drawn))
    requires vendor == if cfg.Basic() then VendorAttrs(f) else map[]
    ensures Perform(cfg, s, SessionStart(f), drawn) == Enqueue(cfg, marked, JobBatch(cfg, EmitSession(id, f, vendor)))
  {
    SessionBatch(cfg, marked, f, id, vendor);
    JobQueued(cfg, s, marked, SessionStart(f), drawn, EmitSession(id, f, vendor));
  }

  lemma InvocationQueued(cfg: Config, s: State, marked: State, path: string, flags: seq<string>, drawn: string,
                         id: string)
    requires !s.closed && Passed(cfg, marked, id)
    requires marked == s.(command := Some(cfg.Named(path)), session := SessionAfter(cfg, s, drawn))
    ensures var job := EmitIdentified(CommandInvoked, InvocationAttrs(cfg, cfg.Named(path), flags), id);
            Perform(cfg, s, Invocation(path, flags), drawn) == Enqueue(cfg, marked, JobBatch(cfg, job))
  {
    InvocationBatch(cfg, marked, path, flags, id);
    JobQueued(cfg, s, marked, Invocation(path, flags), drawn,
              EmitIdentified(CommandInvoked, InvocationAttrs(cfg, cfg.Named(path), flags), id));
  }

  lemma ErrorQueued(cfg: Config, s: State, marked: State, path: string, category: string, reason: string,
                    drawn: string, id: string)
    requires !s.closed && Passed(cfg, marked, id)
    requires marked == s.(session := SessionAfter(cfg, s, drawn))
    ensures var attrs := ErrorAttrs(cfg, cfg.Named(path), category, reason);
            Perform(cfg, s, Failed(path, category, reason), drawn)
              == Enqueue(cfg, marked, JobBatch(cfg, EmitError(WithTier(cfg, attrs), attrs, id)))
  {
    var attrs := ErrorAttrs(cfg, cfg.Named(path), category, reason);
    ErrorBatch(cfg, marked, path, category, reason, id);
    JobQueued(cfg, s, marked, Failed(path, category, reason), drawn, EmitError(WithTier(cfg, attrs), attrs, id));
  }

  lemma SessionBatch(cfg: Config, s: State, f: SessionFacts, id: string, vendor: Attrs)
    requires vendor == if cfg.Basic() then VendorAttrs(f) else map[]
    requires Passed(cfg, s, id)
    ensures JobBatch(cfg, EmitSession(id, f, vendor))
              == Batch(Emitted(cfg.tier, Declares(cfg, s, SessionStart(f))), cfg.Basic())
  {
    SessionVisible(cfg, s, f, id, vendor);
    EmittedOne(cfg.tier, Declares(cfg, s, SessionStart(f))[0]);
  }

  lemma InvocationBatch(cfg: Config, s: State, path: string, flags: seq<string>, id: string)
    requires Passed(cfg, s, id)
    ensures JobBatch(cfg, EmitIdentified(CommandInvoked, InvocationAttrs(cfg, cfg.Named(path), flags), id)) ==
            Batch(Emitted(cfg.tier, Declares(cfg, s, Invocation(path, flags))), cfg.Basic())
  {
    InvocationVisible(cfg, cfg.Named(path), flags);
    IdentifiedVisible(cfg, s, id, InvocationFields(cfg.Named(path), flags));
    EmittedOne(cfg.tier, Declares(cfg, s, Invocation(path, flags))[0]);
  }

  lemma InvocationVisible(cfg: Config, name: string, flags: seq<string>)
    ensures Visible(cfg.tier, InvocationFields(name, flags)) == InvocationAttrs(cfg, name, flags)
  {
  }

  lemma OutcomeVisible(cfg: Config, name: string, exitCode: int, duration: int)
    ensures Visible(cfg.tier, OutcomeFields(name, exitCode)) == OutcomeAttrs(name, exitCode)
    ensures Visible(cfg.tier, CompletedFields(name, exitCode, duration)) ==
            CompletedAttrs(name, exitCode, NonNegative(duration))
  {
  }

  lemma SpanVisible(cfg: Config, name: string, exitCode: int, duration: int, flags: seq<string>, peakRss: int,
                    cpuTime: int)
    ensures Visible(cfg.tier,
                    TierField(cfg) + CompletedFields(name, exitCode, duration) + UsageFields(flags, peakRss, cpuTime))
         == SpanAttrs(cfg, name, exitCode, NonNegative(duration), flags, peakRss, cpuTime)
  {
    OutcomeVisible(cfg, name, exitCode, duration);
    TieredVisible(cfg, CompletedFields(name, exitCode, duration));
    VisibleUnion(cfg.tier, TierField(cfg) + CompletedFields(name, exitCode, duration),
                 UsageFields(flags, peakRss, cpuTime));
    UsageVisible(cfg.tier, flags, peakRss, cpuTime);
  }

  lemma UsageVisible(tier: Tier, flags: seq<string>, peakRss: int, cpuTime: int)
    ensures Visible(tier, UsageFields(flags, peakRss, cpuTime))
              == if tier.Allows(Basic) then UsageAttrs(flags, peakRss, cpuTime) else map[]
  {
  }

  lemma CommandBatch(cfg: Config, s: State, path: string, flags: seq<string>, exitCode: int, duration: int,
                     peakRss: int, cpuTime: int, id: string)
    requires Passed(cfg, s, id)
    ensures var name, d := cfg.Named(path), NonNegative(duration);
            JobBatch(cfg, EmitCommand(name, exitCode, d, WithTier(cfg, OutcomeAttrs(name, exitCode)),
                                      SpanAttrs(cfg, name, exitCode, d, flags, peakRss, cpuTime), id)) ==
            Batch(Emitted(cfg.tier, Declares(cfg, s, CommandDone(path, flags, exitCode, duration, peakRss, cpuTime))),
                  cfg.Basic())
  {
    var name := cfg.Named(path);
    var d := Declares(cfg, s, CommandDone(path, flags, exitCode, duration, peakRss, cpuTime));
    EmittedFour(cfg.tier, d[0], d[1], d[2], d[3]);
    EmittedOne(cfg.tier, d[0]);
    EmittedOne(cfg.tier, d[1]);
    EmittedOne(cfg.tier, d[2]);
    EmittedOne(cfg.tier, d[3]);
    CommandVisible(cfg, s, name, flags, exitCode, duration, peakRss, cpuTime, id);
  }

  lemma SpanBuilt(cfg: Config, name: string, exitCode: int, duration: nat)
    ensures var attrs: Attrs := map[CommandName := Text(name), ExitCode := Number(exitCode),
                                    TierKey := Text(cfg.tier.Wire())];
            && attrs == WithTier(cfg, OutcomeAttrs(name, exitCode))
            && attrs[DurationMs := Number(duration / 1_000_000)]
                  == WithTier(cfg, CompletedAttrs(name, exitCode, duration))
  {
  }

  lemma CommandQueued(cfg: Config, s: State, marked: State, c: Call, drawn: string, id: string, attrs: Attrs,
                      spanAttrs: Attrs)
    requires c.CommandDone? && !s.closed && Passed(cfg, marked, id)
    requires marked == s.(session := SessionAfter(cfg, s, drawn))
    requires attrs == map[CommandName := Text(cfg.Named(c.path)), ExitCode := Number(c.exitCode),
                          TierKey := Text(cfg.tier.Wire())]
    requires var timed := attrs[DurationMs := Number(NonNegative(c.duration) / 1_000_000)];
             spanAttrs == if cfg.Basic() then timed + UsageAttrs(c.flags, c.peakRss, c.cpuTime) else timed
    ensures var job := EmitCommand(cfg.Named(c.path), c.exitCode, NonNegative(c.duration), attrs, spanAttrs, id);
            Perform(cfg, s, c, drawn) == Enqueue(cfg, marked, JobBatch(cfg, job))
  {
    CommandBatch(cfg, marked, c.path, c.flags, c.exitCode, c.duration, c.peakRss, c.cpuTime, id);
    SpanBuilt(cfg, cfg.Named(c.path), c.exitCode, NonNegative(c.duration));
    JobQueued(cfg, s, marked, c, drawn,
              EmitCommand(cfg.Named(c.path), c.exitCode, NonNegative(c.duration), attrs, spanAttrs, id));
  }

  lemma CommandVisible(cfg: Config, s: State, name: string, flags: seq<string>, exitCode: int, duration: int,
                       peakRss: int, cpuTime: int, id: string)
    requires Passed(cfg, s, id)
    ensures Visible(cfg.tier, TierField(cfg) + OutcomeFields(name, exitCode))
              == WithTier(cfg, OutcomeAttrs(name, exitCode))
    ensures Visible(cfg.tier,
                    TierField(cfg) + CompletedFields(name, exitCode, duration) + UsageFields(flags, peakRss, cpuTime))
         == SpanAttrs(cfg, name, exitCode, NonNegative(duration), flags, peakRss, cpuTime)
    ensures Visible(cfg.tier, CompletedFields(name, exitCode, duration) + IdentityFields(cfg, s) + TierField(cfg))
         == WithTier(cfg, WithIdentity(cfg, CompletedAttrs(name, exitCode, NonNegative(duration)), id))
  {
    SpanVisible(cfg, name, exitCode, duration, flags, peakRss, cpuTime);
    OutcomeVisible(cfg, name, exitCode, duration);
    TieredVisible(cfg, OutcomeFields(name, exitCode));
    IdentifiedVisible(cfg, s, id, CompletedFields(name, exitCode, duration));
  }

  lemma FeatureBelowBasic(cfg: Config, s: State, feature: string, drawn: string)
    requires s.closed || !cfg.Basic()
    ensures Perform(cfg, s, FeatureUsed(feature), drawn) == if s.closed then s else s.(belowTier := s.belowTier + 1)
  {
    EmittedOne(cfg.tier, Declares(cfg, Marked(cfg, s, FeatureUsed(feature), drawn), FeatureUsed(feature))[0]);
  }

  lemma FeatureIgnored(cfg: Config, s: State, feature: string, drawn: string)
    requires cfg.Basic()
    requires var cut := Utf8.Truncated(feature, MAX_FEATURE_LENGTH); cut == "" || cut in s.activated
    ensures Perform(cfg, s, FeatureUsed(feature), drawn) == s
  {
  }

  /** `marked` is the client when the event is about to be queued. */
  lemma FeatureQueued(cfg: Config, s: State, marked: State, feature: string, drawn: string, id: string)
    requires !s.closed && cfg.Basic()
    requires var cut := Utf8.Truncated(feature, MAX_FEATURE_LENGTH);
             && cut != "" && cut !in s.activated
             && marked == s.(activated := s.activated + {cut}, session := s.session.Or(Some(drawn)))
    requires marked.session == Some(id)
    ensures var attrs := FeatureAttrs(Utf8.Truncated(feature, MAX_FEATURE_LENGTH), s.command);
            Perform(cfg, s, FeatureUsed(feature), drawn)
              == Enqueue(cfg, marked, JobBatch(cfg, EmitIdentified(FeatureActivated, attrs, id)))
  {
    assert marked == Marked(cfg, s, FeatureUsed(feature), drawn);
    FeatureBatch(cfg, marked, feature, id);
  }

  lemma FeatureVisible(cfg: Config, feature: string, command: Option<string>)
    requires cfg.Basic()
    ensures Visible(cfg.tier, FeatureFields(feature, command)) ==
            FeatureAttrs(Utf8.Truncated(feature, MAX_FEATURE_LENGTH), command)
  {
  }

  lemma FeatureBatch(cfg: Config, s: State, feature: string, id: string)
    requires cfg.Basic() && Passed(cfg, s, id)
    ensures JobBatch(cfg,
                     EmitIdentified(FeatureActivated,
                                    FeatureAttrs(Utf8.Truncated(feature, MAX_FEATURE_LENGTH), s.command), id)) ==
            Batch(Emitted(cfg.tier, Declares(cfg, s, FeatureUsed(feature))), true)
  {
    FeatureVisible(cfg, feature, s.command);
    IdentifiedVisible(cfg, s, id, FeatureFields(feature, s.command));
    EmittedOne(cfg.tier, Declares(cfg, s, FeatureUsed(feature))[0]);
  }

  lemma UnknownBatch(cfg: Config, s: State, suggestion: string, attrs: Attrs)
    requires attrs == Visible(cfg.tier,
                              map[Suggestion := NonEmpty(CommandNames.KnownCommand(cfg.cliName, s.known, suggestion))])
    ensures JobBatch(cfg, EmitPlain(CommandUnknown, attrs)) ==
            Batch(Emitted(cfg.tier, Declares(cfg, s, Unknown(suggestion))), false)
  {
    TieredVisible(cfg, map[Suggestion := NonEmpty(CommandNames.KnownCommand(cfg.cliName, s.known, suggestion))]);
    EmittedOne(cfg.tier, Declares(cfg, s, Unknown(suggestion))[0]);
  }

  lemma HelpBatch(cfg: Config, s: State, path: string)
    ensures JobBatch(cfg, EmitPlain(HelpViewed, map[CommandName := Text(cfg.Named(path)), HelpFlag := Text("help")])) ==
            Batch(Emitted(cfg.tier, Declares(cfg, s, Help(path))), false)
  {
    var fields: Fields := map[CommandName := Plain(cfg.Named(path)), HelpFlag := Plain("help")];
    assert Visible(cfg.tier, fields) == map[CommandName := Text(cfg.Named(path)), HelpFlag := Text("help")];
    TieredVisible(cfg, fields);
    EmittedOne(cfg.tier, Declares(cfg, s, Help(path))[0]);
  }

  lemma ErrorVisible(cfg: Config, name: string, category: string, reason: string)
    ensures Visible(cfg.tier, ErrorFields(name, category, reason)) == ErrorAttrs(cfg, name, category, reason)
  {
  }

  lemma ErrorBatch(cfg: Config, s: State, path: string, category: string, reason: string, id: string)
    requires Passed(cfg, s, id)
    ensures var attrs := ErrorAttrs(cfg, cfg.Named(path), category, reason);
            JobBatch(cfg, EmitError(WithTier(cfg, attrs), attrs, id)) ==
            Batch(Emitted(cfg.tier, Declares(cfg, s, Failed(path, category, reason))), cfg.Basic())
  {
    var d := Declares(cfg, s, Failed(path, category, reason));
    EmittedTwo(cfg.tier, d[0], d[1]);
    EmittedOne(cfg.tier, d[0]);
    EmittedOne(cfg.tier, d[1]);
    ErrorVisibles(cfg, s, cfg.Named(path), category, reason, id);
  }

  lemma ErrorVisibles(cfg: Config, s: State, name: string, category: string, reason: string, id: string)
    requires Passed(cfg, s, id)
    ensures var fields, attrs := ErrorFields(name, category, reason), ErrorAttrs(cfg, name, category, reason);
            && Visible(cfg.tier, fields + TierField(cfg)) == WithTier(cfg, attrs)
            && Visible(cfg.tier, fields + IdentityFields(cfg, s) + TierField(cfg))
                  == WithTier(cfg, WithIdentity(cfg, attrs, id))
  {
    ErrorVisible(cfg, name, category, reason);
    TieredVisible(cfg, ErrorFields(name, category, reason));
    IdentifiedVisible(cfg, s, id, ErrorFields(name, category, reason));
  }

  lemma DetailBelowOptIn(cfg: Config, s: State, path: string, message: Option<string>, stack: string)
    ensures cfg.tier != OptIn ==> Emitted(cfg.tier, Declares(cfg, s, FailedInDetail(path, message, stack))) == []
  {
    EmittedOne(cfg.tier, Declares(cfg, s, FailedInDetail(path, message, stack))[0]);
  }

  lemma DetailVisible(name: string, message: string, stack: string)
    ensures Visible(OptIn, DetailFields(name, Some(message), stack)) == DetailAttrs(name, message, stack)
  {
  }

  lemma DetailBatch(cfg: Config, s: State, path: string, message: string, stack: string)
    requires cfg.tier == OptIn
    ensures JobBatch(cfg, EmitPlain(ErrorRaised, DetailAttrs(cfg.Named(path), message, stack))) ==
            Batch(Emitted(cfg.tier, Declares(cfg, s, FailedInDetail(path, Some(message), stack))), false)
  {
    DetailVisible(cfg.Named(path), message, stack);
    TieredVisible(cfg, DetailFields(cfg.Named(path), Some(message), stack));
    EmittedOne(cfg.tier, Declares(cfg, s, FailedInDetail(path, Some(message), stack))[0]);
  }
}
