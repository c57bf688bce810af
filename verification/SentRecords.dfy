/** What each call leaves behind, spelled out: for every call the whole next state, with the records
    to be sent as lists of literal attributes. Nothing of the way TaxonomySpec or the client get
    there is used: neither the tiers of the keys, nor their helper functions, nor their constants. */
module SentRecords {
  import opened Wrappers
  import opened Signals
  import opened TaxonomySpec
  import CommandNames
  import Utf8
  import V = VendorMetrics

  /** Attributes some of which may be missing. */
  function Present(fields: map<Key, Option<Value>>): Attrs {
    map k | k in fields && fields[k].Some? :: fields[k].value
  }

  /** The value of an attribute that is there only under a condition. */
  function When(condition: bool, value: Value): Option<Value> {
    if condition then Some(value) else None
  }

  predicate Named(cfg: Config) {
    cfg.tier != Anonymous
  }

  /** A job joins the queue if there is room for it, else it is counted. */
  function Queue(cfg: Config, s: State, b: Batch): State {
    if |s.pending| >= cfg.queueSize then s.(overflow := s.overflow + 1) else s.(pending := s.pending + [b])
  }

  /** The client once a call that carries identities has made sure of its session ID. */
  function InSession(cfg: Config, s: State, drawn: string): State {
    if Named(cfg) && s.session.None? then s.(session := Some(drawn)) else s
  }

  function SessionText(cfg: Config, s: State, drawn: string): Option<Value> {
    var id := InSession(cfg, s, drawn).session;
    if Named(cfg) && id.Some? && id.value != "" then Some(Text(id.value)) else None
  }

  function InstallText(cfg: Config): Option<Value> {
    When(Named(cfg) && cfg.installSource != "", Text(cfg.installSource))
  }

  // ----- from descriptions to attributes

  lemma ShownAsSent(tier: Tier, fields: Fields, sent: map<Key, Option<Value>>)
    requires fields.Keys == sent.Keys
    requires forall k: Key :: k in sent ==> sent[k] == if tier.Allows(k.MinTier()) then fields[k] else None
    ensures Visible(tier, fields) == Present(sent)
  {
  }

  lemma PresentUnion(a: map<Key, Option<Value>>, b: map<Key, Option<Value>>)
    requires a.Keys !! b.Keys
    ensures Present(a + b) == Present(a) + Present(b)
  {
  }

  lemma QueueIsEnqueue(cfg: Config, s: State, b: Batch)
    ensures Queue(cfg, s, b) == Enqueue(cfg, s, b)
  {
  }

  /** The identity and the tier of a record. */
  function IdsAndTier(cfg: Config, s: State, drawn: string): map<Key, Option<Value>> {
    map[SessionId := SessionText(cfg, s, drawn),
        InstallId := InstallText(cfg),
        TierKey := Some(Text(cfg.tier.Wire()))]
  }

  lemma BasicMeansNamed(cfg: Config)
    ensures cfg.Basic() <==> Named(cfg)
  {
  }

  lemma IdsShown(cfg: Config, s: State, marked: State, drawn: string)
    requires marked.session == InSession(cfg, s, drawn).session
    ensures Visible(cfg.tier, IdentityFields(cfg, marked))
         == Present(map[SessionId := SessionText(cfg, s, drawn), InstallId := InstallText(cfg)])
  {
    ShownAsSent(cfg.tier, IdentityFields(cfg, marked),
                map[SessionId := SessionText(cfg, s, drawn), InstallId := InstallText(cfg)]);
  }

  lemma TierShown(cfg: Config)
    ensures Visible(cfg.tier, TierField(cfg)) == Present(map[TierKey := Some(Text(cfg.tier.Wire()))])
  {
    ShownAsSent(cfg.tier, TierField(cfg), map[TierKey := Some(Text(cfg.tier.Wire()))]);
  }

  lemma IdsAndTierShown(cfg: Config, s: State, marked: State, drawn: string)
    requires marked.session == InSession(cfg, s, drawn).session
    ensures Visible(cfg.tier, IdentityFields(cfg, marked)) + Visible(cfg.tier, TierField(cfg))
         == Present(IdsAndTier(cfg, s, drawn))
  {
    IdsShown(cfg, s, marked, drawn);
    TierShown(cfg);
    var ids: map<Key, Option<Value>> := map[SessionId := SessionText(cfg, s, drawn), InstallId := InstallText(cfg)];
    var tier: map<Key, Option<Value>> := map[TierKey := Some(Text(cfg.tier.Wire()))];
    PresentUnion(ids, tier);
    assert IdsAndTier(cfg, s, drawn) == ids + tier;
  }

  predicate NoIdentity(fields: map<Key, Option<Value>>) {
    SessionId !in fields && InstallId !in fields && TierKey !in fields
  }

  /** A description with identities and tier, as sent. */
  lemma IdentifiedShown(cfg: Config, s: State, marked: State, drawn: string, fields: Fields,
                        sent: map<Key, Option<Value>>)
    requires marked.session == InSession(cfg, s, drawn).session
    requires Visible(cfg.tier, fields) == Present(sent)
    requires NoIdentity(fields) && NoIdentity(sent)
    ensures Visible(cfg.tier, fields + IdentityFields(cfg, marked) + TierField(cfg))
         == Present(sent + IdsAndTier(cfg, s, drawn))
    ensures Visible(cfg.tier, IdentityFields(cfg, marked) + fields + TierField(cfg))
         == Present(sent + IdsAndTier(cfg, s, drawn))
  {
    IdsAndTierShown(cfg, s, marked, drawn);
    ThreeParts(cfg.tier, fields, IdentityFields(cfg, marked), TierField(cfg), sent, IdsAndTier(cfg, s, drawn));
  }

  lemma ThreeParts(tier: Tier, fields: Fields, ids: Fields, tiers: Fields, sent: map<Key, Option<Value>>,
                   rest: map<Key, Option<Value>>)
    requires fields.Keys !! ids.Keys !! tiers.Keys && sent.Keys !! rest.Keys
    requires Visible(tier, fields) == Present(sent) && Visible(tier, ids) + Visible(tier, tiers) == Present(rest)
    ensures Visible(tier, fields + ids + tiers) == Visible(tier, ids + fields + tiers) == Present(sent + rest)
  {
    VisibleUnion(tier, fields, ids);
    VisibleUnion(tier, fields + ids, tiers);
    PresentUnion(sent, rest);
    assert ids + fields == fields + ids;
    Regroup(Visible(tier, fields), Visible(tier, ids), Visible(tier, tiers));
  }

  lemma Regroup(a: Attrs, b: Attrs, c: Attrs)
    ensures a + b + c == a + (b + c)
  {
  }

  /** A description with the tier, as sent. */
  lemma TieredShown(cfg: Config, fields: Fields, sent: map<Key, Option<Value>>)
    requires Visible(cfg.tier, fields) == Present(sent) && TierKey !in fields && TierKey !in sent
    ensures Visible(cfg.tier, fields + TierField(cfg)) == Present(sent + map[TierKey := Some(Text(cfg.tier.Wire()))])
    ensures Visible(cfg.tier, TierField(cfg) + fields) == Present(sent + map[TierKey := Some(Text(cfg.tier.Wire()))])
  {
    var tier: map<Key, Option<Value>> := map[TierKey := Some(Text(cfg.tier.Wire()))];
    VisibleUnion(cfg.tier, fields, TierField(cfg));
    PresentUnion(sent, tier);
    ShownAsSent(cfg.tier, TierField(cfg), tier);
    assert TierField(cfg) + fields == fields + TierField(cfg);
  }

  // ----- session start

  function SentBuild(cfg: Config, f: SessionFacts): map<Key, Option<Value>> {
    var named := Named(cfg);
    map[BinarySizeBytes :=
          if named && f.binarySize.Some? && f.binarySize.value > 0 then Some(Number(f.binarySize.value)) else None,
        StartupMs := When(named && f.startupMs >= 0, Number(f.startupMs))]
  }

  function SentEnvironment(cfg: Config, f: SessionFacts): map<Key, Option<Value>> {
    var named := Named(cfg);
    map[Shell := if named && f.shell.Some? then Some(Text(f.shell.value)) else None,
        Terminal := When(named, Text(f.terminal)),
        StdoutIsTty := if named && f.stdoutIsTty.Some? then Some(Truth(f.stdoutIsTty.value)) else None,
        RuntimeName := When(named, Text("go")),
        RuntimeVersion := if named && f.runtimeVersion.Some? then Some(Text(f.runtimeVersion.value)) else None]
  }

  function SentVendorFacts(cfg: Config, f: SessionFacts): map<Key, Option<Value>> {
    var named := Named(cfg);
    map[ConfigCustomizedCount :=
          if !named || !f.configCount.Returns? then None
          else if f.configCount.value < 0 then Some(Number(0))
          else if f.configCount.value > 1000 then Some(Number(1000))
          else Some(Number(f.configCount.value)),
        AuthState :=
          if named && f.authState.Returns? && f.authState.value in {"authenticated", "anonymous", "unknown"}
          then Some(Text(f.authState.value))
          else None]
  }

  function SentMethod(cfg: Config): map<Key, Option<Value>> {
    map[InstallMethod := When(cfg.installMethod != "", Text(cfg.installMethod))]
  }

  lemma MethodShown(cfg: Config)
    ensures Visible(cfg.tier, map[InstallMethod := NonEmpty(cfg.installMethod)]) == Present(SentMethod(cfg))
  {
    ShownAsSent(cfg.tier, map[InstallMethod := NonEmpty(cfg.installMethod)], SentMethod(cfg));
  }

  lemma BuildShown(cfg: Config, f: SessionFacts)
    ensures Visible(cfg.tier, MeasuredFields(f)) == Present(SentBuild(cfg, f))
  {
    ShownAsSent(cfg.tier, MeasuredFields(f), SentBuild(cfg, f));
  }

  lemma VendorFactsShown(cfg: Config, f: SessionFacts)
    ensures Visible(cfg.tier, VendorFields(f)) == Present(SentVendorFacts(cfg, f))
  {
    ShownAsSent(cfg.tier, VendorFields(f), SentVendorFacts(cfg, f));
  }

  lemma EnvironmentShown(cfg: Config, f: SessionFacts)
    ensures Visible(cfg.tier, EnvironmentFields(f)) == Present(SentEnvironment(cfg, f))
  {
    ShownAsSent(cfg.tier, EnvironmentFields(f), SentEnvironment(cfg, f));
  }

  lemma PresentUnions(a: map<Key, Option<Value>>, b: map<Key, Option<Value>>, c: map<Key, Option<Value>>,
                      d: map<Key, Option<Value>>)
    requires a.Keys !! b.Keys !! c.Keys !! d.Keys
    ensures Present(a + b + c + d) == Present(a) + Present(b) + Present(c) + Present(d)
  {
    PresentUnion(a, b);
    PresentUnion(a + b, c);
    PresentUnion(a + b + c, d);
  }

  lemma FactsAreSeparate(cfg: Config, f: SessionFacts)
    ensures map[InstallMethod := NonEmpty(cfg.installMethod)].Keys
         !! MeasuredFields(f).Keys !! EnvironmentFields(f).Keys !! VendorFields(f).Keys
  {
  }

  lemma SentFactsAreSeparate(cfg: Config, f: SessionFacts)
    ensures SentMethod(cfg).Keys
         !! SentBuild(cfg, f).Keys !! SentEnvironment(cfg, f).Keys !! SentVendorFacts(cfg, f).Keys
  {
  }

  /** What a session start says about the CLI and its surroundings. */
  function SentFacts(cfg: Config, f: SessionFacts): map<Key, Option<Value>> {
    SentMethod(cfg) + SentBuild(cfg, f) + SentEnvironment(cfg, f) + SentVendorFacts(cfg, f)
  }

  lemma AllFactsShown(cfg: Config, f: SessionFacts)
    ensures var installed: Fields := map[InstallMethod := NonEmpty(cfg.installMethod)];
            Visible(cfg.tier, installed + MeasuredFields(f) + EnvironmentFields(f) + VendorFields(f))
              == Present(SentFacts(cfg, f))
  {
    var installed: Fields := map[InstallMethod := NonEmpty(cfg.installMethod)];
    MethodShown(cfg);
    BuildShown(cfg, f);
    VendorFactsShown(cfg, f);
    EnvironmentShown(cfg, f);
    FactsAreSeparate(cfg, f);
    SentFactsAreSeparate(cfg, f);
    VisibleUnions(cfg.tier, installed, MeasuredFields(f), EnvironmentFields(f), VendorFields(f));
    PresentUnions(SentMethod(cfg), SentBuild(cfg, f), SentEnvironment(cfg, f), SentVendorFacts(cfg, f));
  }

  lemma NoIdentityInSum(a: map<Key, Option<Value>>, b: map<Key, Option<Value>>, c: map<Key, Option<Value>>,
                        d: map<Key, Option<Value>>)
    requires NoIdentity(a) && NoIdentity(b) && NoIdentity(c) && NoIdentity(d)
    ensures NoIdentity(a + b + c + d)
  {
  }

  lemma FactsHaveNoIdentity(cfg: Config, f: SessionFacts)
    ensures NoIdentity(map[InstallMethod := NonEmpty(cfg.installMethod)] + MeasuredFields(f) + EnvironmentFields(f)
                       + VendorFields(f))
  {
    NoIdentityInSum(map[InstallMethod := NonEmpty(cfg.installMethod)], MeasuredFields(f), EnvironmentFields(f),
                    VendorFields(f));
  }

  lemma SentFactsHaveNoIdentity(cfg: Config, f: SessionFacts)
    ensures NoIdentity(SentFacts(cfg, f))
  {
    NoIdentityInSum(SentMethod(cfg), SentBuild(cfg, f), SentEnvironment(cfg, f), SentVendorFacts(cfg, f));
  }

  lemma FourInFront(i: Fields, a: Fields, b: Fields, c: Fields, d: Fields)
    ensures i + a + b + c + d == i + (a + b + c + d)
  {
  }

  lemma SessionShown(cfg: Config, s: State, marked: State, drawn: string, f: SessionFacts)
    requires marked.session == InSession(cfg, s, drawn).session
    ensures Visible(cfg.tier, SessionFields(cfg, marked, f))
         == Present(SentFacts(cfg, f) + IdsAndTier(cfg, s, drawn))
  {
    var installed: Fields := map[InstallMethod := NonEmpty(cfg.installMethod)];
    AllFactsShown(cfg, f);
    FourInFront(IdentityFields(cfg, marked), installed, MeasuredFields(f), EnvironmentFields(f), VendorFields(f));
    FactsHaveNoIdentity(cfg, f);
    SentFactsHaveNoIdentity(cfg, f);
    IdentifiedShown(cfg, s, marked, drawn, installed + MeasuredFields(f) + EnvironmentFields(f) + VendorFields(f),
                    SentFacts(cfg, f));
  }

  /** The first session start of an open client: one event. At Anonymous it carries the tier and the
      install method alone. */
  lemma SessionStartSends(cfg: Config, s: State, f: SessionFacts, drawn: string)
    ensures var event := Record(Event(SessionStarted), Present(SentFacts(cfg, f) + IdsAndTier(cfg, s, drawn)));
            Perform(cfg, s, SessionStart(f), drawn)
              == if s.closed || s.sessionOn then s
                 else Queue(cfg, InSession(cfg, s, drawn).(sessionOn := true), Batch([event], Named(cfg)))
  {
    var marked := Marked(cfg, s, SessionStart(f), drawn);
    SessionShown(cfg, s, marked, drawn, f);
    EmittedOne(cfg.tier, Declares(cfg, marked, SessionStart(f))[0]);
    BasicMeansNamed(cfg);
  }

  // ----- commands

  function SentInvocation(cfg: Config, name: string, flags: seq<string>): map<Key, Option<Value>> {
    map[CommandName := Some(Text(name)), FlagNames := When(Named(cfg) && flags != [], Texts(flags))]
  }

  lemma InvocationShown(cfg: Config, name: string, flags: seq<string>)
    ensures Visible(cfg.tier, InvocationFields(name, flags)) == Present(SentInvocation(cfg, name, flags))
  {
    ShownAsSent(cfg.tier, InvocationFields(name, flags), SentInvocation(cfg, name, flags));
  }

  lemma InvocationEmits(cfg: Config, s: State, marked: State, path: string, flags: seq<string>, drawn: string)
    requires marked.session == InSession(cfg, s, drawn).session
    ensures var sent := SentInvocation(cfg, CommandNames.CommandName(cfg.cliName, path), flags);
            Emitted(cfg.tier, Declares(cfg, marked, Invocation(path, flags)))
              == [Record(Event(CommandInvoked), Present(sent + IdsAndTier(cfg, s, drawn)))]
  {
    var name := CommandNames.CommandName(cfg.cliName, path);
    InvocationShown(cfg, name, flags);
    IdentifiedShown(cfg, s, marked, drawn, InvocationFields(name, flags), SentInvocation(cfg, name, flags));
    EmittedOne(cfg.tier, Declares(cfg, marked, Invocation(path, flags))[0]);
  }

  /** One event under the command's name, which becomes the current one; flag names and identities
      from Basic on. */
  lemma InvocationSends(cfg: Config, s: State, path: string, flags: seq<string>, drawn: string)
    ensures var name := CommandNames.CommandName(cfg.cliName, path);
            var event := Record(Event(CommandInvoked),
                                Present(SentInvocation(cfg, name, flags) + IdsAndTier(cfg, s, drawn)));
            Perform(cfg, s, Invocation(path, flags), drawn)
              == if s.closed then s
                 else Queue(cfg, InSession(cfg, s, drawn).(command := Some(name)), Batch([event], Named(cfg)))
  {
    InvocationEmits(cfg, s, Marked(cfg, s, Invocation(path, flags), drawn), path, flags, drawn);
    BasicMeansNamed(cfg);
  }

  /** A duration in the given unit; a negative one counts as none. */
  function Whole(duration: int, unit: nat): nat
    requires unit > 0
  {
    if duration < 0 then 0 else duration / unit
  }

  function SentOutcome(cfg: Config, path: string, exitCode: int): map<Key, Option<Value>> {
    map[CommandName := Some(Text(CommandNames.CommandName(cfg.cliName, path))), ExitCode := Some(Number(exitCode))]
  }

  function SentDuration(duration: int): map<Key, Option<Value>> {
    map[DurationMs := Some(Number(Whole(duration, 1_000_000)))]
  }

  function SentUsage(cfg: Config, flags: seq<string>, peakRss: int, cpuTime: int): map<Key, Option<Value>> {
    map[FlagNames := When(Named(cfg) && flags != [], Texts(flags)),
        PeakRssBytes := When(Named(cfg) && peakRss > 0, Number(peakRss)),
        CpuTimeMs := When(Named(cfg) && cpuTime > 0, Number(cpuTime))]
  }

  function SentTier(cfg: Config): map<Key, Option<Value>> {
    map[TierKey := Some(Text(cfg.tier.Wire()))]
  }

  /** A span, failed exactly for an exit code that is not 0; one invocation; the latency in
      microseconds; and the event. The duration is in whole milliseconds on span and event. */
  function SentCommand(cfg: Config, s: State, path: string, flags: seq<string>, exitCode: int, duration: int,
                       peakRss: int, cpuTime: int, drawn: string): seq<Record> {
    var name := CommandNames.CommandName(cfg.cliName, path);
    var outcome := SentOutcome(cfg, path, exitCode);
    [Record(Span(name, if exitCode == 0 then false else true),
            Present(outcome + SentDuration(duration) + SentUsage(cfg, flags, peakRss, cpuTime) + SentTier(cfg))),
     Record(Point(Invocations, Count(1)), Present(outcome + SentTier(cfg))),
     Record(Point(Latency, Micros(Whole(duration, 1000))), Present(outcome + SentTier(cfg))),
     Record(Event(CommandCompleted), Present(outcome + SentDuration(duration) + IdsAndTier(cfg, s, drawn)))]
  }

  lemma OutcomeShown(cfg: Config, path: string, exitCode: int, duration: int)
    ensures var name := CommandNames.CommandName(cfg.cliName, path);
            && Visible(cfg.tier, OutcomeFields(name, exitCode)) == Present(SentOutcome(cfg, path, exitCode))
            && Visible(cfg.tier, CompletedFields(name, exitCode, duration))
                 == Present(SentOutcome(cfg, path, exitCode) + SentDuration(duration))
  {
    var name := CommandNames.CommandName(cfg.cliName, path);
    ShownAsSent(cfg.tier, OutcomeFields(name, exitCode), SentOutcome(cfg, path, exitCode));
    ShownAsSent(cfg.tier, CompletedFields(name, exitCode, duration),
                SentOutcome(cfg, path, exitCode) + SentDuration(duration));
  }

  lemma UsageShown(cfg: Config, flags: seq<string>, peakRss: int, cpuTime: int)
    ensures Visible(cfg.tier, UsageFields(flags, peakRss, cpuTime)) == Present(SentUsage(cfg, flags, peakRss, cpuTime))
  {
    ShownAsSent(cfg.tier, UsageFields(flags, peakRss, cpuTime), SentUsage(cfg, flags, peakRss, cpuTime));
  }

  lemma SpanShown(cfg: Config, done: Fields, usage: Fields, sentDone: map<Key, Option<Value>>,
                  sentUsage: map<Key, Option<Value>>)
    requires Visible(cfg.tier, done) == Present(sentDone) && Visible(cfg.tier, usage) == Present(sentUsage)
    requires TierKey !in done && TierKey !in sentDone && TierKey !in usage && TierKey !in sentUsage
    requires done.Keys !! usage.Keys && sentDone.Keys !! sentUsage.Keys
    ensures Visible(cfg.tier, TierField(cfg) + done + usage) == Present(sentDone + sentUsage + SentTier(cfg))
  {
    VisibleUnion(cfg.tier, done, usage);
    PresentUnion(sentDone, sentUsage);
    TieredShown(cfg, done + usage, sentDone + sentUsage);
    assert TierField(cfg) + done + usage == TierField(cfg) + (done + usage);
  }

  lemma SpanOfCommand(cfg: Config, c: Call)
    requires c.CommandDone?
    ensures var name := CommandNames.CommandName(cfg.cliName, c.path);
            Visible(cfg.tier, TierField(cfg) + CompletedFields(name, c.exitCode, c.duration)
                              + UsageFields(c.flags, c.peakRss, c.cpuTime))
              == Present(SentOutcome(cfg, c.path, c.exitCode) + SentDuration(c.duration)
                         + SentUsage(cfg, c.flags, c.peakRss, c.cpuTime) + SentTier(cfg))
  {
    var name := CommandNames.CommandName(cfg.cliName, c.path);
    OutcomeShown(cfg, c.path, c.exitCode, c.duration);
    UsageShown(cfg, c.flags, c.peakRss, c.cpuTime);
    SpanShown(cfg, CompletedFields(name, c.exitCode, c.duration), UsageFields(c.flags, c.peakRss, c.cpuTime),
              SentOutcome(cfg, c.path, c.exitCode) + SentDuration(c.duration),
              SentUsage(cfg, c.flags, c.peakRss, c.cpuTime));
  }

  lemma PointOfCommand(cfg: Config, c: Call)
    requires c.CommandDone?
    ensures Visible(cfg.tier, TierField(cfg) + OutcomeFields(CommandNames.CommandName(cfg.cliName, c.path), c.exitCode))
         == Present(SentOutcome(cfg, c.path, c.exitCode) + SentTier(cfg))
  {
    OutcomeShown(cfg, c.path, c.exitCode, c.duration);
    TieredShown(cfg, OutcomeFields(CommandNames.CommandName(cfg.cliName, c.path), c.exitCode),
                SentOutcome(cfg, c.path, c.exitCode));
  }

  lemma EventOfCommand(cfg: Config, s: State, marked: State, c: Call, drawn: string)
    requires c.CommandDone? && marked.session == InSession(cfg, s, drawn).session
    ensures var done := CompletedFields(CommandNames.CommandName(cfg.cliName, c.path), c.exitCode, c.duration);
            Visible(cfg.tier, done + IdentityFields(cfg, marked) + TierField(cfg))
              == Present(SentOutcome(cfg, c.path, c.exitCode) + SentDuration(c.duration) + IdsAndTier(cfg, s, drawn))
  {
    OutcomeShown(cfg, c.path, c.exitCode, c.duration);
    IdentifiedShown(cfg, s, marked, drawn,
                    CompletedFields(CommandNames.CommandName(cfg.cliName, c.path), c.exitCode, c.duration),
                    SentOutcome(cfg, c.path, c.exitCode) + SentDuration(c.duration));
  }

  lemma CommandEmits(cfg: Config, s: State, marked: State, c: Call, drawn: string)
    requires c.CommandDone? && marked.session == InSession(cfg, s, drawn).session
    ensures Emitted(cfg.tier, Declares(cfg, marked, c))
         == SentCommand(cfg, s, c.path, c.flags, c.exitCode, c.duration, c.peakRss, c.cpuTime, drawn)
  {
    SpanOfCommand(cfg, c);
    PointOfCommand(cfg, c);
    EventOfCommand(cfg, s, marked, c, drawn);
    FourAnonymous(cfg.tier, Declares(cfg, marked, c));
  }

  lemma FourAnonymous(tier: Tier, d: seq<Declared>)
    requires |d| == 4 && forall i :: 0 <= i < 4 ==> d[i].required == Anonymous
    ensures Emitted(tier, d)
         == [Record(d[0].signal, Visible(tier, d[0].fields)), Record(d[1].signal, Visible(tier, d[1].fields)),
             Record(d[2].signal, Visible(tier, d[2].fields)), Record(d[3].signal, Visible(tier, d[3].fields))]
  {
    assert d == [d[0], d[1], d[2], d[3]];
    EmittedFour(tier, d[0], d[1], d[2], d[3]);
    EmittedOne(tier, d[0]);
    EmittedOne(tier, d[1]);
    EmittedOne(tier, d[2]);
    EmittedOne(tier, d[3]);
  }

  lemma CommandSends(cfg: Config, s: State, path: string, flags: seq<string>, exitCode: int, duration: int,
                     peakRss: int, cpuTime: int, drawn: string)
    ensures var records := SentCommand(cfg, s, path, flags, exitCode, duration, peakRss, cpuTime, drawn);
            Perform(cfg, s, CommandDone(path, flags, exitCode, duration, peakRss, cpuTime), drawn)
              == if s.closed then s else Queue(cfg, InSession(cfg, s, drawn), Batch(records, Named(cfg)))
  {
    var c := CommandDone(path, flags, exitCode, duration, peakRss, cpuTime);
    CommandEmits(cfg, s, Marked(cfg, s, c, drawn), c, drawn);
    BasicMeansNamed(cfg);
  }

  // ----- features

  function SentFeature(s: State, cut: string): map<Key, Option<Value>> {
    map[Feature := Some(Text(cut)), CommandName := if s.command.Some? then Some(Text(s.command.value)) else None]
  }

  lemma FeatureShown(cfg: Config, s: State, feature: string)
    requires Named(cfg)
    ensures Visible(cfg.tier, FeatureFields(feature, s.command)) == Present(SentFeature(s, Utf8.Truncated(feature, 64)))
  {
    ShownAsSent(cfg.tier, FeatureFields(feature, s.command), SentFeature(s, Utf8.Truncated(feature, 64)));
  }

  lemma FeatureEmits(cfg: Config, s: State, marked: State, feature: string, drawn: string)
    requires marked.session == InSession(cfg, s, drawn).session && marked.command == s.command
    ensures var sent := SentFeature(s, Utf8.Truncated(feature, 64));
            Emitted(cfg.tier, Declares(cfg, marked, FeatureUsed(feature)))
              == if Named(cfg) then [Record(Event(FeatureActivated), Present(sent + IdsAndTier(cfg, s, drawn)))] else []
  {
    EmittedOne(cfg.tier, Declares(cfg, marked, FeatureUsed(feature))[0]);
    if Named(cfg) {
      FeatureShown(cfg, s, feature);
      IdentifiedShown(cfg, s, marked, drawn, FeatureFields(feature, s.command),
                      SentFeature(s, Utf8.Truncated(feature, 64)));
    }
  }

  /** From Basic on, the first use of a feature, cut to 64 bytes, under the current command. */
  lemma FeatureSends(cfg: Config, s: State, feature: string, drawn: string)
    ensures var cut := Utf8.Truncated(feature, 64);
            var event := Record(Event(FeatureActivated), Present(SentFeature(s, cut) + IdsAndTier(cfg, s, drawn)));
            Perform(cfg, s, FeatureUsed(feature), drawn)
              == if s.closed then s
                 else if !Named(cfg) then s.(belowTier := s.belowTier + 1)
                 else if cut == "" || cut in s.activated then s
                 else Queue(cfg, InSession(cfg, s, drawn).(activated := s.activated + {cut}), Batch([event], true))
  {
    FeatureEmits(cfg, s, Marked(cfg, s, FeatureUsed(feature), drawn), feature, drawn);
    BasicMeansNamed(cfg);
  }

  // ----- unknown commands and help

  lemma SetKnownDoes(cfg: Config, s: State, paths: seq<string>, drawn: string)
    ensures var n := Perform(cfg, s, SetKnown(paths), drawn);
            && n == s.(known := n.known)
            && (s.closed ==> n == s)
            && (!s.closed ==> n.known.Some? && forall name :: name in n.known.value <==>
                  exists p :: p in paths && !Blank(p) && name == CommandNames.CommandName(cfg.cliName, p))
  {
  }

  /** One event; from Basic on with the suggestion if it names a registered command and has at most
      512 bytes. */
  lemma UnknownSends(cfg: Config, s: State, suggestion: string, drawn: string)
    ensures var name := CommandNames.CommandName(cfg.cliName, suggestion);
            var known := s.known.Some? && suggestion != "" && |suggestion| <= 512 && name in s.known.value;
            var event := Record(Event(CommandUnknown),
                                Present(map[Suggestion := When(Named(cfg) && known, Text(name))] + SentTier(cfg)));
            Perform(cfg, s, Unknown(suggestion), drawn)
              == if s.closed then s else Queue(cfg, s, Batch([event], false))
  {
    var name := CommandNames.CommandName(cfg.cliName, suggestion);
    var known := s.known.Some? && suggestion != "" && |suggestion| <= 512 && name in s.known.value;
    var fields: Fields := map[Suggestion := NonEmpty(CommandNames.KnownCommand(cfg.cliName, s.known, suggestion))];
    var sent: map<Key, Option<Value>> := map[Suggestion := When(Named(cfg) && known, Text(name))];
    ShownAsSent(cfg.tier, fields, sent);
    TieredShown(cfg, fields, sent);
    assert Marked(cfg, s, Unknown(suggestion), drawn) == s;
    EmittedOne(cfg.tier, Declares(cfg, s, Unknown(suggestion))[0]);
  }

  lemma HelpSends(cfg: Config, s: State, path: string, drawn: string)
    ensures var event := Record(Event(HelpViewed),
                                Present(map[CommandName := Some(Text(CommandNames.CommandName(cfg.cliName, path))),
                                            HelpFlag := Some(Text("help"))] + SentTier(cfg)));
            Perform(cfg, s, Help(path), drawn) == if s.closed then s else Queue(cfg, s, Batch([event], false))
  {
    var fields: Fields := map[CommandName := Plain(cfg.Named(path)), HelpFlag := Plain("help")];
    var sent: map<Key, Option<Value>> :=
      map[CommandName := Some(Text(CommandNames.CommandName(cfg.cliName, path))), HelpFlag := Some(Text("help"))];
    ShownAsSent(cfg.tier, fields, sent);
    TieredShown(cfg, fields, sent);
    assert Marked(cfg, s, Help(path), drawn) == s;
    EmittedOne(cfg.tier, Declares(cfg, s, Help(path))[0]);
  }

  // ----- errors

  function SentError(cfg: Config, path: string, category: string, reason: string): map<Key, Option<Value>> {
    var known := category in {"unknown", "user", "validation", "network", "auth", "internal", "timeout", "canceled"};
    map[CommandName := Some(Text(CommandNames.CommandName(cfg.cliName, path))),
        ErrorType := When(Named(cfg), Text(if known then category else "unknown")),
        ErrorReason := When(Named(cfg) && V.ValidIdentifier(reason), Text(reason))]
  }

  lemma ErrorShown(cfg: Config, s: State, marked: State, path: string, category: string, reason: string, drawn: string)
    requires marked.session == InSession(cfg, s, drawn).session
    ensures var fields := ErrorFields(CommandNames.CommandName(cfg.cliName, path), category, reason);
            var sent := SentError(cfg, path, category, reason);
            && Visible(cfg.tier, fields + TierField(cfg)) == Present(sent + SentTier(cfg))
            && Visible(cfg.tier, fields + IdentityFields(cfg, marked) + TierField(cfg))
                 == Present(sent + IdsAndTier(cfg, s, drawn))
  {
    var fields := ErrorFields(CommandNames.CommandName(cfg.cliName, path), category, reason);
    var sent := SentError(cfg, path, category, reason);
    ShownAsSent(cfg.tier, fields, sent);
    TieredShown(cfg, fields, sent);
    IdentifiedShown(cfg, s, marked, drawn, fields, sent);
  }

  lemma ErrorEmits(cfg: Config, s: State, marked: State, path: string, category: string, reason: string, drawn: string)
    requires marked.session == InSession(cfg, s, drawn).session
    ensures var sent := SentError(cfg, path, category, reason);
            var point := Record(Point(Errors, Count(1)), Present(sent + SentTier(cfg)));
            var event := Record(Event(ErrorRaised), Present(sent + IdsAndTier(cfg, s, drawn)));
            Emitted(cfg.tier, Declares(cfg, marked, Failed(path, category, reason)))
              == if Named(cfg) then [point, event] else [point]
  {
    var d := Declares(cfg, marked, Failed(path, category, reason));
    ErrorShown(cfg, s, marked, path, category, reason, drawn);
    PointAndEvent(cfg.tier, d[0], d[1]);
    assert d == [d[0], d[1]];
  }

  lemma PointAndEvent(tier: Tier, point: Declared, event: Declared)
    requires point.required == Anonymous && event.required == Basic
    ensures var first := Record(point.signal, Visible(tier, point.fields));
            var second := Record(event.signal, Visible(tier, event.fields));
            Emitted(tier, [point, event]) == if tier != Anonymous then [first, second] else [first]
  {
    EmittedTwo(tier, point, event);
    EmittedOne(tier, point);
    EmittedOne(tier, event);
  }

  /** One error counted at every tier, and from Basic on an event; category and reason from Basic
      on, one of eight categories, and a reason only if it is an identifier. */
  lemma ErrorSends(cfg: Config, s: State, path: string, category: string, reason: string, drawn: string)
    ensures var sent := SentError(cfg, path, category, reason);
            var point := Record(Point(Errors, Count(1)), Present(sent + SentTier(cfg)));
            var event := Record(Event(ErrorRaised), Present(sent + IdsAndTier(cfg, s, drawn)));
            Perform(cfg, s, Failed(path, category, reason), drawn)
              == if s.closed then s
                 else
                   var records := if Named(cfg) then [point, event] else [point];
                   Queue(cfg, InSession(cfg, s, drawn), Batch(records, Named(cfg)))
  {
    var c := Failed(path, category, reason);
    ErrorEmits(cfg, s, Marked(cfg, s, c, drawn), path, category, reason, drawn);
    BasicMeansNamed(cfg);
  }

  /** Message and stack at OptIn and nowhere else. */
  lemma DetailSends(cfg: Config, s: State, path: string, message: Option<string>, stack: string, drawn: string)
    ensures var event := Record(Event(ErrorRaised),
                                Present(map[CommandName := Some(Text(CommandNames.CommandName(cfg.cliName, path))),
                                            ErrorMessage := if message.Some? then Some(Text(message.value)) else None,
                                            ErrorStack := When(stack != "", Text(stack))] + SentTier(cfg)));
            Perform(cfg, s, FailedInDetail(path, message, stack), drawn)
              == if s.closed || message.None? then s
                 else if cfg.tier != OptIn then s.(belowTier := s.belowTier + 1)
                 else Queue(cfg, s, Batch([event], false))
  {
    var c := FailedInDetail(path, message, stack);
    assert Marked(cfg, s, c, drawn) == s;
    EmittedOne(cfg.tier, Declares(cfg, s, c)[0]);
    if cfg.tier == OptIn {
      var name := CommandNames.CommandName(cfg.cliName, path);
      var sent: map<Key, Option<Value>> :=
        map[CommandName := Some(Text(name)),
            ErrorMessage := if message.Some? then Some(Text(message.value)) else None,
            ErrorStack := When(stack != "", Text(stack))];
      ShownAsSent(cfg.tier, DetailFields(name, message, stack), sent);
      TieredShown(cfg, DetailFields(name, message, stack), sent);
    }
  }

  // ----- names on the wire

  /** The names under which attributes and tiers are sent. */
  lemma CommandWireNames()
    ensures CommandName.Wire() == "cli.command.name" && Suggestion.Wire() == "cli.command.suggestion"
    ensures ExitCode.Wire() == "cli.command.exit_code" && DurationMs.Wire() == "cli.command.duration_ms"
    ensures FlagNames.Wire() == "cli.flag.names" && HelpFlag.Wire() == "cli.help.flag"
    ensures PeakRssBytes.Wire() == "cli.process.peak_rss_bytes" && CpuTimeMs.Wire() == "cli.process.cpu_time_ms"
  {
  }

  lemma ErrorWireNames()
    ensures ErrorType.Wire() == "cli.error.type" && ErrorReason.Wire() == "cli.error.reason"
    ensures ErrorMessage.Wire() == "cli.error.message" && ErrorStack.Wire() == "cli.error.stacktrace"
  {
  }

  lemma SessionWireNames()
    ensures SessionId.Wire() == "cli.session_id" && InstallId.Wire() == "cli.install_id"
    ensures InstallMethod.Wire() == "cli.install.method" && Feature.Wire() == "cli.activation.feature"
    ensures BinarySizeBytes.Wire() == "cli.binary.size_bytes" && StartupMs.Wire() == "cli.startup.duration_ms"
  {
  }

  lemma EnvironmentWireNames()
    ensures Shell.Wire() == "cli.shell" && Terminal.Wire() == "cli.terminal"
    ensures StdoutIsTty.Wire() == "cli.stdout.is_tty"
  {
  }

  lemma RuntimeWireNames()
    ensures RuntimeName.Wire() == "cli.runtime.name" && RuntimeVersion.Wire() == "cli.runtime.version"
    ensures ConfigCustomizedCount.Wire() == "cli.config.customized_count" && AuthState.Wire() == "cli.auth.state"
  {
  }

  lemma MetricWireNames(dimension: string)
    ensures CounterName.Wire() == "cli.counter.name" && CounterLabel.Wire() == "cli.counter.label"
    ensures MeasureName.Wire() == "cli.measure.name" && MeasureLabel.Wire() == "cli.measure.label"
    ensures ValueName.Wire() == "cli.value.name" && ValueUnit.Wire() == "cli.value.unit"
    ensures Dim(dimension).Wire() == "cli.dim." + dimension
  {
  }

  lemma TierWireNames()
    ensures TierKey.Wire() == "cli.analytics.tier"
    ensures Anonymous.Wire() == "anonymous" && Basic.Wire() == "basic" && Full.Wire() == "full"
    ensures OptIn.Wire() == "optin_plus"
  {
  }
}
