/** What the consent tier does to whole runs: what Anonymous hides, what only OptIn shows, and
    what raising the tier adds. */
module TierLaws {
  import opened Signals
  import opened TaxonomySpec
  import V = VendorMetrics

  // ----- nothing above the tier shows

  /** Two descriptions that agree on every key the tier allows. */
  ghost predicate Agree(tier: Tier, f1: Fields, f2: Fields) {
    forall k: Key {:trigger k in f1} {:trigger k in f2} :: tier.Allows(k.MinTier()) ==>
          (k in f1 <==> k in f2) && (k in f1 ==> f1[k] == f2[k])
  }

  lemma AgreeVisible(tier: Tier, f1: Fields, f2: Fields)
    requires Agree(tier, f1, f2)
    ensures Visible(tier, f1) == Visible(tier, f2)
  {
    var v1, v2 := Visible(tier, f1), Visible(tier, f2);
    assert forall k :: k in v1 <==> k in v2;
    assert forall k :: k in v1 ==> v1[k] == v2[k];
  }

  lemma {:induction false} AgreeEmitted(tier: Tier, d1: seq<Declared>, d2: seq<Declared>)
    requires |d1| == |d2|
    requires forall i :: 0 <= i < |d1| ==> d1[i].required == d2[i].required
    requires forall i :: 0 <= i < |d1| && tier.Allows(d1[i].required) ==>
               d1[i].signal == d2[i].signal && Agree(tier, d1[i].fields, d2[i].fields)
    ensures Emitted(tier, d1) == Emitted(tier, d2)
  {
    if d1 != [] {
      if tier.Allows(d1[0].required) {
        AgreeVisible(tier, d1[0].fields, d2[0].fields);
      }
      AgreeEmitted(tier, d1[1..], d2[1..]);
    }
  }

  /** Calls that differ at most in what Anonymous must not show: session facts, flag names, process
      usage, features, known commands, suggestions, error categories and reasons, error detail. */
  predicate SameAtAnonymous(c1: Call, c2: Call) {
    match c1
    case SessionStart(_) => c2.SessionStart?
    case Invocation(path, _) => c2.Invocation? && c2.path == path
    case CommandDone(path, _, exitCode, duration, _, _) =>
      c2.CommandDone? && c2.path == path && c2.exitCode == exitCode && c2.duration == duration
    case FeatureUsed(_) => c2.FeatureUsed?
    case SetKnown(_) => c2.SetKnown?
    case Unknown(_) => c2.Unknown?
    case Help(path) => c2 == c1
    case Failed(path, _, _) => c2.Failed? && c2.path == path
    case FailedInDetail(_, _, _) => c2.FailedInDetail?
    case Vendor(_) => c2 == c1
  }

  /** Clients that differ at most in the stored install ID. */
  predicate SameClient(cfg1: Config, cfg2: Config) {
    cfg1 == cfg2.(installSource := cfg1.installSource)
  }

  /** Schedules step by step the same, but for those inputs and the session IDs drawn. */
  predicate SameSchedule(steps1: seq<Step>, steps2: seq<Step>) {
    |steps1| == |steps2| && forall i :: 0 <= i < |steps1| ==> SameStep(steps1[i], steps2[i])
  }

  predicate SameStep(step1: Step, step2: Step) {
    match step1
    case Do(c1, _) => step2.Do? && SameAtAnonymous(c1, step2.call)
    case Work => step2.Work?
    case Close => step2.Close?
  }

  /** States nobody outside can tell apart, now or later, at Anonymous. */
  predicate Alike(s1: State, s2: State) {
    && s1.closed == s2.closed && s1.sessionOn == s2.sessionOn && s1.command == s2.command
    && s1.overflow == s2.overflow && s1.pending == s2.pending && s1.sink == s2.sink && s1.points == s2.points
    && s1.ready == s2.ready && s1.asking == s2.asking
    && (forall i :: 0 <= i < |s1.pending| ==> !s1.pending[i].loads)
  }

  lemma AgreeUnion(tier: Tier, f1: Fields, f2: Fields, g1: Fields, g2: Fields)
    requires Agree(tier, f1, f2) && Agree(tier, g1, g2)
    ensures Agree(tier, f1 + g1, f2 + g2)
  {
  }

  lemma IdentityAgrees(cfg1: Config, cfg2: Config, s1: State, s2: State)
    ensures Agree(Anonymous, IdentityFields(cfg1, s1), IdentityFields(cfg2, s2))
  {
  }

  lemma MeasurementsAgree(f: SessionFacts, g: SessionFacts)
    ensures Agree(Anonymous, MeasuredFields(f), MeasuredFields(g))
  {
  }

  lemma EnvironmentsAgree(f: SessionFacts, g: SessionFacts)
    ensures Agree(Anonymous, EnvironmentFields(f), EnvironmentFields(g))
  {
  }

  lemma VendorFactsAgree(f: SessionFacts, g: SessionFacts)
    ensures Agree(Anonymous, VendorFields(f), VendorFields(g))
  {
  }

  lemma AgreeUnions(tier: Tier, a1: Fields, a2: Fields, b1: Fields, b2: Fields, c1: Fields, c2: Fields, d1: Fields,
                    d2: Fields)
    requires Agree(tier, a1, a2) && Agree(tier, b1, b2) && Agree(tier, c1, c2) && Agree(tier, d1, d2)
    ensures Agree(tier, a1 + b1 + c1 + d1, a2 + b2 + c2 + d2)
  {
    AgreeUnion(tier, a1, a2, b1, b2);
    AgreeUnion(tier, a1 + b1, a2 + b2, c1, c2);
    AgreeUnion(tier, a1 + b1 + c1, a2 + b2 + c2, d1, d2);
  }

  lemma SessionAgrees(cfg1: Config, cfg2: Config, s1: State, s2: State, f: SessionFacts, g: SessionFacts)
    requires SameClient(cfg1, cfg2)
    ensures Agree(Anonymous, SessionFields(cfg1, s1, f), SessionFields(cfg2, s2, g))
  {
    var installed: Fields := map[InstallMethod := NonEmpty(cfg1.installMethod)];
    var i1, i2 := IdentityFields(cfg1, s1), IdentityFields(cfg2, s2);
    IdentityAgrees(cfg1, cfg2, s1, s2);
    MeasurementsAgree(f, g);
    EnvironmentsAgree(f, g);
    VendorFactsAgree(f, g);
    AgreeUnion(Anonymous, i1, i2, installed, installed);
    AgreeUnions(Anonymous, i1 + installed, i2 + installed, MeasuredFields(f), MeasuredFields(g),
                EnvironmentFields(f), EnvironmentFields(g), VendorFields(f), VendorFields(g));
    AgreeUnion(Anonymous, i1 + installed + MeasuredFields(f) + EnvironmentFields(f) + VendorFields(f),
               i2 + installed + MeasuredFields(g) + EnvironmentFields(g) + VendorFields(g), TierField(cfg1),
               TierField(cfg2));
  }

  lemma InvocationAgrees(cfg1: Config, cfg2: Config, s1: State, s2: State, name: string, flags1: seq<string>,
                         flags2: seq<string>)
    requires SameClient(cfg1, cfg2)
    ensures Agree(Anonymous, InvocationFields(name, flags1) + IdentityFields(cfg1, s1) + TierField(cfg1),
                             InvocationFields(name, flags2) + IdentityFields(cfg2, s2) + TierField(cfg2))
  {
    IdentityAgrees(cfg1, cfg2, s1, s2);
    AgreeUnion(Anonymous, InvocationFields(name, flags1), InvocationFields(name, flags2), IdentityFields(cfg1, s1),
               IdentityFields(cfg2, s2));
  }

  lemma CommandAgrees(cfg1: Config, cfg2: Config, s1: State, s2: State, name: string, exitCode: int, duration: int,
                      c1: Call, c2: Call)
    requires SameClient(cfg1, cfg2) && c1.CommandDone? && c2.CommandDone?
    ensures var done := CompletedFields(name, exitCode, duration);
            Agree(Anonymous, TierField(cfg1) + done + UsageFields(c1.flags, c1.peakRss, c1.cpuTime),
                             TierField(cfg2) + done + UsageFields(c2.flags, c2.peakRss, c2.cpuTime))
    ensures Agree(Anonymous, CompletedFields(name, exitCode, duration) + IdentityFields(cfg1, s1) + TierField(cfg1),
                             CompletedFields(name, exitCode, duration) + IdentityFields(cfg2, s2) + TierField(cfg2))
  {
    var done := CompletedFields(name, exitCode, duration);
    IdentityAgrees(cfg1, cfg2, s1, s2);
    AgreeUnion(Anonymous, done, done, IdentityFields(cfg1, s1), IdentityFields(cfg2, s2));
    AgreeUnion(Anonymous, TierField(cfg1) + done, TierField(cfg2) + done,
               UsageFields(c1.flags, c1.peakRss, c1.cpuTime), UsageFields(c2.flags, c2.peakRss, c2.cpuTime));
  }

  lemma FailureAgrees(cfg1: Config, cfg2: Config, s1: State, s2: State, c1: Call, c2: Call)
    requires cfg1.tier == Anonymous && SameClient(cfg1, cfg2) && SameAtAnonymous(c1, c2) && c1.Failed?
    ensures Emitted(Anonymous, Declares(cfg1, s1, c1)) == Emitted(Anonymous, Declares(cfg2, s2, c2))
  {
    var name := cfg1.Named(c1.path);
    assert Agree(Anonymous, ErrorFields(name, c1.category, c1.reason), ErrorFields(name, c2.category, c2.reason));
    AgreeUnion(Anonymous, ErrorFields(name, c1.category, c1.reason), ErrorFields(name, c2.category, c2.reason),
               TierField(cfg1), TierField(cfg2));
    AgreeEmitted(Anonymous, Declares(cfg1, s1, c1), Declares(cfg2, s2, c2));
  }

  lemma HiddenEmitsNothing(cfg: Config, s: State, c: Call)
    requires cfg.tier == Anonymous && (c.FeatureUsed? || c.FailedInDetail?)
    ensures Emitted(Anonymous, Declares(cfg, s, c)) == []
  {
    EmittedOne(Anonymous, Declares(cfg, s, c)[0]);
  }

  lemma PlainAgrees(cfg1: Config, cfg2: Config, s1: State, s2: State, c1: Call, c2: Call)
    requires cfg1.tier == Anonymous && SameClient(cfg1, cfg2) && SameAtAnonymous(c1, c2) && (c1.Unknown? || c1.Help?)
    ensures Emitted(Anonymous, Declares(cfg1, s1, c1)) == Emitted(Anonymous, Declares(cfg2, s2, c2))
  {
    AgreeEmitted(Anonymous, Declares(cfg1, s1, c1), Declares(cfg2, s2, c2));
  }

  /** What Anonymous shows of a call does not depend on anything Anonymous must not show. */
  lemma DeclaresAlike(cfg1: Config, cfg2: Config, s1: State, s2: State, c1: Call, c2: Call)
    requires cfg1.tier == Anonymous && SameClient(cfg1, cfg2) && SameAtAnonymous(c1, c2)
    requires !c1.Vendor? && !c1.SetKnown? && s1.command == s2.command
    ensures Emitted(Anonymous, Declares(cfg1, s1, c1)) == Emitted(Anonymous, Declares(cfg2, s2, c2))
  {
    var d1, d2 := Declares(cfg1, s1, c1), Declares(cfg2, s2, c2);
    if c1.Failed? {
      FailureAgrees(cfg1, cfg2, s1, s2, c1, c2);
    } else if c1.SessionStart? {
      SessionAgrees(cfg1, cfg2, s1, s2, c1.facts, c2.facts);
      AgreeEmitted(Anonymous, d1, d2);
    } else if c1.Invocation? {
      InvocationAgrees(cfg1, cfg2, s1, s2, cfg1.Named(c1.path), c1.flags, c2.flags);
      AgreeEmitted(Anonymous, d1, d2);
    } else if c1.CommandDone? {
      CommandAgrees(cfg1, cfg2, s1, s2, cfg1.Named(c1.path), c1.exitCode, c1.duration, c1, c2);
      AgreeEmitted(Anonymous, d1, d2);
    } else if c1.Unknown? || c1.Help? {
      PlainAgrees(cfg1, cfg2, s1, s2, c1, c2);
    } else {
      HiddenEmitsNothing(cfg1, s1, c1);
      HiddenEmitsNothing(cfg2, s2, c2);
    }
  }

  lemma VendorAlike(cfg1: Config, cfg2: Config, s1: State, s2: State, m: V.Call)
    requires cfg1.tier == Anonymous && SameClient(cfg1, cfg2) && Alike(s1, s2)
    ensures Alike(PerformVendor(cfg1, s1, m), PerformVendor(cfg2, s2, m))
  {
    if V.Accepted(m) {
      assert PointRecord(cfg1, s1, m) == PointRecord(cfg2, s2, m);
    }
    assert AskForInstall(cfg1, s1) == s1 && AskForInstall(cfg2, s2) == s2;
  }

  lemma SubmitAlike(cfg1: Config, cfg2: Config, m1: State, m2: State, records: seq<Record>)
    requires SameClient(cfg1, cfg2) && Alike(m1, m2)
    ensures Alike(Submit(cfg1, m1, records, false), Submit(cfg2, m2, records, false))
  {
  }

  lemma MarkedAlike(cfg1: Config, cfg2: Config, s1: State, s2: State, c1: Call, c2: Call, drawn1: string,
                    drawn2: string)
    requires cfg1.tier == Anonymous && SameClient(cfg1, cfg2) && SameAtAnonymous(c1, c2) && Alike(s1, s2)
    ensures Alike(Marked(cfg1, s1, c1, drawn1), Marked(cfg2, s2, c2, drawn2))
  {
  }

  lemma QueuedAlike(cfg1: Config, cfg2: Config, s1: State, s2: State, c1: Call, c2: Call, drawn1: string,
                    drawn2: string)
    requires cfg1.tier == Anonymous && SameClient(cfg1, cfg2) && SameAtAnonymous(c1, c2) && Alike(s1, s2)
    requires !c1.Vendor? && !c1.SetKnown?
    ensures Alike(PerformQueued(cfg1, s1, c1, drawn1), PerformQueued(cfg2, s2, c2, drawn2))
  {
    var m1, m2 := Marked(cfg1, s1, c1, drawn1), Marked(cfg2, s2, c2, drawn2);
    MarkedAlike(cfg1, cfg2, s1, s2, c1, c2, drawn1, drawn2);
    DeclaresAlike(cfg1, cfg2, m1, m2, c1, c2);
    SubmitAlike(cfg1, cfg2, m1, m2, Emitted(Anonymous, Declares(cfg1, m1, c1)));
  }

  lemma DetailHidden(cfg: Config, s: State, c: Call, drawn: string)
    requires cfg.tier != OptIn && c.FailedInDetail?
    ensures Perform(cfg, s, c, drawn) == s.(belowTier := Perform(cfg, s, c, drawn).belowTier)
  {
    EmittedOne(cfg.tier, Declares(cfg, Marked(cfg, s, c, drawn), c)[0]);
  }

  lemma DetailAlike(cfg1: Config, cfg2: Config, s1: State, s2: State, c1: Call, c2: Call, drawn1: string,
                    drawn2: string)
    requires cfg1.tier == Anonymous && SameClient(cfg1, cfg2) && Alike(s1, s2) && c1.FailedInDetail?
             && c2.FailedInDetail?
    ensures Alike(Perform(cfg1, s1, c1, drawn1), Perform(cfg2, s2, c2, drawn2))
  {
    DetailHidden(cfg1, s1, c1, drawn1);
    DetailHidden(cfg2, s2, c2, drawn2);
  }

  lemma StepsAlike(cfg1: Config, cfg2: Config, s1: State, s2: State, step1: Step, step2: Step)
    requires cfg1.tier == Anonymous && SameClient(cfg1, cfg2) && SameStep(step1, step2) && Alike(s1, s2)
    ensures Alike(Next(cfg1, s1, step1), Next(cfg2, s2, step2))
  {
    if step1.Do? {
      var c1, c2 := step1.call, step2.call;
      if c1.Vendor? {
        VendorAlike(cfg1, cfg2, s1, s2, c1.metric);
      } else if c1.FailedInDetail? {
        DetailAlike(cfg1, cfg2, s1, s2, c1, c2, step1.drawn, step2.drawn);
      } else if !c1.SetKnown? && !s1.closed {
        QueuedAlike(cfg1, cfg2, s1, s2, c1, c2, step1.drawn, step2.drawn);
      }
    }
  }

  /** At Anonymous, two runs on the same schedule that differ only in what Anonymous must not show,
      in the session IDs drawn and in the stored install ID, emit the same records and the same
      data points, and drop the same jobs. */
  lemma {:induction false} AnonymousShowsNothingMore(cfg1: Config, cfg2: Config, s1: State, s2: State,
        steps1: seq<Step>, steps2: seq<Step>)
    requires cfg1.tier == Anonymous && SameClient(cfg1, cfg2) && SameSchedule(steps1, steps2) && Alike(s1, s2)
    ensures Alike(Run(cfg1, s1, steps1), Run(cfg2, s2, steps2))
    decreases |steps1|
  {
    if steps1 != [] {
      StepsAlike(cfg1, cfg2, s1, s2, steps1[0], steps2[0]);
      AnonymousShowsNothingMore(cfg1, cfg2, Next(cfg1, s1, steps1[0]), Next(cfg2, s2, steps2[0]), steps1[1..],
                                steps2[1..]);
    }
  }

  // ----- error detail below OptIn

  /** Schedules that differ at most in the message and the stack of errors. */
  predicate SameScheduleButDetail(steps1: seq<Step>, steps2: seq<Step>) {
    && |steps1| == |steps2|
    && forall i :: 0 <= i < |steps1| ==>
         steps1[i] == steps2[i]
             || (steps1[i].Do? && steps2[i].Do? && steps1[i].call.FailedInDetail? && steps2[i].call.FailedInDetail?)
  }

  /** The count of drops is never read. */
  lemma DropsDoNotMatter(cfg: Config, s: State, step: Step, n: nat)
    ensures var a, b := Next(cfg, s, step), Next(cfg, s.(belowTier := n), step);
            b == a.(belowTier := b.belowTier)
  {
    if step.Do? && step.call.Vendor? {
      DropsDoNotMatterToMetrics(cfg, s, step.call.metric, n);
    } else if step.Do? && !step.call.SetKnown? {
      DropsDoNotMatterQueued(cfg, s, step.call, step.drawn, n);
    }
  }

  lemma DropsDoNotMatterToAsking(cfg: Config, s: State, n: nat)
    ensures AskForInstall(cfg, s.(belowTier := n)) == AskForInstall(cfg, s).(belowTier := n)
  {
  }

  lemma DropsDoNotMatterToPoints(cfg: Config, s: State, m: V.Call, n: nat)
    requires V.Accepted(m)
    ensures PointRecord(cfg, s.(belowTier := n), m) == PointRecord(cfg, s, m)
  {
  }

  lemma DropsDoNotMatterToMetrics(cfg: Config, s: State, m: V.Call, n: nat)
    ensures PerformVendor(cfg, s.(belowTier := n), m) == PerformVendor(cfg, s, m).(belowTier := n)
  {
    DropsDoNotMatterToAsking(cfg, s, n);
    if V.Accepted(m) {
      DropsDoNotMatterToPoints(cfg, s, m, n);
    }
  }

  lemma DropsDoNotMatterQueued(cfg: Config, s: State, c: Call, drawn: string, n: nat)
    requires !c.Vendor? && !c.SetKnown?
    ensures var a, b := PerformQueued(cfg, s, c, drawn), PerformQueued(cfg, s.(belowTier := n), c, drawn);
            b == a.(belowTier := b.belowTier)
  {
    var m1, m2 := Marked(cfg, s, c, drawn), Marked(cfg, s.(belowTier := n), c, drawn);
    assert m2 == m1.(belowTier := n);
    SameDeclares(cfg, m1, m2, c);
  }

  lemma SameDeclares(cfg: Config, s1: State, s2: State, c: Call)
    requires !c.Vendor? && !c.SetKnown?
    requires s1.session == s2.session && s1.command == s2.command && s1.known == s2.known
    ensures Declares(cfg, s1, c) == Declares(cfg, s2, c)
  {
  }

  /** At every tier below OptIn, error messages and stacks, or their absence, change nothing but a
      counter that is never sent. */
  lemma {:induction false} DetailNeverShows(cfg: Config, s: State, n: nat, steps1: seq<Step>, steps2: seq<Step>)
    requires cfg.tier != OptIn && SameScheduleButDetail(steps1, steps2)
    ensures var a, b := Run(cfg, s, steps1), Run(cfg, s.(belowTier := n), steps2);
            b == a.(belowTier := b.belowTier)
    decreases |steps1|
  {
    if steps1 != [] {
      var a, b := Next(cfg, s, steps1[0]), Next(cfg, s.(belowTier := n), steps2[0]);
      if steps1[0] == steps2[0] {
        DropsDoNotMatter(cfg, s, steps1[0], n);
      } else {
        DetailHidden(cfg, s, steps1[0].call, steps1[0].drawn);
        DetailHidden(cfg, s.(belowTier := n), steps2[0].call, steps2[0].drawn);
      }
      assert b == a.(belowTier := b.belowTier);
      DetailNeverShows(cfg, a, b.belowTier, steps1[1..], steps2[1..]);
    }
  }

  // ----- what every tier shows

  predicate NamesCommand(fields: Fields, name: string) {
    CommandName in fields && fields[CommandName] == Plain(name)
  }

  lemma {:induction false} EmittedNameCommand(tier: Tier, declared: seq<Declared>, name: string)
    requires forall i :: 0 <= i < |declared| ==> NamesCommand(declared[i].fields, name)
    ensures forall r :: r in Emitted(tier, declared) ==> CommandName in r.attrs && r.attrs[CommandName] == Text(name)
  {
    if declared != [] {
      EmittedNameCommand(tier, declared[1..], name);
    }
  }

  /** Commands, invocations, help views and errors are reported under the command's name at every
      tier, Anonymous included. */
  lemma CommandNamesShowAtEveryTier(cfg: Config, s: State, c: Call)
    requires c.Invocation? || c.CommandDone? || c.Help? || c.Failed?
    ensures Emitted(cfg.tier, Declares(cfg, s, c)) != []
    ensures forall r :: r in Emitted(cfg.tier, Declares(cfg, s, c)) ==>
              CommandName in r.attrs && r.attrs[CommandName] == Text(cfg.Named(c.path))
  {
    EmittedNameCommand(cfg.tier, Declares(cfg, s, c), cfg.Named(c.path));
  }
}
