/** What the worker emits does not depend on when it runs, and a higher tier emits everything a
    lower one does. */
module TierOrder {
  import opened Wrappers
  import opened Signals
  import opened TaxonomySpec
  import V = VendorMetrics

  // ----- the schedule does not matter

  function Flatten(batches: seq<Batch>): seq<Record> {
    if batches == [] then [] else batches[0].records + Flatten(batches[1..])
  }

  /** Everything emitted so far, and everything the queued jobs are going to emit. */
  function Stream(s: State): seq<Record> {
    s.sink + Flatten(s.pending)
  }

  /** The part of the state that decides what calls emit through the queue. */
  function Core(s: State): State {
    s.(ready := None, asking := false, overflow := 0, belowTier := 0, pending := [], sink := [], points := [])
  }

  function CoreAfter(cfg: Config, core: State, c: Call, drawn: string): State {
    if core.closed || c.Vendor? || Ignored(cfg, core, c) then core
    else if c.SetKnown? then core.(known := Some(CommandNames.KnownSet(cfg.cliName, c.paths)))
    else Marked(cfg, core, c, drawn)
  }

  /** What one call adds to the stream. */
  function Says(cfg: Config, core: State, c: Call, drawn: string): seq<Record> {
    if core.closed || c.Vendor? || c.SetKnown? || Ignored(cfg, core, c) then []
    else Emitted(cfg.tier, Declares(cfg, Marked(cfg, core, c, drawn), c))
  }

  /** A schedule with the worker's steps left out. */
  function Calls(steps: seq<Step>): seq<Step> {
    if steps == [] then []
    else (if steps[0].Work? then [] else [steps[0]]) + Calls(steps[1..])
  }

  function CoreNext(cfg: Config, core: State, step: Step): State {
    match step
    case Do(c, drawn) => CoreAfter(cfg, core, c, drawn)
    case Close => core.(closed := true)
    case Work => core
  }

  /** What a sequence of calls says, one after the other. */
  function SaysAll(cfg: Config, core: State, calls: seq<Step>): seq<Record>
    decreases |calls|
  {
    if calls == [] then []
    else (if calls[0].Do? then Says(cfg, core, calls[0].call, calls[0].drawn) else [])
         + SaysAll(cfg, CoreNext(cfg, core, calls[0]), calls[1..])
  }

  lemma {:induction false} FlattenAppend(batches: seq<Batch>, b: Batch)
    ensures Flatten(batches + [b]) == Flatten(batches) + b.records
  {
    if batches == [] {
      assert [b][1..] == [] && Flatten([]) == [];
      assert [] + [b] == [b];
      assert b.records + [] == b.records;
    } else {
      assert (batches + [b])[1..] == batches[1..] + [b];
      FlattenAppend(batches[1..], b);
    }
  }

  lemma WorkKeepsStream(cfg: Config, s: State)
    ensures Stream(RunNext(cfg, s)) == Stream(s) && Core(RunNext(cfg, s)) == Core(s)
            && RunNext(cfg, s).overflow == s.overflow
  {
    if s.pending != [] {
      assert s.sink + (s.pending[0].records + Flatten(s.pending[1..]))
            == s.sink + s.pending[0].records + Flatten(s.pending[1..]);
    }
  }

  lemma EnqueueExtendsStream(cfg: Config, s: State, b: Batch)
    requires Enqueue(cfg, s, b).overflow == s.overflow
    ensures Stream(Enqueue(cfg, s, b)) == Stream(s) + b.records && Core(Enqueue(cfg, s, b)) == Core(s)
  {
    FlattenAppend(s.pending, b);
    assert s.sink + (Flatten(s.pending) + b.records) == s.sink + Flatten(s.pending) + b.records;
  }

  lemma VendorKeepsStream(cfg: Config, s: State, m: V.Call)
    requires PerformVendor(cfg, s, m).overflow == s.overflow
    ensures Stream(PerformVendor(cfg, s, m)) == Stream(s) && Core(PerformVendor(cfg, s, m)) == Core(s)
  {
    if V.AsksForInstall(m) && cfg.Basic() && s.ready.None? && !s.asking {
      var asking := s.(asking := true);
      EnqueueExtendsStream(cfg, asking, Batch([], true));
      assert Stream(asking) + [] == Stream(asking) == Stream(s);
    }
  }

  lemma CoreDecides(cfg: Config, s: State, c: Call, drawn: string)
    ensures Core(Marked(cfg, s, c, drawn)) == Marked(cfg, Core(s), c, drawn)
    ensures Ignored(cfg, s, c) <==> Ignored(cfg, Core(s), c)
    ensures !c.Vendor? && !c.SetKnown? ==>
              Declares(cfg, Marked(cfg, s, c, drawn), c) == Declares(cfg, Marked(cfg, Core(s), c, drawn), c)
  {
  }

  lemma QueuedExtendsStream(cfg: Config, s: State, c: Call, drawn: string)
    requires !c.Vendor? && !c.SetKnown? && PerformQueued(cfg, s, c, drawn).overflow == s.overflow
    ensures var n := PerformQueued(cfg, s, c, drawn);
            && Stream(n) == Stream(s) + Emitted(cfg.tier, Declares(cfg, Marked(cfg, s, c, drawn), c))
            && Core(n) == Core(Marked(cfg, s, c, drawn))
  {
    var marked := Marked(cfg, s, c, drawn);
    var records := Emitted(cfg.tier, Declares(cfg, marked, c));
    assert Stream(marked) == Stream(s);
    if records == [] {
      assert Stream(s) + [] == Stream(s);
    } else {
      EnqueueExtendsStream(cfg, marked, Batch(records, cfg.Basic() && CarriesIdentity(c)));
    }
  }

  lemma StepExtendsStream(cfg: Config, s: State, step: Step)
    requires Next(cfg, s, step).overflow == s.overflow
    ensures Stream(Next(cfg, s, step))
              == Stream(s) + (if step.Do? then Says(cfg, Core(s), step.call, step.drawn) else [])
    ensures Core(Next(cfg, s, step)) == CoreNext(cfg, Core(s), step)
  {
    assert Stream(s) + [] == Stream(s);
    match step
    case Work => WorkKeepsStream(cfg, s);
    case Close =>
    case Do(c, drawn) =>
      CoreDecides(cfg, s, c, drawn);
      if !s.closed && !Ignored(cfg, s, c) {
        if c.Vendor? {
          VendorKeepsStream(cfg, s, c.metric);
        } else if !c.SetKnown? {
          QueuedExtendsStream(cfg, s, c, drawn);
        }
      }
  }

  lemma {:induction false} OverflowGrows(cfg: Config, s: State, steps: seq<Step>)
    ensures s.overflow <= Run(cfg, s, steps).overflow
    decreases |steps|
  {
    if steps != [] {
      OverflowGrows(cfg, Next(cfg, s, steps[0]), steps[1..]);
      StepOverflow(cfg, s, steps[0]);
    }
  }

  lemma StepOverflow(cfg: Config, s: State, step: Step)
    ensures s.overflow <= Next(cfg, s, step).overflow
  {
  }

  function Now(cfg: Config, core: State, step: Step): seq<Record> {
    if step.Do? then Says(cfg, core, step.call, step.drawn) else []
  }

  lemma SaysAllStep(cfg: Config, core: State, steps: seq<Step>)
    requires steps != []
    ensures SaysAll(cfg, core, Calls(steps)) ==
            Now(cfg, core, steps[0]) + SaysAll(cfg, CoreNext(cfg, core, steps[0]), Calls(steps[1..]))
  {
    if steps[0].Work? {
      assert [] + Calls(steps[1..]) == Calls(steps[1..]);
      assert [] + SaysAll(cfg, core, Calls(steps[1..])) == SaysAll(cfg, core, Calls(steps[1..]));
    } else {
      assert ([steps[0]] + Calls(steps[1..]))[1..] == Calls(steps[1..]);
    }
  }

  /** Without overflow, what has been emitted and what is queued is exactly what the calls say, in
      their order, however the worker's steps fall between them. */
  lemma {:induction false} ScheduleDoesNotMatter(cfg: Config, s: State, steps: seq<Step>)
    requires Run(cfg, s, steps).overflow == s.overflow
    ensures Stream(Run(cfg, s, steps)) == Stream(s) + SaysAll(cfg, Core(s), Calls(steps))
    decreases |steps|
  {
    if steps == [] {
      assert Stream(s) + [] == Stream(s);
    } else {
      var n := Next(cfg, s, steps[0]);
      StepOverflow(cfg, s, steps[0]);
      OverflowGrows(cfg, n, steps[1..]);
      StepExtendsStream(cfg, s, steps[0]);
      ScheduleDoesNotMatter(cfg, n, steps[1..]);
      SaysAllStep(cfg, Core(s), steps);
      Associative(Stream(s), Now(cfg, Core(s), steps[0]), SaysAll(cfg, Core(n), Calls(steps[1..])));
    }
  }

  // ----- a higher tier only adds

  /** `hi` has everything `lo` has, apart from the value of the tier attribute. */
  ghost predicate Extends(lo: Record, hi: Record) {
    && lo.signal == hi.signal
    && forall k {:trigger k in lo.attrs} :: k in lo.attrs && k != TierKey ==>
          k in hi.attrs && hi.attrs[k] == lo.attrs[k]
  }

  /** Every record of `lo` is extended by a record of `hi`, in the same order. */
  ghost predicate Covered(lo: seq<Record>, hi: seq<Record>) {
    if lo == [] then true
    else if hi == [] then false
    else (Extends(lo[0], hi[0]) && Covered(lo[1..], hi[1..])) || Covered(lo, hi[1..])
  }

  lemma {:induction false} CoveredConcat(a: seq<Record>, b: seq<Record>, c: seq<Record>, d: seq<Record>)
    requires Covered(a, b) && Covered(c, d)
    ensures Covered(a + c, b + d)
    decreases |b|
  {
    if a == [] && b == [] {
      assert a + c == c && b + d == d;
    } else if a == [] {
      assert (b + d)[1..] == b[1..] + d;
      CoveredConcat(a, b[1..], c, d);
    } else {
      assert (b + d)[1..] == b[1..] + d && (a + c)[1..] == a[1..] + c;
      if Extends(a[0], b[0]) && Covered(a[1..], b[1..]) {
        CoveredConcat(a[1..], b[1..], c, d);
      } else {
        CoveredConcat(a, b[1..], c, d);
      }
    }
  }

  /** Whatever `f1` shows at the tier, `f2` shows too. */
  ghost predicate Within(tier: Tier, f1: Fields, f2: Fields) {
    forall k: Key {:trigger k in f1} {:trigger k in f2} ::
      k in f1 && f1[k].Some? && k != TierKey && tier.Allows(k.MinTier()) ==> k in f2 && f2[k] == f1[k]
  }

  predicate Raises(lo: Config, hi: Config) {
    lo == hi.(tier := lo.tier) && hi.tier.Rank() >= lo.tier.Rank()
  }

  lemma WithinExtends(lo: Tier, hi: Tier, signal: Signal, f1: Fields, f2: Fields)
    requires hi.Rank() >= lo.Rank() && Within(lo, f1, f2)
    ensures Extends(Record(signal, Visible(lo, f1)), Record(signal, Visible(hi, f2)))
  {
  }

  lemma {:induction false} WithinCovered(lo: Tier, hi: Tier, d1: seq<Declared>, d2: seq<Declared>)
    requires hi.Rank() >= lo.Rank() && |d1| == |d2|
    requires forall i :: 0 <= i < |d1| ==> d1[i].required == d2[i].required
    requires forall i :: 0 <= i < |d1| && lo.Allows(d1[i].required) ==>
               d1[i].signal == d2[i].signal && Within(lo, d1[i].fields, d2[i].fields)
    ensures Covered(Emitted(lo, d1), Emitted(hi, d2))
  {
    if d1 != [] {
      WithinCovered(lo, hi, d1[1..], d2[1..]);
      if lo.Allows(d1[0].required) {
        WithinExtends(lo, hi, d1[0].signal, d1[0].fields, d2[0].fields);
      }
      var h1 := if lo.Allows(d1[0].required) then [Record(d1[0].signal, Visible(lo, d1[0].fields))] else [];
      var h2 := if hi.Allows(d2[0].required) then [Record(d2[0].signal, Visible(hi, d2[0].fields))] else [];
      assert Covered(h1, h2);
      CoveredConcat(h1, h2, Emitted(lo, d1[1..]), Emitted(hi, d2[1..]));
    }
  }

  /** The cores of two clients that were given the same calls, one at a higher tier. */
  predicate Related(lo: Config, s1: State, s2: State) {
    && s1.closed == s2.closed && s1.sessionOn == s2.sessionOn && s1.command == s2.command && s1.known == s2.known
    && (if lo.Basic()
        then s1.session == s2.session && s1.activated == s2.activated
        else s1.session.None? && s1.activated == {})
  }

  lemma IdentityWithin(lo: Config, hi: Config, s1: State, s2: State)
    requires Raises(lo, hi) && Related(lo, s1, s2)
    ensures Within(lo.tier, IdentityFields(lo, s1), IdentityFields(hi, s2))
  {
  }

  lemma WithinUnion(tier: Tier, f1: Fields, f2: Fields, g1: Fields, g2: Fields)
    requires Within(tier, f1, f2) && Within(tier, g1, g2) && f2.Keys !! g2.Keys
    ensures Within(tier, f1 + g1, f2 + g2)
  {
  }

  /** A record with identity and tier: only those two parts change with the client. */
  lemma IdentifiedWithin(lo: Config, hi: Config, s1: State, s2: State, fields: Fields)
    requires Raises(lo, hi) && Related(lo, s1, s2)
    requires SessionId !in fields && InstallId !in fields && TierKey !in fields
    ensures Within(lo.tier, fields + IdentityFields(lo, s1) + TierField(lo),
                   fields + IdentityFields(hi, s2) + TierField(hi))
    ensures Within(lo.tier, IdentityFields(lo, s1) + fields + TierField(lo),
                   IdentityFields(hi, s2) + fields + TierField(hi))
  {
    IdentityWithin(lo, hi, s1, s2);
    WithinUnion(lo.tier, fields, fields, IdentityFields(lo, s1), IdentityFields(hi, s2));
    WithinUnion(lo.tier, IdentityFields(lo, s1), IdentityFields(hi, s2), fields, fields);
    WithinUnion(lo.tier, fields + IdentityFields(lo, s1), fields + IdentityFields(hi, s2), TierField(lo),
                TierField(hi));
    WithinUnion(lo.tier, IdentityFields(lo, s1) + fields, IdentityFields(hi, s2) + fields, TierField(lo),
                TierField(hi));
  }

  lemma SessionWithin(lo: Config, hi: Config, s1: State, s2: State, f: SessionFacts)
    requires Raises(lo, hi) && Related(lo, s1, s2)
    ensures Within(lo.tier, SessionFields(lo, s1, f), SessionFields(hi, s2, f))
  {
    var installed: Fields := map[InstallMethod := NonEmpty(lo.installMethod)];
    var facts := installed + MeasuredFields(f) + EnvironmentFields(f) + VendorFields(f);
    IdentifiedWithin(lo, hi, s1, s2, facts);
    FactsLast(IdentityFields(lo, s1), installed, MeasuredFields(f), EnvironmentFields(f), VendorFields(f));
    FactsLast(IdentityFields(hi, s2), installed, MeasuredFields(f), EnvironmentFields(f), VendorFields(f));
  }

  lemma FactsLast(i: Fields, a: Fields, b: Fields, c: Fields, d: Fields)
    ensures i + a + b + c + d == i + (a + b + c + d)
  {
  }

  lemma CommandFieldsWithin(lo: Config, hi: Config, s1: State, s2: State, done: Fields, outcome: Fields, usage: Fields)
    requires Raises(lo, hi) && Related(lo, s1, s2)
    requires TierKey !in done && TierKey !in outcome && TierKey !in usage && SessionId !in done && InstallId !in done
             && usage.Keys !! done.Keys
    ensures Within(lo.tier, TierField(lo) + done + usage, TierField(hi) + done + usage)
    ensures Within(lo.tier, TierField(lo) + outcome, TierField(hi) + outcome)
    ensures Within(lo.tier, done + IdentityFields(lo, s1) + TierField(lo),
                   done + IdentityFields(hi, s2) + TierField(hi))
  {
    IdentifiedWithin(lo, hi, s1, s2, done);
    WithinUnion(lo.tier, TierField(lo), TierField(hi), done, done);
    WithinUnion(lo.tier, TierField(lo) + done, TierField(hi) + done, usage, usage);
    WithinUnion(lo.tier, TierField(lo), TierField(hi), outcome, outcome);
  }

  lemma CommandWithin(lo: Config, hi: Config, s1: State, s2: State, c: Call)
    requires Raises(lo, hi) && Related(lo, s1, s2) && c.CommandDone?
    ensures Covered(Emitted(lo.tier, Declares(lo, s1, c)), Emitted(hi.tier, Declares(hi, s2, c)))
  {
    var name := lo.Named(c.path);
    CommandFieldsWithin(lo, hi, s1, s2, CompletedFields(name, c.exitCode, c.duration), OutcomeFields(name, c.exitCode),
                        UsageFields(c.flags, c.peakRss, c.cpuTime));
    WithinCovered(lo.tier, hi.tier, Declares(lo, s1, c), Declares(hi, s2, c));
  }

  lemma FailureWithin(lo: Config, hi: Config, s1: State, s2: State, c: Call)
    requires Raises(lo, hi) && Related(lo, s1, s2) && c.Failed?
    ensures Covered(Emitted(lo.tier, Declares(lo, s1, c)), Emitted(hi.tier, Declares(hi, s2, c)))
  {
    var fields := ErrorFields(lo.Named(c.path), c.category, c.reason);
    IdentifiedWithin(lo, hi, s1, s2, fields);
    WithinUnion(lo.tier, fields, fields, TierField(lo), TierField(hi));
    WithinCovered(lo.tier, hi.tier, Declares(lo, s1, c), Declares(hi, s2, c));
  }

  lemma OneWithin(lo: Config, hi: Config, s1: State, s2: State, c: Call)
    requires Raises(lo, hi) && !c.Vendor? && !c.SetKnown?
    requires |Declares(lo, s1, c)| == |Declares(hi, s2, c)| == 1
    requires Declares(lo, s1, c)[0].required == Declares(hi, s2, c)[0].required
             && Declares(lo, s1, c)[0].signal == Declares(hi, s2, c)[0].signal
    requires Within(lo.tier, Declares(lo, s1, c)[0].fields, Declares(hi, s2, c)[0].fields)
    ensures Covered(Emitted(lo.tier, Declares(lo, s1, c)), Emitted(hi.tier, Declares(hi, s2, c)))
  {
    WithinCovered(lo.tier, hi.tier, Declares(lo, s1, c), Declares(hi, s2, c));
  }

  lemma OtherDeclaresCovered(lo: Config, hi: Config, s1: State, s2: State, c: Call)
    requires Raises(lo, hi) && Related(lo, s1, s2) && (c.FeatureUsed? || c.Unknown? || c.Help? || c.FailedInDetail?)
    ensures Covered(Emitted(lo.tier, Declares(lo, s1, c)), Emitted(hi.tier, Declares(hi, s2, c)))
  {
    if c.FeatureUsed? {
      IdentifiedWithin(lo, hi, s1, s2, FeatureFields(c.feature, s1.command));
    }
    OneWithin(lo, hi, s1, s2, c);
  }

  lemma DeclaresCovered(lo: Config, hi: Config, s1: State, s2: State, c: Call)
    requires Raises(lo, hi) && Related(lo, s1, s2) && !c.Vendor? && !c.SetKnown?
    ensures Covered(Emitted(lo.tier, Declares(lo, s1, c)), Emitted(hi.tier, Declares(hi, s2, c)))
  {
    match c
    case SessionStart(f) =>
      SessionWithin(lo, hi, s1, s2, f);
      OneWithin(lo, hi, s1, s2, c);
    case Invocation(path, flags) =>
      IdentifiedWithin(lo, hi, s1, s2, InvocationFields(lo.Named(path), flags));
      OneWithin(lo, hi, s1, s2, c);
    case CommandDone(_, _, _, _, _, _) => CommandWithin(lo, hi, s1, s2, c);
    case Failed(_, _, _) => FailureWithin(lo, hi, s1, s2, c);
    case _ => OtherDeclaresCovered(lo, hi, s1, s2, c);
  }

  /** What one call says at the lower tier, it says at the higher one too; and the clients stay
      related. */
  lemma SaysCovered(lo: Config, hi: Config, s1: State, s2: State, step: Step)
    requires Raises(lo, hi) && Related(lo, s1, s2)
    ensures Covered(Now(lo, s1, step), Now(hi, s2, step))
    ensures Related(lo, CoreNext(lo, s1, step), CoreNext(hi, s2, step))
  {
    if step.Do? {
      var c := step.call;
      if !s1.closed && !c.Vendor? && !c.SetKnown? && !Ignored(lo, s1, c) {
        if c.FeatureUsed? && !lo.Basic() {
          EmittedOne(lo.tier, Declares(lo, Marked(lo, s1, c, step.drawn), c)[0]);
        } else {
          DeclaresCovered(lo, hi, Marked(lo, s1, c, step.drawn), Marked(hi, s2, c, step.drawn), c);
        }
      }
    }
  }

  lemma {:induction false} SaysAllCovered(lo: Config, hi: Config, s1: State, s2: State, calls: seq<Step>)
    requires Raises(lo, hi) && Related(lo, s1, s2)
    ensures Covered(SaysAll(lo, s1, calls), SaysAll(hi, s2, calls))
    decreases |calls|
  {
    if calls != [] {
      SaysCovered(lo, hi, s1, s2, calls[0]);
      var n1, n2 := CoreNext(lo, s1, calls[0]), CoreNext(hi, s2, calls[0]);
      SaysAllCovered(lo, hi, n1, n2, calls[1..]);
      CoveredConcat(Now(lo, s1, calls[0]), Now(hi, s2, calls[0]), SaysAll(lo, n1, calls[1..]),
                    SaysAll(hi, n2, calls[1..]));
    }
  }

  /** Two clients given the same calls, one at a higher tier, each on a schedule of its own and
      without overflow: every record of the lower one is there at the higher one, in the same
      order, with at least the same attributes and the same values, but for the tier's own. */
  lemma RaisingTheTierOnlyAdds(lo: Config, hi: Config, steps1: seq<Step>, steps2: seq<Step>)
    requires Raises(lo, hi) && Calls(steps1) == Calls(steps2)
    requires Run(lo, INITIAL, steps1).overflow == 0 && Run(hi, INITIAL, steps2).overflow == 0
    ensures Covered(Stream(Run(lo, INITIAL, steps1)), Stream(Run(hi, INITIAL, steps2)))
  {
    ScheduleDoesNotMatter(lo, INITIAL, steps1);
    ScheduleDoesNotMatter(hi, INITIAL, steps2);
    SaysAllCovered(lo, hi, INITIAL, INITIAL, Calls(steps1));
    assert [] + SaysAll(lo, INITIAL, Calls(steps1)) == SaysAll(lo, INITIAL, Calls(steps1));
    assert [] + SaysAll(hi, INITIAL, Calls(steps2)) == SaysAll(hi, INITIAL, Calls(steps2));
  }

  // ----- vendor metrics

  /** The install ID published when each call of a schedule is made. */
  function Seen(cfg: Config, s: State, steps: seq<Step>): (seen: seq<Option<string>>)
    ensures |seen| == |Calls(steps)|
    decreases |steps|
  {
    if steps == [] then []
    else (if steps[0].Work? then [] else [s.ready]) + Seen(cfg, Next(cfg, s, steps[0]), steps[1..])
  }

  function PointNow(cfg: Config, core: State, step: Step, ready: Option<string>): seq<Record> {
    if step.Do? && step.call.Vendor? && !core.closed && V.Accepted(step.call.metric)
    then [PointRecord(cfg, core.(ready := ready), step.call.metric)]
    else []
  }

  /** The data points a sequence of calls adds, given the install ID each call finds. */
  function PointsSaid(cfg: Config, core: State, calls: seq<Step>, seen: seq<Option<string>>): seq<Record>
    requires |seen| == |calls|
    decreases |calls|
  {
    if calls == [] then []
    else PointNow(cfg, core, calls[0], seen[0]) + PointsSaid(cfg, CoreNext(cfg, core, calls[0]), calls[1..], seen[1..])
  }

  lemma SubmitCore(cfg: Config, s: State, records: seq<Record>, loads: bool)
    ensures Core(Submit(cfg, s, records, loads)) == Core(s) && Submit(cfg, s, records, loads).points == s.points
  {
  }

  lemma VendorCore(cfg: Config, s: State, m: V.Call)
    ensures Core(PerformVendor(cfg, s, m)) == Core(s)
    ensures PerformVendor(cfg, s, m).points == s.points + if V.Accepted(m) then [PointRecord(cfg, s, m)] else []
  {
  }

  lemma PerformCore(cfg: Config, s: State, c: Call, drawn: string)
    ensures Core(Perform(cfg, s, c, drawn)) == CoreAfter(cfg, Core(s), c, drawn)
    ensures !c.Vendor? ==> Perform(cfg, s, c, drawn).points == s.points
  {
    CoreDecides(cfg, s, c, drawn);
    if c.Vendor? {
      VendorCore(cfg, s, c.metric);
    } else if !c.SetKnown? {
      var marked := Marked(cfg, s, c, drawn);
      SubmitCore(cfg, marked, Emitted(cfg.tier, Declares(cfg, marked, c)), cfg.Basic() && CarriesIdentity(c));
    }
  }

  lemma StepPoints(cfg: Config, s: State, step: Step)
    ensures Core(Next(cfg, s, step)) == CoreNext(cfg, Core(s), step)
    ensures Next(cfg, s, step).points == s.points + PointNow(cfg, Core(s), step, s.ready)
  {
    if step.Do? {
      PerformCore(cfg, s, step.call, step.drawn);
      if step.call.Vendor? {
        VendorCore(cfg, s, step.call.metric);
      }
      if step.call.Vendor? && V.Accepted(step.call.metric) {
        assert PointRecord(cfg, Core(s).(ready := s.ready), step.call.metric) == PointRecord(cfg, s, step.call.metric);
      }
    }
  }

  lemma PointsSaidStep(cfg: Config, s: State, steps: seq<Step>)
    requires steps != []
    ensures var n := Next(cfg, s, steps[0]);
            PointsSaid(cfg, Core(s), Calls(steps), Seen(cfg, s, steps)) ==
            PointNow(cfg, Core(s), steps[0], s.ready)
                  + PointsSaid(cfg, CoreNext(cfg, Core(s), steps[0]), Calls(steps[1..]), Seen(cfg, n, steps[1..]))
  {
    var n := Next(cfg, s, steps[0]);
    var calls, seen := Calls(steps[1..]), Seen(cfg, n, steps[1..]);
    if steps[0].Work? {
      assert [] + calls == calls && [] + seen == seen;
      assert [] + PointsSaid(cfg, Core(s), calls, seen) == PointsSaid(cfg, Core(s), calls, seen);
    } else {
      assert ([steps[0]] + calls)[1..] == calls && ([s.ready] + seen)[1..] == seen;
    }
  }

  /** The schedule reaches the data points only through the install ID each call finds, even when
      the queue overflows. */
  lemma {:induction false} PointsFollowCalls(cfg: Config, s: State, steps: seq<Step>)
    ensures Run(cfg, s, steps).points == s.points + PointsSaid(cfg, Core(s), Calls(steps), Seen(cfg, s, steps))
    decreases |steps|
  {
    if steps != [] {
      var n := Next(cfg, s, steps[0]);
      StepPoints(cfg, s, steps[0]);
      PointsFollowCalls(cfg, n, steps[1..]);
      PointsSaidStep(cfg, s, steps);
      Associative(s.points, PointNow(cfg, Core(s), steps[0], s.ready),
                  PointsSaid(cfg, Core(n), Calls(steps[1..]), Seen(cfg, n, steps[1..])));
    }
  }

  /** Wherever the lower client's call finds an install ID, the higher one's finds the same. */
  predicate SameTiming(seen1: seq<Option<string>>, seen2: seq<Option<string>>) {
    |seen1| == |seen2| && forall i :: 0 <= i < |seen1| && seen1[i].Some? ==> seen2[i] == seen1[i]
  }

  lemma FieldIsKept(id: V.Identity, lo: Tier, hi: Tier, command: Option<string>, ready1: Option<string>,
                    ready2: Option<string>, k: Key)
    requires k != TierKey && (ready1.Some? ==> ready2 == ready1) && V.PointField(id, lo, command, ready1, k).Some?
    ensures V.PointField(id, hi, command, ready2, k) == V.PointField(id, lo, command, ready1, k)
  {
  }

  lemma PointAttrsExtend(id: V.Identity, lo: Tier, hi: Tier, command: Option<string>, ready1: Option<string>,
                         ready2: Option<string>, k: Key)
    requires id.Proper() && hi.Rank() >= lo.Rank() && (ready1.Some? ==> ready2 == ready1)
    requires k != TierKey && k in V.PointAttrs(id, lo, command, ready1)
    ensures k in V.PointAttrs(id, hi, command, ready2)
    ensures V.PointAttrs(id, hi, command, ready2)[k] == V.PointAttrs(id, lo, command, ready1)[k]
  {
    V.PointAttr(id, lo, command, ready1, k);
    V.PointAttr(id, hi, command, ready2, k);
    FieldIsKept(id, lo, hi, command, ready1, ready2, k);
  }

  lemma PointExtends(lo: Config, hi: Config, s1: State, s2: State, m: V.Call)
    requires Raises(lo, hi) && V.Accepted(m) && s1.command == s2.command && (s1.ready.Some? ==> s2.ready == s1.ready)
    ensures Extends(PointRecord(lo, s1, m), PointRecord(hi, s2, m))
  {
    var id := V.IdentityOf(m);
    var a, b := V.PointAttrs(id, lo.tier, s1.command, s1.ready), V.PointAttrs(id, hi.tier, s1.command, s2.ready);
    forall k: Key | k in a && k != TierKey
      ensures k in b && b[k] == a[k]
    {
      PointAttrsExtend(id, lo.tier, hi.tier, s1.command, s1.ready, s2.ready, k);
    }
  }

  /** Point by point, `hi` has what `lo` has. */
  ghost predicate ExtendsEach(lo: seq<Record>, hi: seq<Record>) {
    |lo| == |hi| && forall i :: 0 <= i < |lo| ==> Extends(lo[i], hi[i])
  }

  lemma ExtendsEachConcat(a: seq<Record>, b: seq<Record>, c: seq<Record>, d: seq<Record>)
    requires ExtendsEach(a, b) && ExtendsEach(c, d)
    ensures ExtendsEach(a + c, b + d)
  {
  }

  lemma PointNowExtends(lo: Config, hi: Config, s1: State, s2: State, step: Step, ready1: Option<string>,
                        ready2: Option<string>)
    requires Raises(lo, hi) && Related(lo, s1, s2) && (ready1.Some? ==> ready2 == ready1)
    ensures ExtendsEach(PointNow(lo, s1, step, ready1), PointNow(hi, s2, step, ready2))
  {
    if step.Do? && step.call.Vendor? && V.Accepted(step.call.metric) {
      PointExtends(lo, hi, s1.(ready := ready1), s2.(ready := ready2), step.call.metric);
    }
  }

  lemma {:induction false} PointsSaidExtend(lo: Config, hi: Config, s1: State, s2: State, calls: seq<Step>,
                                            seen1: seq<Option<string>>, seen2: seq<Option<string>>)
    requires Raises(lo, hi) && Related(lo, s1, s2) && |seen1| == |calls| && SameTiming(seen1, seen2)
    ensures ExtendsEach(PointsSaid(lo, s1, calls, seen1), PointsSaid(hi, s2, calls, seen2))
    decreases |calls|
  {
    if calls != [] {
      SaysCovered(lo, hi, s1, s2, calls[0]);
      var n1, n2 := CoreNext(lo, s1, calls[0]), CoreNext(hi, s2, calls[0]);
      PointsSaidExtend(lo, hi, n1, n2, calls[1..], seen1[1..], seen2[1..]);
      PointNowExtends(lo, hi, s1, s2, calls[0], seen1[0], seen2[0]);
      ExtendsEachConcat(PointNow(lo, s1, calls[0], seen1[0]), PointNow(hi, s2, calls[0], seen2[0]),
                        PointsSaid(lo, n1, calls[1..], seen1[1..]), PointsSaid(hi, n2, calls[1..], seen2[1..]));
    }
  }

  /** Data points: the same calls add the same number of points at both tiers, and each point of
      the higher one has all the attributes of the lower one's, given the same install-ID timing.
      Dropped jobs make no difference here. */
  lemma RaisingTheTierOnlyAddsToPoints(lo: Config, hi: Config, steps1: seq<Step>, steps2: seq<Step>)
    requires Raises(lo, hi) && Calls(steps1) == Calls(steps2)
    requires SameTiming(Seen(lo, INITIAL, steps1), Seen(hi, INITIAL, steps2))
    ensures ExtendsEach(Run(lo, INITIAL, steps1).points, Run(hi, INITIAL, steps2).points)
  {
    var seen1, seen2 := Seen(lo, INITIAL, steps1), Seen(hi, INITIAL, steps2);
    PointsFollowCalls(lo, INITIAL, steps1);
    PointsFollowCalls(hi, INITIAL, steps2);
    PointsSaidExtend(lo, hi, INITIAL, INITIAL, Calls(steps1), seen1, seen2);
    assert [] + PointsSaid(lo, INITIAL, Calls(steps1), seen1) == PointsSaid(lo, INITIAL, Calls(steps1), seen1);
    assert [] + PointsSaid(hi, INITIAL, Calls(steps2), seen2) == PointsSaid(hi, INITIAL, Calls(steps2), seen2);
  }
}
