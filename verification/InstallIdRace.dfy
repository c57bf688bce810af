/** The install ID of taxonomy.go between the worker that loads it and the goroutines that attach
    it to data points: installOnce, installIDReady and installLoading, one atomic step at a time. */
module InstallIdRace {
  import opened Wrappers

  type Tid = nat

  datatype Call =
    | Metric        // a vendor metric call: metricInstallAttrs, then the instrument's Add
    | IdentityJob   // a job: identityAttrs, or the loading job a metric call asked for

  datatype Pc =
    | Entered(call: Call)
    | Asking                          // found no ID, before installLoading's compare-and-swap
    | Adding(attach: Option<string>)  // before the data point is added
    | Added
    | AtOnce                          // before installOnce.Do
    | Loading                         // inside Do, before loadOrCreateInstallID
    | Storing                         // inside Do, before installIDReady.Store
    | Marking                         // inside Do, before Do marks itself done
    | Finished

  datatype Once = NotYet | Busy(t: Tid) | Over

  datatype DataPoint = DataPoint(caller: Tid, id: Option<string>)

  datatype State = State(
    basic: bool,
    threads: map<Tid, Pc>,
    once: Once,
    installId: string,
    ready: Option<string>,
    loading: bool,
    // what happened so far
    loads: nat,               // how often loadOrCreateInstallID ran
    requests: nat,            // how often the loading job was dispatched
    points: seq<DataPoint>,   // in the order they reached the instrument
    lookedLate: set<Tid>)     // metric calls whose Load found a published ID

  function Initial(basic: bool): State {
    State(basic, map[], NotYet, "", None, false, 0, 0, [], {})
  }

  /** `stored` is what loadOrCreateInstallID would return now. */
  datatype Step = Begin(t: Tid, call: Call) | Advance(t: Tid, stored: string)

  predicate Enabled(s: State, step: Step) {
    match step
    case Begin(t, _) => t !in s.threads
    case Advance(t, _) =>
      && t in s.threads && !s.threads[t].Added? && !s.threads[t].Finished?
      && !(s.threads[t].AtOnce? && s.once.Busy?)
  }

  function Move(s: State, t: Tid, pc: Pc): State {
    s.(threads := s.threads[t := pc])
  }

  /** An empty ID is published like any other but never attached. */
  function Attachable(ready: Option<string>): Option<string> {
    if ready == Some("") then None else ready
  }

  function EnterMetric(s: State, t: Tid): State {
    if !s.basic then Move(s, t, Adding(None))
    else if s.ready.Some? then Move(s.(lookedLate := s.lookedLate + {t}), t, Adding(Attachable(s.ready)))
    else Move(s, t, Asking)
  }

  function Ask(s: State, t: Tid): State {
    if s.loading then Move(s, t, Adding(None))
    else Move(s.(loading := true, requests := s.requests + 1), t, Adding(None))
  }

  function EnterOnce(s: State, t: Tid): State {
    if s.once.Over? then Move(s, t, Finished) else Move(s.(once := Busy(t)), t, Loading)
  }

  function Next(s: State, step: Step): State
    requires Enabled(s, step)
  {
    match step
    case Begin(t, call) => Move(s, t, Entered(call))
    case Advance(t, stored) =>
      match s.threads[t]
      case Entered(call) =>
        if call.Metric? then EnterMetric(s, t) else if s.basic then Move(s, t, AtOnce) else Move(s, t, Finished)
      case Asking => Ask(s, t)
      case Adding(attach) => Move(s.(points := s.points + [DataPoint(t, attach)]), t, Added)
      case AtOnce => EnterOnce(s, t)
      case Loading => Move(s.(installId := stored, loads := s.loads + 1), t, Storing)
      case Storing => Move(s.(ready := Some(s.installId)), t, Marking)
      case Marking => Move(s.(once := Over), t, Finished)
      case Added => s
      case Finished => s
  }

  ghost predicate IsRun(s: State, steps: seq<Step>)
    decreases |steps|
  {
    steps == [] || (Enabled(s, steps[0]) && IsRun(Next(s, steps[0]), steps[1..]))
  }

  ghost function After(s: State, steps: seq<Step>): State
    requires IsRun(s, steps)
    decreases |steps|
  {
    if steps == [] then s else After(Next(s, steps[0]), steps[1..])
  }

  // ----- the invariant

  ghost predicate LoadInv(s: State) {
    && (match s.once
        case NotYet => s.loads == 0 && s.ready.None?
        case Busy(t) => s.basic && t in s.threads && InsideOnce(s, s.threads[t])
        case Over => s.basic && s.loads == 1 && s.ready.Some?)
    && (s.ready.Some? ==> s.ready.value == s.installId)
    && (forall t :: t in s.threads && (s.threads[t].Loading? || s.threads[t].Storing? || s.threads[t].Marking?) ==>
        s.once == Busy(t))
    && (forall t :: t in s.threads && s.threads[t].AtOnce? ==> s.basic)
  }

  predicate InsideOnce(s: State, pc: Pc) {
    match pc
    case Loading => s.loads == 0 && s.ready.None?
    case Storing => s.loads == 1 && s.ready.None?
    case Marking => s.loads == 1 && s.ready.Some?
    case _ => false
  }

  predicate MetricPc(s: State, t: Tid, pc: Pc) {
    match pc
    case Asking => s.basic && t !in s.lookedLate
    case Adding(attach) => attach == if t in s.lookedLate then Attachable(s.ready) else None
    case Added => true
    case _ => t !in s.lookedLate
  }

  ghost predicate MetricInv(s: State) {
    && (!s.basic ==> s.ready.None? && s.requests == 0)
    && s.requests == (if s.loading then 1 else 0)
    && (s.lookedLate != {} ==> s.ready.Some?)
    && (forall t :: t in s.lookedLate ==> t in s.threads)
    && (forall t :: t in s.threads ==> MetricPc(s, t, s.threads[t]))
    && (forall i :: 0 <= i < |s.points| ==> PointInv(s, s.points[i]))
  }

  ghost predicate PointInv(s: State, p: DataPoint) {
    && p.caller in s.threads && s.threads[p.caller] == Added
    && p.id == if p.caller in s.lookedLate then Attachable(s.ready) else None
  }

  ghost predicate Inv(s: State) {
    LoadInv(s) && MetricInv(s)
  }

  /** The steps that neither load nor publish. */
  lemma OtherStep(s: State, step: Step)
    requires LoadInv(s) && Enabled(s, step)
    requires step.Advance? ==>
               !(s.threads[step.t].AtOnce? || s.threads[step.t].Loading? || s.threads[step.t].Storing?
                 || s.threads[step.t].Marking?)
    ensures LoadInv(Next(s, step)) && Next(s, step).ready == s.ready
  {
  }

  lemma OnceStep(s: State, t: Tid, stored: string)
    requires LoadInv(s) && Enabled(s, Advance(t, stored))
    requires s.threads[t].AtOnce? || s.threads[t].Loading? || s.threads[t].Storing? || s.threads[t].Marking?
    ensures LoadInv(Next(s, Advance(t, stored)))
    ensures s.ready.Some? ==> Next(s, Advance(t, stored)).ready == s.ready
  {
  }

  lemma LoadStep(s: State, step: Step)
    requires LoadInv(s) && Enabled(s, step)
    ensures LoadInv(Next(s, step)) && Next(s, step).basic == s.basic
    ensures s.ready.Some? ==> Next(s, step).ready == s.ready
  {
    if step.Advance? && (s.threads[step.t].AtOnce? || s.threads[step.t].Loading? || s.threads[step.t].Storing?
                         || s.threads[step.t].Marking?) {
      OnceStep(s, step.t, step.stored);
    } else {
      OtherStep(s, step);
    }
  }

  lemma BeginStep(s: State, t: Tid, call: Call)
    requires Inv(s) && t !in s.threads
    ensures MetricInv(Move(s, t, Entered(call)))
  {
  }

  lemma AddStep(s: State, t: Tid, stored: string)
    requires Inv(s) && Enabled(s, Advance(t, stored)) && s.threads[t].Adding?
    ensures MetricInv(Next(s, Advance(t, stored)))
  {
  }

  lemma LookStep(s: State, t: Tid, stored: string)
    requires Inv(s) && Enabled(s, Advance(t, stored)) && (s.threads[t].Entered? || s.threads[t].Asking?)
    ensures MetricInv(Next(s, Advance(t, stored)))
    ensures Next(s, Advance(t, stored)).points == s.points
  {
  }

  lemma LoaderStep(s: State, t: Tid, stored: string)
    requires Inv(s) && Enabled(s, Advance(t, stored))
    requires !s.threads[t].Adding? && !s.threads[t].Entered? && !s.threads[t].Asking?
    ensures MetricInv(Next(s, Advance(t, stored)))
    ensures Next(s, Advance(t, stored)).points == s.points
  {
  }

  lemma QuietStep(s: State, t: Tid, stored: string)
    requires Inv(s) && Enabled(s, Advance(t, stored)) && !s.threads[t].Adding?
    ensures MetricInv(Next(s, Advance(t, stored)))
    ensures Next(s, Advance(t, stored)).points == s.points
  {
    if s.threads[t].Entered? || s.threads[t].Asking? {
      LookStep(s, t, stored);
    } else {
      LoaderStep(s, t, stored);
    }
  }

  lemma MetricStep(s: State, step: Step)
    requires Inv(s) && Enabled(s, step)
    ensures MetricInv(Next(s, step))
    ensures s.lookedLate <= Next(s, step).lookedLate && s.points <= Next(s, step).points
  {
    if step.Begin? {
      BeginStep(s, step.t, step.call);
    } else if s.threads[step.t].Adding? {
      AddStep(s, step.t, step.stored);
    } else {
      QuietStep(s, step.t, step.stored);
    }
  }

  lemma {:induction false} RunKeepsInv(s: State, steps: seq<Step>)
    requires Inv(s) && IsRun(s, steps)
    ensures Inv(After(s, steps)) && After(s, steps).basic == s.basic
    ensures s.ready.Some? ==> After(s, steps).ready == s.ready
    ensures s.points <= After(s, steps).points
    decreases |steps|
  {
    if steps != [] {
      LoadStep(s, steps[0]);
      MetricStep(s, steps[0]);
      RunKeepsInv(Next(s, steps[0]), steps[1..]);
    }
  }

  // ----- what holds in every interleaving

  /** The install ID is loaded at most once and asked for at most once, a data point carries the
      loaded ID or none, and below Basic nothing is loaded, asked for or attached. */
  lemma LoadedOnceAttachedOnlyThen(basic: bool, steps: seq<Step>)
    requires IsRun(Initial(basic), steps)
    ensures var s := After(Initial(basic), steps);
            && s.loads <= (if basic then 1 else 0)
            && s.requests <= (if basic then 1 else 0)
            && forall p :: p in s.points && p.id.Some? ==>
                  basic && s.loads == 1 && p.id == Some(s.installId) && s.installId != ""
  {
    RunKeepsInv(Initial(basic), steps);
    var s := After(Initial(basic), steps);
    forall p | p in s.points && p.id.Some?
      ensures basic && s.loads == 1 && p.id == Some(s.installId) && s.installId != ""
    {
      assert PointInv(s, p);
    }
  }

  /** Calls that can still only record a point with the published ID. */
  ghost predicate LooksLater(s: State, t: Tid) {
    t !in s.threads || s.threads[t].Entered? || t in s.lookedLate || s.threads[t].AtOnce? || s.threads[t].Loading?
    || s.threads[t].Storing? || s.threads[t].Marking? || s.threads[t].Finished?
  }

  lemma LooksLaterStep(s: State, step: Step, t: Tid)
    requires Inv(s) && Enabled(s, step) && s.ready.Some? && LooksLater(s, t)
    ensures LooksLater(Next(s, step), t)
  {
  }

  lemma {:induction false} LooksLaterRun(s: State, steps: seq<Step>, t: Tid)
    requires Inv(s) && IsRun(s, steps) && s.ready.Some? && LooksLater(s, t)
    ensures LooksLater(After(s, steps), t)
    decreases |steps|
  {
    if steps != [] {
      LooksLaterStep(s, steps[0], t);
      LoadStep(s, steps[0]);
      MetricStep(s, steps[0]);
      LooksLaterRun(Next(s, steps[0]), steps[1..], t);
    }
  }

  /** Once one data point carries the install ID, so does the point of every metric call that
      starts, or has not yet looked, from then on. */
  lemma LaterCallsCarryTheId(basic: bool, steps: seq<Step>, more: seq<Step>, i: nat, j: nat)
    requires IsRun(Initial(basic), steps) && IsRun(After(Initial(basic), steps), more)
    requires var s := After(Initial(basic), steps);
             var n := After(s, more);
             && i < |s.points| && s.points[i].id.Some?
             && j < |n.points|
             && (n.points[j].caller in s.threads ==> s.threads[n.points[j].caller].Entered?)
    ensures var s := After(Initial(basic), steps);
            After(s, more).points[j].id == s.points[i].id
  {
    RunKeepsInv(Initial(basic), steps);
    var s := After(Initial(basic), steps);
    RunKeepsInv(s, more);
    var n := After(s, more);
    assert PointInv(s, s.points[i]) && PointInv(n, n.points[j]);
    LooksLaterRun(s, more, n.points[j].caller);
  }

  // ----- when a call looks

  lemma {:induction false} PrefixIsRun(s: State, steps: seq<Step>, k: nat)
    requires IsRun(s, steps) && k <= |steps|
    ensures IsRun(s, steps[..k])
    decreases k
  {
    if k != 0 {
      PrefixIsRun(Next(s, steps[0]), steps[1..], k - 1);
      assert steps[..k][1..] == steps[1..][..k - 1];
    }
  }

  /** Step `k` of the run is the one in which metric call `t` looks for a published ID, and there
      is one by then. */
  ghost predicate FindsAt(s: State, steps: seq<Step>, t: Tid, k: nat)
    requires IsRun(s, steps)
  {
    && k < |steps| && steps[k].Advance? && steps[k].t == t
    && IsRun(s, steps[..k])
    && var before := After(s, steps[..k]);
       t in before.threads && before.threads[t] == Entered(Metric) && before.ready.Some?
  }

  lemma FirstFinds(s: State, steps: seq<Step>, t: Tid)
    requires IsRun(s, steps) && steps != []
    ensures FindsAt(s, steps, t, 0) <==>
            steps[0].Advance? && steps[0].t == t && t in s.threads && s.threads[t] == Entered(Metric) && s.ready.Some?
  {
    assert steps[..0] == [];
  }

  lemma LaterFinds(s: State, steps: seq<Step>, t: Tid, k: nat)
    requires IsRun(s, steps) && steps != []
    ensures FindsAt(s, steps, t, k + 1) <==> FindsAt(Next(s, steps[0]), steps[1..], t, k)
  {
    if k + 1 < |steps| {
      PrefixIsRun(s, steps, k + 1);
      PrefixIsRun(Next(s, steps[0]), steps[1..], k);
      assert steps[..k + 1][1..] == steps[1..][..k];
    }
  }

  lemma LooksNow(s: State, step: Step, t: Tid)
    requires s.basic && Enabled(s, step)
    ensures Next(s, step).basic
    ensures t in Next(s, step).lookedLate <==>
            t in s.lookedLate || (step.Advance? && step.t == t && s.threads[t] == Entered(Metric) && s.ready.Some?)
  {
  }

  /** The calls remembered as having found an ID are those that looked at a point of the run at
      which one was published. */
  lemma {:induction false} LookedLateExactlyWhen(s: State, steps: seq<Step>, t: Tid)
    requires s.basic && IsRun(s, steps)
    ensures t in After(s, steps).lookedLate <==> t in s.lookedLate || exists k :: FindsAt(s, steps, t, k)
    decreases |steps|
  {
    if steps != [] {
      var n := Next(s, steps[0]);
      LooksNow(s, steps[0], t);
      LookedLateExactlyWhen(n, steps[1..], t);
      FirstFinds(s, steps, t);
      forall k: nat
        ensures FindsAt(s, steps, t, k + 1) <==> FindsAt(n, steps[1..], t, k)
      {
        LaterFinds(s, steps, t, k);
      }
      if k: nat :| FindsAt(n, steps[1..], t, k) {
        assert FindsAt(s, steps, t, k + 1);
      }
      if k: nat :| FindsAt(s, steps, t, k) && k > 0 {
        assert FindsAt(n, steps[1..], t, k - 1);
      }
    }
  }

  /** Ordered by when they reach the instrument the points do not have to agree: a point added
      after one that carries the ID carries it exactly when its own call looked, at some step of the
      run, after the ID was published. */
  lemma LaterPointsCarryExactlyWhen(basic: bool, steps: seq<Step>, i: nat, j: nat)
    requires IsRun(Initial(basic), steps)
    requires var s := After(Initial(basic), steps);
             i < j < |s.points| && s.points[i].id.Some?
    ensures var s := After(Initial(basic), steps);
            s.points[j].id == s.points[i].id <==> exists k :: FindsAt(Initial(basic), steps, s.points[j].caller, k)
  {
    RunKeepsInv(Initial(basic), steps);
    var s := After(Initial(basic), steps);
    assert PointInv(s, s.points[i]) && PointInv(s, s.points[j]);
    LookedLateExactlyWhen(Initial(basic), steps, s.points[j].caller);
  }

  // ----- who is served

  ghost predicate ServedInv(s: State) {
    && (forall t :: t in s.threads && s.threads[t].Finished? && s.basic ==> s.once.Over?)
    && (forall t :: t in s.threads && (s.threads[t].Added? || s.threads[t].Adding?) && s.basic ==>
          t in s.lookedLate || s.loading)
  }

  lemma ServedStep(s: State, step: Step)
    requires Inv(s) && ServedInv(s) && Enabled(s, step)
    ensures ServedInv(Next(s, step))
  {
  }

  lemma {:induction false} ServedRun(s: State, steps: seq<Step>)
    requires Inv(s) && ServedInv(s) && IsRun(s, steps)
    ensures Inv(After(s, steps)) && ServedInv(After(s, steps))
    decreases |steps|
  {
    if steps != [] {
      LoadStep(s, steps[0]);
      MetricStep(s, steps[0]);
      ServedStep(s, steps[0]);
      ServedRun(Next(s, steps[0]), steps[1..]);
    }
  }

  /** At Basic and above a job that is over leaves the ID loaded and published, and a metric call
      that is over and found no ID has had it asked for. */
  lemma EveryCallIsServed(steps: seq<Step>, t: Tid)
    requires IsRun(Initial(true), steps) && t in After(Initial(true), steps).threads
    ensures var s := After(Initial(true), steps);
            && (s.threads[t].Finished? ==> s.loads == 1 && s.ready.Some?)
            && (s.threads[t].Added? ==>
                  s.requests == 1 || exists k :: FindsAt(Initial(true), steps, t, k))
  {
    ServedRun(Initial(true), steps);
    RunKeepsInv(Initial(true), steps);
    LookedLateExactlyWhen(Initial(true), steps, t);
  }

  // ----- where the ID comes from

  /** What the run's calls of loadOrCreateInstallID return, in order. */
  ghost function Loads(s: State, steps: seq<Step>): seq<string>
    requires IsRun(s, steps)
    decreases |steps|
  {
    if steps == [] then []
    else
      var rest := Loads(Next(s, steps[0]), steps[1..]);
      if steps[0].Advance? && s.threads[steps[0].t] == Loading then [steps[0].stored] + rest else rest
  }

  lemma {:induction false} KeepsTheLastLoad(s: State, steps: seq<Step>)
    requires IsRun(s, steps)
    ensures var n, loads := After(s, steps), Loads(s, steps);
            n.loads == s.loads + |loads| && n.installId == if loads == [] then s.installId else loads[|loads| - 1]
    decreases |steps|
  {
    if steps != [] {
      KeepsTheLastLoad(Next(s, steps[0]), steps[1..]);
    }
  }

  /** What is published is what the only load of the run returned. */
  lemma PublishedIsWhatWasLoaded(basic: bool, steps: seq<Step>)
    requires IsRun(Initial(basic), steps)
    ensures var s, loads := After(Initial(basic), steps), Loads(Initial(basic), steps);
            && |loads| <= 1
            && (s.ready.Some? ==> |loads| == 1 && s.ready == Some(loads[0]))
            && (s.once.Over? ==> s.ready.Some?)
  {
    RunKeepsInv(Initial(basic), steps);
    KeepsTheLastLoad(Initial(basic), steps);
  }

  lemma {:induction false} RunThen(s: State, steps: seq<Step>, step: Step)
    requires IsRun(s, steps) && Enabled(After(s, steps), step)
    ensures IsRun(s, steps + [step]) && After(s, steps + [step]) == Next(After(s, steps), step)
    decreases |steps|
  {
    if steps == [] {
      assert [] + [step] == [step] && [step][1..] == [];
    } else {
      assert (steps + [step])[1..] == steps[1..] + [step];
      RunThen(Next(s, steps[0]), steps[1..], step);
    }
  }

  /** And it does happen: a call that looked too early adds its point after one that carries the ID. */
  lemma SomeLaterPointLacksTheId()
    ensures exists steps :: IsRun(Initial(true), steps) &&
              After(Initial(true), steps).points == [DataPoint(1, Some("id")), DataPoint(0, None)]
  {
    var i := Initial(true);
    var r0 := [Begin(0, Metric)];
    assert r0[1..] == [];
    assert IsRun(i, r0);
    RunThen(i, r0, Begin(1, Metric));
    var r1 := r0 + [Begin(1, Metric)];
    RunThen(i, r1, Begin(2, IdentityJob));
    var r2 := r1 + [Begin(2, IdentityJob)];
    var s2 := After(i, r2);
    assert s2 == i.(threads := map[0 := Entered(Metric), 1 := Entered(Metric), 2 := Entered(IdentityJob)]);
    RunThen(i, r2, Advance(0, ""));
    var r3 := r2 + [Advance(0, "")];
    RunThen(i, r3, Advance(0, ""));
    var r4 := r3 + [Advance(0, "")];
    RunThen(i, r4, Advance(2, ""));
    var r5 := r4 + [Advance(2, "")];
    RunThen(i, r5, Advance(2, ""));
    var r6 := r5 + [Advance(2, "")];
    RunThen(i, r6, Advance(2, "id"));
    var r7 := r6 + [Advance(2, "id")];
    RunThen(i, r7, Advance(2, ""));
    var r8 := r7 + [Advance(2, "")];
    assert After(i, r8).ready == Some("id");
    RunThen(i, r8, Advance(1, ""));
    var r9 := r8 + [Advance(1, "")];
    RunThen(i, r9, Advance(1, ""));
    var r10 := r9 + [Advance(1, "")];
    RunThen(i, r10, Advance(0, ""));
    var r11 := r10 + [Advance(0, "")];
    assert After(i, r11).points == [DataPoint(1, Some("id")), DataPoint(0, None)];
  }
}
