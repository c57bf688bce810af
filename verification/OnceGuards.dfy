/** The two guards of taxonomy.go that let something happen once: sessionOn around the session
    start with its vendor callbacks, and the set of activated features. */
module OnceGuards {
  import opened Wrappers

  type Tid = nat

  datatype Call =
    | StartSession                // RecordSessionStart, past enabled()
    | Activate(feature: string)   // RecordFeatureActivated, past enabled(), with the truncated feature

  datatype Pc =
    | Entered(call: Call)
    | ReadingFacts                // before the vendor callbacks
    | Dispatching                 // before the session start is dispatched
    | Started(first: bool)
    | DispatchingFeature(name: string)
    | Activated(name: string)

  datatype State = State(
    basic: bool,
    threads: map<Tid, Pc>,
    starter: Option<Tid>,          // sessionOn, with the thread that set it
    activated: map<string, Tid>,   // the activated features, with the thread that stored each
    callbackRuns: nat,             // how often the vendor callbacks ran
    startJobs: nat,                // how often the session start was dispatched
    featureJobs: seq<string>)      // the features dispatched, in order

  function Initial(basic: bool): State {
    State(basic, map[], None, map[], 0, 0, [])
  }

  datatype Step = Begin(t: Tid, call: Call) | Advance(t: Tid)

  predicate Enabled(s: State, step: Step) {
    match step
    case Begin(t, _) => t !in s.threads
    case Advance(t) => t in s.threads && !s.threads[t].Started? && !s.threads[t].Activated?
  }

  function Move(s: State, t: Tid, pc: Pc): State {
    s.(threads := s.threads[t := pc])
  }

  function EnterStart(s: State, t: Tid): State {
    if s.starter.Some? then Move(s, t, Started(false))
    else Move(s.(starter := Some(t)), t, if s.basic then ReadingFacts else Dispatching)
  }

  function EnterActivate(s: State, t: Tid, f: string): State {
    if !s.basic || f == "" || f in s.activated then Move(s, t, Activated(f))
    else Move(s.(activated := s.activated[f := t]), t, DispatchingFeature(f))
  }

  function Next(s: State, step: Step): State
    requires Enabled(s, step)
  {
    match step
    case Begin(t, call) => Move(s, t, Entered(call))
    case Advance(t) =>
      match s.threads[t]
      case Entered(call) => if call.StartSession? then EnterStart(s, t) else EnterActivate(s, t, call.feature)
      case ReadingFacts => Move(s.(callbackRuns := s.callbackRuns + 1), t, Dispatching)
      case Dispatching => Move(s.(startJobs := s.startJobs + 1), t, Started(true))
      case DispatchingFeature(f) => Move(s.(featureJobs := s.featureJobs + [f]), t, Activated(f))
      case Started(_) => s
      case Activated(_) => s
  }

  ghost predicate IsRun(s: State, steps: seq<Step>)
    decreases |steps|
  {
    steps == [] || (Enabled(s, steps[0]) && IsRun(Next(s, steps[0]), steps[1..]))
  }

  ghost function After(s: State, steps: seq<Step>): State
    requires IsRun(s, steps)
    decreases |steps|
  {
    if steps == [] then s else After(Next(s, steps[0]), steps[1..])
  }

  // ----- the invariant

  predicate StarterPc(pc: Pc) {
    pc.ReadingFacts? || pc.Dispatching? || pc == Started(true)
  }

  ghost predicate StartInv(s: State) {
    && (forall t :: t in s.threads && StarterPc(s.threads[t]) ==> s.starter == Some(t))
    && (forall t :: t in s.threads && s.threads[t].Started? ==> s.starter.Some?)
    && (s.starter.None? ==> s.startJobs == 0 && s.callbackRuns == 0)
    && (s.starter.Some? ==>
          && s.starter.value in s.threads && StarterPc(s.threads[s.starter.value])
          && s.startJobs == (if s.threads[s.starter.value].Started? then 1 else 0)
          && s.callbackRuns == (if s.basic && !s.threads[s.starter.value].ReadingFacts? then 1 else 0)
          && (s.threads[s.starter.value].ReadingFacts? ==> s.basic))
  }

  ghost predicate FeatureInv(s: State) {
    && (!s.basic ==> s.activated == map[] && s.featureJobs == [])
    && Distinct(s.featureJobs)
    && (forall f :: f in s.featureJobs ==> f in s.activated)
    && (forall f :: f in s.activated ==> f != "" && s.activated[f] in s.threads && StoredPc(s, f))
    && (forall t :: t in s.threads && s.threads[t].DispatchingFeature? ==>
          s.threads[t].name in s.activated && s.activated[s.threads[t].name] == t)
    && (forall t :: t in s.threads && s.threads[t].Activated? && s.basic && s.threads[t].name != "" ==>
          s.threads[t].name in s.activated)
  }

  /** Whoever stored a feature dispatches it. */
  predicate StoredPc(s: State, f: string)
    requires f in s.activated && s.activated[f] in s.threads
  {
    var pc := s.threads[s.activated[f]];
    (pc == DispatchingFeature(f) && f !in s.featureJobs) || (pc == Activated(f) && f in s.featureJobs)
  }

  predicate EntersStart(s: State, step: Step) {
    step.Advance? && step.t in s.threads && s.threads[step.t] == Entered(StartSession)
  }

  lemma EnterStartStep(s: State, t: Tid)
    requires StartInv(s) && EntersStart(s, Advance(t))
    ensures StartInv(EnterStart(s, t))
  {
  }

  lemma LaterStartStep(s: State, step: Step)
    requires StartInv(s) && Enabled(s, step) && !EntersStart(s, step)
    ensures StartInv(Next(s, step))
  {
  }

  lemma StartStep(s: State, step: Step)
    requires StartInv(s) && Enabled(s, step)
    ensures StartInv(Next(s, step)) && Next(s, step).basic == s.basic
  {
    if EntersStart(s, step) {
      EnterStartStep(s, step.t);
    } else {
      LaterStartStep(s, step);
    }
  }

  lemma ActivateStep(s: State, t: Tid)
    requires FeatureInv(s) && Enabled(s, Advance(t)) && s.threads[t].Entered? && s.threads[t].call.Activate?
    ensures FeatureInv(Next(s, Advance(t)))
  {
  }

  lemma DispatchFeatureStep(s: State, t: Tid)
    requires FeatureInv(s) && Enabled(s, Advance(t)) && s.threads[t].DispatchingFeature?
    ensures FeatureInv(Next(s, Advance(t)))
  {
  }

  lemma OtherFeatureStep(s: State, step: Step)
    requires FeatureInv(s) && Enabled(s, step)
    requires step.Advance? ==>
               && !s.threads[step.t].DispatchingFeature?
               && (s.threads[step.t].Entered? ==> s.threads[step.t].call.StartSession?)
    ensures FeatureInv(Next(s, step))
  {
  }

  lemma FeatureStep(s: State, step: Step)
    requires FeatureInv(s) && Enabled(s, step)
    ensures FeatureInv(Next(s, step))
  {
    if step.Advance? && s.threads[step.t].DispatchingFeature? {
      DispatchFeatureStep(s, step.t);
    } else if step.Advance? && s.threads[step.t].Entered? && s.threads[step.t].call.Activate? {
      ActivateStep(s, step.t);
    } else {
      OtherFeatureStep(s, step);
    }
  }

  lemma {:induction false} RunKeepsInv(s: State, steps: seq<Step>)
    requires StartInv(s) && FeatureInv(s) && IsRun(s, steps)
    ensures StartInv(After(s, steps)) && FeatureInv(After(s, steps)) && After(s, steps).basic == s.basic
    decreases |steps|
  {
    if steps != [] {
      StartStep(s, steps[0]);
      FeatureStep(s, steps[0]);
      RunKeepsInv(Next(s, steps[0]), steps[1..]);
    }
  }

  /** In every interleaving the session start is dispatched at most once, the vendor callbacks run
      at most once and never below Basic, and no feature is dispatched twice, none below Basic. */
  lemma OnceInEveryInterleaving(basic: bool, steps: seq<Step>)
    requires IsRun(Initial(basic), steps)
    ensures var s := After(Initial(basic), steps);
            && s.startJobs <= 1
            && s.callbackRuns <= (if basic then 1 else 0)
            && Distinct(s.featureJobs)
            && "" !in s.featureJobs
            && (!basic ==> s.featureJobs == [])
            && (s.startJobs == 1 && basic ==> s.callbackRuns == 1)
  {
    RunKeepsInv(Initial(basic), steps);
  }

  /** No call is under way. */
  ghost predicate Quiet(s: State) {
    forall t :: t in s.threads ==> s.threads[t].Started? || s.threads[t].Activated?
  }

  ghost predicate Asked(s: State, f: string) {
    exists t :: t in s.threads && s.threads[t] == Activated(f)
  }

  /** When all calls have returned, what was asked for has happened: the session start was dispatched
      if anyone asked for it, with the callbacks run at Basic and above, and the features that were
      dispatched are exactly the non-empty ones asked for at Basic and above. */
  lemma ServedInTheEnd(basic: bool, steps: seq<Step>)
    requires IsRun(Initial(basic), steps) && Quiet(After(Initial(basic), steps))
    ensures var s := After(Initial(basic), steps);
            var started := exists t :: t in s.threads && s.threads[t].Started?;
            && s.startJobs == (if started then 1 else 0)
            && s.callbackRuns == (if started && basic then 1 else 0)
            && forall f :: f in s.featureJobs <==> basic && f != "" && Asked(s, f)
  {
    RunKeepsInv(Initial(basic), steps);
    var s := After(Initial(basic), steps);
    forall f
      ensures f in s.featureJobs <==> basic && f != "" && Asked(s, f)
    {
      if f in s.activated {
        assert StoredPc(s, f);
      }
    }
  }
}
