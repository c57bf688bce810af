/** ensureSessionID of taxonomy.go, called by any number of goroutines: load, compare-and-swap,
    reload, each a step of its own. */
module SessionIdRace {
  import opened Wrappers

  type Tid = nat

  datatype Pc =
    | Entered                    // before the tier check and the first Load
    | Drawing                    // before newSessionID
    | Swapping(drawn: string)    // before CompareAndSwap(nil, &id)
    | Reloading(drawn: string)   // before the second Load
    | Returned(id: string)

  datatype State = State(basic: bool, threads: map<Tid, Pc>, session: Option<string>)

  /** A goroutine calls, or takes its next step; `random` is what newSessionID would return, empty
      when the random source fails. */
  datatype Step = Call(t: Tid) | Advance(t: Tid, random: string)

  predicate Enabled(s: State, step: Step) {
    match step
    case Call(t) => t !in s.threads
    case Advance(t, _) => t in s.threads && !s.threads[t].Returned?
  }

  function Move(s: State, t: Tid, pc: Pc): State {
    s.(threads := s.threads[t := pc])
  }

  function Next(s: State, step: Step): State
    requires Enabled(s, step)
  {
    match step
    case Call(t) => Move(s, t, Entered)
    case Advance(t, random) =>
      match s.threads[t]
      case Entered =>
        if !s.basic then Move(s, t, Returned(""))
        else if s.session.Some? then Move(s, t, Returned(s.session.value))
        else Move(s, t, Drawing)
      case Drawing => Move(s, t, Swapping(random))
      case Swapping(drawn) => Move(s.(session := s.session.Or(Some(drawn))), t, Reloading(drawn))
      case Reloading(drawn) => Move(s, t, Returned(if s.session.Some? then s.session.value else drawn))
      case Returned(_) => s
  }

  ghost predicate IsRun(s: State, steps: seq<Step>)
    decreases |steps|
  {
    steps == [] || (Enabled(s, steps[0]) && IsRun(Next(s, steps[0]), steps[1..]))
  }

  ghost function After(s: State, steps: seq<Step>): State
    requires IsRun(s, steps)
    decreases |steps|
  {
    if steps == [] then s else After(Next(s, steps[0]), steps[1..])
  }

  predicate ThreadInv(s: State, pc: Pc) {
    match pc
    case Entered => true
    case Drawing => s.basic
    case Swapping(_) => s.basic
    case Reloading(_) => s.basic && s.session.Some?
    case Returned(id) => if s.basic then s.session == Some(id) else id == ""
  }

  ghost predicate Inv(s: State) {
    && (!s.basic ==> s.session.None?)
    && forall t :: t in s.threads ==> ThreadInv(s, s.threads[t])
  }

  lemma StepKeepsInv(s: State, step: Step)
    requires Inv(s) && Enabled(s, step)
    ensures Inv(Next(s, step)) && Next(s, step).basic == s.basic
    ensures s.session.Some? ==> Next(s, step).session == s.session
  {
  }

  lemma {:induction false} RunKeepsInv(s: State, steps: seq<Step>)
    requires Inv(s) && IsRun(s, steps)
    ensures Inv(After(s, steps)) && After(s, steps).basic == s.basic
    ensures s.session.Some? ==> After(s, steps).session == s.session
    ensures forall t :: t in s.threads && s.threads[t].Returned? ==>
              t in After(s, steps).threads && After(s, steps).threads[t] == s.threads[t]
    decreases |steps|
  {
    if steps != [] {
      StepKeepsInv(s, steps[0]);
      RunKeepsInv(Next(s, steps[0]), steps[1..]);
    }
  }

  /** In every interleaving all calls return one and the same ID, now and at any later time, and
      below Basic they return nothing and no ID is kept. */
  lemma AllCallsAgree(basic: bool, steps: seq<Step>, later: seq<Step>, t: Tid, u: Tid)
    requires IsRun(State(basic, map[], None), steps)
    requires IsRun(After(State(basic, map[], None), steps), later)
    ensures var s := After(State(basic, map[], None), steps);
            var n := After(s, later);
            && (!basic ==> n.session.None?)
            && (t in s.threads && s.threads[t].Returned? && u in n.threads && n.threads[u].Returned? ==>
                  s.threads[t].id == n.threads[u].id && (basic ==> n.session == Some(s.threads[t].id))
                      && (!basic ==> n.threads[u].id == ""))
  {
    var i := State(basic, map[], None);
    RunKeepsInv(i, steps);
    var s := After(i, steps);
    RunKeepsInv(s, later);
    var n := After(s, later);
    if t in s.threads && s.threads[t].Returned? && u in n.threads && n.threads[u].Returned? {
      assert ThreadInv(s, s.threads[t]) && ThreadInv(n, n.threads[u]);
    }
  }

  // ----- where the ID comes from

  /** What the calls of a run draw. */
  ghost function Draws(s: State, steps: seq<Step>): set<string>
    requires IsRun(s, steps)
    decreases |steps|
  {
    if steps == [] then {}
    else
      var rest := Draws(Next(s, steps[0]), steps[1..]);
      if steps[0].Advance? && s.threads[steps[0].t] == Drawing then rest + {steps[0].random} else rest
  }

  /** A call has drawn this ID and not yet offered it. */
  ghost predicate Offered(s: State, id: string) {
    exists t :: t in s.threads && s.threads[t] == Swapping(id)
  }

  lemma OfferStep(s: State, step: Step, id: string)
    requires Enabled(s, step)
    ensures Offered(Next(s, step), id) ==>
              Offered(s, id) || (step.Advance? && s.threads[step.t] == Drawing && step.random == id)
    ensures Next(s, step).session == Some(id) ==> s.session == Some(id) || Offered(s, id)
  {
    if t :| t in Next(s, step).threads && Next(s, step).threads[t] == Swapping(id) {
      assert t in s.threads;
    }
  }

  lemma {:induction false} KeptWasDrawn(s: State, steps: seq<Step>, id: string)
    requires IsRun(s, steps) && After(s, steps).session == Some(id)
    ensures s.session == Some(id) || Offered(s, id) || id in Draws(s, steps)
    decreases |steps|
  {
    if steps != [] {
      KeptWasDrawn(Next(s, steps[0]), steps[1..], id);
      OfferStep(s, steps[0], id);
    }
  }

  /** At Basic and above the one ID all calls return was drawn by one of them. */
  lemma ReturnedIdWasDrawn(steps: seq<Step>, t: Tid)
    requires IsRun(State(true, map[], None), steps)
    requires var s := After(State(true, map[], None), steps);
             t in s.threads && s.threads[t].Returned?
    ensures After(State(true, map[], None), steps).threads[t].id in Draws(State(true, map[], None), steps)
  {
    var i := State(true, map[], None);
    RunKeepsInv(i, steps);
    var s := After(i, steps);
    assert ThreadInv(s, s.threads[t]);
    KeptWasDrawn(i, steps, s.threads[t].id);
  }
}
