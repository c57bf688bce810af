/** Why each call of the background queue ended as it did: what is recorded of a run, and where its
    threads are, is exactly what steps of that run, taken in the right circumstances, made it. */
module JobQueueOutcomes {
  import opened Wrappers
  import opened JobQueue
  import opened JobQueueSafety

  /** What can be said of a call once something has happened to it, and then for good. */
  datatype Mark = Entry | Refusal | Acceptance | Drop | Cancellation | NilDrain | Victory | Completion | Panic

  predicate Bears(s: State, t: Tid, mark: Mark) {
    match mark
    case Entry => t in s.passed
    case Refusal => t in s.threads && (s.threads[t].pc == Done(Ignored) || s.threads[t].pc == Done(AlreadyShut))
    case Acceptance => t in s.accepted
    case Drop => t in s.dropped
    case Cancellation => t in s.threads && GaveUp(s.threads[t].pc)
    case NilDrain => t in s.threads && DrainedOk(s.threads[t].pc)
    case Victory => s.winner == Some(t)
    case Completion => t in s.finished
    case Panic => t in s.panicked
  }

  /** drain has returned the context's error in this thread. */
  predicate GaveUp(pc: Pc) {
    || pc == Drained(false) || pc == Stopping(false) || pc == Releasing(false)
    || pc == Done(Flushed(false)) || pc == Done(ShutDown(false))
  }

  /** What puts the mark on a call: the step, and what it finds. */
  predicate Earns(s: State, step: Step, t: Tid, mark: Mark) {
    match mark
    case Entry => step == Check(t) && !s.shutdown
    case Refusal => step == Check(t) && s.shutdown
    case Acceptance => step == BlockingSend(t) || ((step == Send(t) || step == TrySend(t)) && |s.queue| < s.capacity)
    case Drop => step == Send(t) && |s.queue| >= s.capacity
    case Cancellation => step == Cancel(t)
    case NilDrain => step == SentinelSeen(t)
    case Victory => step == Check(t) && !s.shutdown && t in s.threads && s.threads[t].kind == Shutdown
    case Completion => step.Finish? && s.worker == Running(t)
    case Panic => step == Finish(true) && s.worker == Running(t)
  }

  lemma RefusalMark(s: State, step: Step, t: Tid)
    requires Enabled(s, step)
    ensures Bears(Next(s, step), t, Refusal) <==> Bears(s, t, Refusal) || Earns(s, step, t, Refusal)
  {
    if Owner(step) != Some(t) {
      OtherThread(s, step, t);
    }
  }

  lemma CancellationMark(s: State, step: Step, t: Tid)
    requires Enabled(s, step)
    ensures Bears(Next(s, step), t, Cancellation) <==> Bears(s, t, Cancellation) || Earns(s, step, t, Cancellation)
  {
    if Owner(step) != Some(t) {
      OtherThread(s, step, t);
    }
  }

  lemma NilDrainMark(s: State, step: Step, t: Tid)
    requires Enabled(s, step)
    ensures Bears(Next(s, step), t, NilDrain) <==> Bears(s, t, NilDrain) || Earns(s, step, t, NilDrain)
  {
    if Owner(step) != Some(t) {
      OtherThread(s, step, t);
    }
  }

  lemma OtherThread(s: State, step: Step, t: Tid)
    requires Enabled(s, step) && Owner(step) != Some(t)
    ensures t in Next(s, step).threads <==> t in s.threads
    ensures t in s.threads ==> Next(s, step).threads[t] == s.threads[t]
  {
  }

  lemma CallMarks(s: State, step: Step, t: Tid, mark: Mark)
    requires Enabled(s, step) && (mark.Entry? || mark.Acceptance? || mark.Drop?)
    ensures Bears(Next(s, step), t, mark) <==> Bears(s, t, mark) || Earns(s, step, t, mark)
  {
  }

  lemma VictoryMark(s: State, step: Step, t: Tid)
    requires (s.shutdown <==> s.winner.Some?) && Enabled(s, step)
    ensures Bears(Next(s, step), t, Victory) <==> Bears(s, t, Victory) || Earns(s, step, t, Victory)
  {
  }

  lemma WorkerMarks(s: State, step: Step, t: Tid, mark: Mark)
    requires Enabled(s, step) && (mark.Completion? || mark.Panic?)
    ensures Bears(Next(s, step), t, mark) <==> Bears(s, t, mark) || Earns(s, step, t, mark)
  {
  }

  lemma StepMarks(s: State, step: Step, t: Tid, mark: Mark)
    requires Inv(s) && Enabled(s, step)
    ensures Bears(Next(s, step), t, mark) <==> Bears(s, t, mark) || Earns(s, step, t, mark)
  {
    match mark
    case Refusal => RefusalMark(s, step, t);
    case Cancellation => CancellationMark(s, step, t);
    case NilDrain => NilDrainMark(s, step, t);
    case Victory => VictoryMark(s, step, t);
    case Completion => WorkerMarks(s, step, t, mark);
    case Panic => WorkerMarks(s, step, t, mark);
    case _ => CallMarks(s, step, t, mark);
  }

  // ----- runs

  lemma {:induction false} PrefixIsRun(s: State, steps: seq<Step>, k: nat)
    requires IsRun(s, steps) && k <= |steps|
    ensures IsRun(s, steps[..k])
    decreases k
  {
    if k != 0 {
      PrefixIsRun(Next(s, steps[0]), steps[1..], k - 1);
      assert steps[..k][1..] == steps[1..][..k - 1];
    }
  }

  /** Step `k` of the run puts the mark on call `t`. */
  ghost predicate EarnsAt(s: State, steps: seq<Step>, t: Tid, mark: Mark, k: nat) {
    k < |steps| && IsRun(s, steps[..k]) && Earns(After(s, steps[..k]), steps[k], t, mark)
  }

  lemma FirstEarns(s: State, steps: seq<Step>, t: Tid, mark: Mark)
    requires IsRun(s, steps) && steps != []
    ensures EarnsAt(s, steps, t, mark, 0) <==> Earns(s, steps[0], t, mark)
  {
    assert steps[..0] == [];
  }

  lemma LaterEarns(s: State, steps: seq<Step>, t: Tid, mark: Mark, k: nat)
    requires IsRun(s, steps) && steps != []
    ensures EarnsAt(s, steps, t, mark, k + 1) <==> EarnsAt(Next(s, steps[0]), steps[1..], t, mark, k)
  {
    if k + 1 < |steps| {
      PrefixIsRun(s, steps, k + 1);
      PrefixIsRun(Next(s, steps[0]), steps[1..], k);
      assert steps[..k + 1][1..] == steps[1..][..k];
    }
  }

  lemma EarnedInRun(s: State, steps: seq<Step>, t: Tid, mark: Mark)
    requires IsRun(s, steps) && steps != []
    ensures (exists k :: EarnsAt(s, steps, t, mark, k)) <==>
              Earns(s, steps[0], t, mark) || exists k :: EarnsAt(Next(s, steps[0]), steps[1..], t, mark, k)
  {
    var n := Next(s, steps[0]);
    FirstEarns(s, steps, t, mark);
    if k: nat :| EarnsAt(n, steps[1..], t, mark, k) {
      LaterEarns(s, steps, t, mark, k);
      assert EarnsAt(s, steps, t, mark, k + 1);
    }
    if k: nat :| EarnsAt(s, steps, t, mark, k) && k > 0 {
      LaterEarns(s, steps, t, mark, k - 1);
      assert EarnsAt(n, steps[1..], t, mark, k - 1);
    }
  }

  /** A call bears a mark after a run exactly if it did before or some step put it on. */
  lemma {:induction false} MarkedExactlyWhen(s: State, steps: seq<Step>, t: Tid, mark: Mark)
    requires Inv(s) && IsRun(s, steps)
    ensures Bears(After(s, steps), t, mark) <==> Bears(s, t, mark) || exists k :: EarnsAt(s, steps, t, mark, k)
    decreases |steps|
  {
    if steps != [] {
      StepKeepsInv(s, steps[0]);
      StepMarks(s, steps[0], t, mark);
      MarkedExactlyWhen(Next(s, steps[0]), steps[1..], t, mark);
      EarnedInRun(s, steps, t, mark);
    }
  }

  // ----- what it comes to

  /** A dispatched job is dropped exactly when its send finds the queue at capacity. */
  lemma DroppedExactlyWhenFull(capacity: nat, steps: seq<Step>, t: Tid)
    requires IsRun(Initial(capacity), steps)
    ensures t in After(Initial(capacity), steps).dropped <==>
              exists k ::
                && 0 <= k < |steps| && steps[k] == Send(t) && IsRun(Initial(capacity), steps[..k])
                && |After(Initial(capacity), steps[..k]).queue| == capacity
  {
    var s := Initial(capacity);
    InitialInv(capacity);
    MarkedExactlyWhen(s, steps, t, Drop);
    forall k: nat
      ensures EarnsAt(s, steps, t, Drop, k) <==>
                k < |steps| && steps[k] == Send(t) && IsRun(s, steps[..k]) && |After(s, steps[..k]).queue| == capacity
    {
      if k < |steps| && IsRun(s, steps[..k]) {
        EveryRunKeepsInv(s, steps[..k]);
        CapacityStays(s, steps[..k]);
      }
    }
  }

  lemma {:induction false} CapacityStays(s: State, steps: seq<Step>)
    requires IsRun(s, steps)
    ensures After(s, steps).capacity == s.capacity
    decreases |steps|
  {
    if steps != [] {
      CapacityStays(Next(s, steps[0]), steps[1..]);
    }
  }

  lemma {:induction false} OneMore(s: State, steps: seq<Step>, k: nat)
    requires IsRun(s, steps) && k < |steps|
    ensures IsRun(s, steps[..k]) && IsRun(s, steps[..k + 1]) && Enabled(After(s, steps[..k]), steps[k])
    ensures After(s, steps[..k + 1]) == Next(After(s, steps[..k]), steps[k])
    decreases k
  {
    PrefixIsRun(s, steps, k);
    PrefixIsRun(s, steps, k + 1);
    var n := Next(s, steps[0]);
    assert steps[..k + 1][1..] == steps[1..][..k];
    if k == 0 {
      assert steps[..0] == [] && steps[1..][..0] == [];
    } else {
      OneMore(n, steps[1..], k - 1);
      assert steps[..k][1..] == steps[1..][..k - 1];
    }
  }

  /** A dispatch whose send finds room has its job on the queue, as the newest one and for good, and
      is never counted as dropped. */
  lemma SentWithRoomIsAccepted(capacity: nat, steps: seq<Step>, t: Tid, k: nat)
    requires IsRun(Initial(capacity), steps) && k < |steps| && steps[k] == Send(t)
    requires IsRun(Initial(capacity), steps[..k]) && |After(Initial(capacity), steps[..k]).queue| < capacity
    ensures IsRun(Initial(capacity), steps[..k + 1])
    ensures After(Initial(capacity), steps[..k + 1]).queue == After(Initial(capacity), steps[..k]).queue + [t]
    ensures t in After(Initial(capacity), steps).accepted && t !in After(Initial(capacity), steps).dropped
  {
    var s := Initial(capacity);
    InitialInv(capacity);
    OneMore(s, steps, k);
    CapacityStays(s, steps[..k]);
    assert EarnsAt(s, steps, t, Acceptance, k);
    MarkedExactlyWhen(s, steps, t, Acceptance);
    EveryRunKeepsInv(s, steps);
    assert ThreadInv(After(s, steps), t);
  }

  /** The jobs a run puts on the queue, in the order of their sends. */
  ghost function Arrivals(s: State, steps: seq<Step>): seq<Tid>
    requires IsRun(s, steps)
    decreases |steps|
  {
    if steps == [] then []
    else
      var now := match steps[0]
                 case BlockingSend(t) => [t]
                 case Send(t) => if |s.queue| < s.capacity then [t] else []
                 case TrySend(t) => if |s.queue| < s.capacity then [t] else []
                 case _ => [];
      now + Arrivals(Next(s, steps[0]), steps[1..])
  }

  /** How often a run drops a job, and how often one panics. */
  ghost function Drops(s: State, steps: seq<Step>): nat
    requires IsRun(s, steps)
    decreases |steps|
  {
    if steps == [] then 0
    else (if steps[0].Send? && |s.queue| >= s.capacity then 1 else 0) + Drops(Next(s, steps[0]), steps[1..])
  }

  function Panics(steps: seq<Step>): nat {
    if steps == [] then 0 else (if steps[0] == Finish(true) then 1 else 0) + Panics(steps[1..])
  }

  lemma StepCounts(s: State, step: Step)
    requires Enabled(s, step)
    ensures Next(s, step).queueOverflow == s.queueOverflow + Drops(s, [step])
    ensures Next(s, step).recovered == s.recovered + Panics([step])
    ensures Next(s, step).accepted == s.accepted + Arrivals(s, [step])
  {
    assert [step][1..] == [];
  }

  lemma CountsFromHere(s: State, steps: seq<Step>)
    requires IsRun(s, steps) && steps != []
    ensures Enabled(s, steps[0]) && IsRun(s, [steps[0]])
    ensures Drops(s, steps) == Drops(s, [steps[0]]) + Drops(Next(s, steps[0]), steps[1..])
    ensures Panics(steps) == Panics([steps[0]]) + Panics(steps[1..])
    ensures Arrivals(s, steps) == Arrivals(s, [steps[0]]) + Arrivals(Next(s, steps[0]), steps[1..])
  {
    assert [steps[0]][1..] == [];
  }

  /** Over any run the queue receives the jobs in the order of their sends, and the two counters
      grow by the sends that found it full and by the jobs that panicked. */
  lemma {:induction false} CountersCountSteps(s: State, steps: seq<Step>)
    requires IsRun(s, steps)
    ensures var n := After(s, steps);
            && n.accepted == s.accepted + Arrivals(s, steps)
            && n.queueOverflow == s.queueOverflow + Drops(s, steps)
            && n.recovered == s.recovered + Panics(steps)
    decreases |steps|
  {
    if steps != [] {
      StepCounts(s, steps[0]);
      CountsFromHere(s, steps);
      CountersCountSteps(Next(s, steps[0]), steps[1..]);
    }
  }

  /** How a call that is over ended is what happened to it: a dispatch was accepted, dropped or
      refused; a Flush or a Shutdown was refused, or its drain waited its turn or was cancelled; and a
      Shutdown that was not refused leaves the worker gone and the providers shut down, once. */
  lemma OutcomesTellWhatHappened(s: State, t: Tid)
    requires Reachable(s) && t in s.threads && s.threads[t].pc.Done?
    ensures var o := s.threads[t].pc.outcome;
            && (s.threads[t].kind == Dispatch ==>
                  && (o == Accepted <==> t in s.accepted) && (o == Dropped <==> t in s.dropped)
                  && (o == Ignored <==> t !in s.passed))
            && (s.threads[t].kind == Flush ==>
                  && (o == Flushed(true) || o == Flushed(false) || o == Ignored)
                  && (o == Ignored <==> t !in s.passed) && (o == Flushed(true) ==> SentinelRan(s, t)))
            && (s.threads[t].kind == Shutdown ==>
                  && (o == ShutDown(true) || o == ShutDown(false) || o == AlreadyShut)
                  && (o != AlreadyShut <==> s.winner == Some(t)) && (o == ShutDown(true) ==> SentinelRan(s, t))
                  && (o != AlreadyShut ==> s.stopCloses == 1 && s.released == 1 && s.worker == Exited))
  {
    ReachableInv(s);
    assert ThreadInv(s, t);
  }
}
