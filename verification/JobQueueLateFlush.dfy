/** A Flush that got past enabled() just before Shutdown: its sentinel can reach the queue when the
    worker has already gone, and then only its context ends the wait. */
module JobQueueLateFlush {
  import opened Wrappers
  import opened JobQueue
  import opened JobQueueSafety

  lemma {:induction false} RunThen(s: State, steps: seq<Step>, step: Step)
    requires IsRun(s, steps) && Enabled(After(s, steps), step)
    ensures IsRun(s, steps + [step]) && After(s, steps + [step]) == Next(After(s, steps), step)
    decreases |steps|
  {
    if steps == [] {
      assert [] + [step] == [step] && [step][1..] == [];
    } else {
      assert (steps + [step])[1..] == steps[1..] + [step];
      RunThen(Next(s, steps[0]), steps[1..], step);
    }
  }

  lemma ReachableStep(s: State, step: Step)
    requires Reachable(s) && Enabled(s, step)
    ensures Reachable(Next(s, step))
  {
    var steps :| IsRun(Initial(s.capacity), steps) && After(Initial(s.capacity), steps) == s;
    RunThen(Initial(s.capacity), steps, step);
  }

  lemma InitialIsReachable(capacity: nat)
    ensures Reachable(Initial(capacity))
  {
    assert IsRun(Initial(capacity), []) && After(Initial(capacity), []) == Initial(capacity);
  }

  lemma {:induction false} RunOn(s: State, first: seq<Step>, second: seq<Step>)
    requires IsRun(s, first) && IsRun(After(s, first), second)
    ensures IsRun(s, first + second) && After(s, first + second) == After(After(s, first), second)
    decreases |first|
  {
    if first == [] {
      assert first + second == second;
    } else {
      assert (first + second)[1..] == first[1..] + second;
      RunOn(Next(s, first[0]), first[1..], second);
    }
  }

  lemma OneStep(s: State, step: Step)
    requires Enabled(s, step)
    ensures IsRun(s, [step]) && After(s, [step]) == Next(s, step)
  {
    assert [step][1..] == [];
  }

  // ----- what can no longer happen once the worker has gone

  /** A job that has not been run when the worker exits is never run, and its drain, if it is a
      sentinel, never returns nil: in every run it waits on or is ended by its context. */
  lemma {:induction false} StaysUndrained(s: State, steps: seq<Step>, t: Tid)
    requires Inv(s) && s.worker == Exited && t in s.threads && t !in s.finished && IsRun(s, steps)
    ensures t in After(s, steps).threads && t !in After(s, steps).finished && !DrainedOk(After(s, steps).threads[t].pc)
    decreases |steps|
  {
    if steps == [] {
      assert ThreadInv(s, t);
    } else {
      StepKeepsInv(s, steps[0]);
      StaysUndrained(Next(s, steps[0]), steps[1..], t);
    }
  }

  /** Something is still able to make this drain return nil. */
  ghost predicate CanReturnNil(s: State, t: Tid) {
    exists steps :: IsRun(s, steps) && t in After(s, steps).threads && DrainedOk(After(s, steps).threads[t].pc)
  }

  /** A sentinel that is sent only after the worker's exit is sent for nothing. */
  lemma SentAfterTheExit(s: State, t: Tid)
    requires Reachable(s) && s.worker == Exited && t in s.threads && t !in s.accepted
    ensures !CanReturnNil(s, t)
  {
    ReachableInv(s);
    forall steps | IsRun(s, steps)
      ensures t in After(s, steps).threads && !DrainedOk(After(s, steps).threads[t].pc)
    {
      StaysUndrained(s, steps, t);
    }
  }

  // ----- what is certain to run

  /** Whatever happens next, the worker runs this job before it goes. */
  ghost predicate CertainToRun(s: State, t: Tid) {
    forall steps :: IsRun(s, steps) && After(s, steps).worker == Exited ==> t in After(s, steps).finished
  }

  /** A run in which the worker goes and leaves this job on the queue. */
  ghost predicate LeavesQueued(s: State, steps: seq<Step>, t: Tid) {
    IsRun(s, steps) && After(s, steps).worker == Exited && t in After(s, steps).queue
  }

  /** `later` was put on the queue after `earlier`. */
  ghost predicate AcceptedAfter(s: State, later: Tid, earlier: Tid) {
    exists k, l :: 0 <= k < l < |s.accepted| && s.accepted[k] == earlier && s.accepted[l] == later
  }

  ghost predicate StillWaits(s: State, t: Tid) {
    At(s, t, Flush, Awaiting)
  }

  /** As long as this Flush waits, it can still return nil, in every run. */
  ghost predicate StaysAble(s: State, t: Tid) {
    forall steps {:trigger IsRun(s, steps)} ::
      IsRun(s, steps) && StillWaits(After(s, steps), t) ==> CanReturnNil(After(s, steps), t)
  }

  lemma {:induction false} OnceTakenFinishes(s: State, steps: seq<Step>, t: Tid)
    requires SentinelRan(s, t) && IsRun(s, steps)
    ensures SentinelRan(After(s, steps), t)
    decreases |steps|
  {
    if steps != [] {
      OnceTakenFinishes(Next(s, steps[0]), steps[1..], t);
    }
  }

  lemma AcceptedIsQueuedOrTaken(s: State, t: Tid)
    requires QueueInv(s)
    ensures t in s.accepted <==> t in s.queue || SentinelRan(s, t)
    ensures t in s.queue ==> !SentinelRan(s, t)
  {
    OnePlaceInOrder(s, t);
  }

  // ----- how a queued job can be left behind

  /** Job `t` is still queued, and if a Flush waits for it, it still waits. */
  ghost predicate Left(s: State, n: State, t: Tid) {
    Inv(n) && t in n.queue && (StillWaits(s, t) ==> StillWaits(n, t))
  }

  lemma QueuedStays(s: State, step: Step, t: Tid)
    requires t in s.queue && Enabled(s, step) && !step.Take?
    ensures t in Next(s, step).queue
  {
  }

  lemma StepLeaves(s: State, step: Step, t: Tid)
    requires Inv(s) && t in s.queue && Enabled(s, step) && !step.Take?
    requires StillWaits(s, t) ==> Owner(step) != Some(t)
    ensures IsRun(s, [step]) && After(s, [step]) == Next(s, step) && Left(s, Next(s, step), t)
  {
    OneStep(s, step);
    StepKeepsInv(s, step);
    QueuedStays(s, step, t);
    if StillWaits(s, t) {
      OtherThreadsStay(s, step, t);
    }
  }

  lemma UnusedTid(threads: map<Tid, Thread>) returns (t: Tid)
    ensures t !in threads
  {
    t := LargestPlusOne(threads.Keys);
  }

  lemma {:induction false} LargestPlusOne(ids: set<Tid>) returns (t: Tid)
    ensures forall u :: u in ids ==> u < t
    decreases |ids|
  {
    t := 0;
    if ids != {} {
      var u :| u in ids;
      var rest := LargestPlusOne(ids - {u});
      t := rest + u + 1;
      assert forall v :: v in ids ==> v == u || v in ids - {u};
    }
  }

  /** If no Shutdown has won yet, one may come along and win. */
  lemma SomeShutdownWins(s: State, t: Tid) returns (steps: seq<Step>)
    requires Inv(s) && t in s.queue
    ensures IsRun(s, steps) && Left(s, After(s, steps), t) && After(s, steps).winner.Some?
  {
    steps := [];
    if s.winner.None? {
      var w := UnusedTid(s.threads);
      StepLeaves(s, Call(w, Shutdown), t);
      var called := Next(s, Call(w, Shutdown));
      StepLeaves(called, Check(w), t);
      RunOn(s, [Call(w, Shutdown)], [Check(w)]);
      steps := [Call(w, Shutdown)] + [Check(w)];
    }
  }

  /** Shutdown is past its drain, whether that returned nil or was ended by its context. */
  predicate PastDrain(s: State) {
    && s.winner.Some? && s.winner.value in s.threads
    && (s.threads[s.winner.value].pc.Drained? || PastClose(s.threads[s.winner.value].pc))
  }

  /** A drain that waits for room or for its sentinel may be ended by its context. */
  lemma DrainIsCancelled(s: State, t: Tid) returns (steps: seq<Step>)
    requires Inv(s) && t in s.queue && s.winner.Some?
    requires var pc := s.threads[s.winner.value].pc; !pc.Draining?
    ensures IsRun(s, steps) && Left(s, After(s, steps), t) && PastDrain(After(s, steps))
  {
    var w := s.winner.value;
    assert ThreadInv(s, w);
    steps := [];
    if !PastDrain(s) {
      StepLeaves(s, Cancel(w), t);
      steps := [Cancel(w)];
    }
  }

  lemma DrainEnds(s: State, t: Tid) returns (steps: seq<Step>)
    requires Inv(s) && t in s.queue && s.winner.Some?
    ensures IsRun(s, steps) && Left(s, After(s, steps), t) && PastDrain(After(s, steps))
  {
    var w := s.winner.value;
    if s.threads[w].pc.Draining? {
      StepLeaves(s, TrySend(w), t);
      var rest := DrainIsCancelled(Next(s, TrySend(w)), t);
      RunOn(s, [TrySend(w)], rest);
      steps := [TrySend(w)] + rest;
    } else {
      steps := DrainIsCancelled(s, t);
    }
  }

  /** The worker ends the job in hand. */
  lemma WorkerRests(s: State, t: Tid) returns (steps: seq<Step>)
    requires Inv(s) && s.worker != Exited && t in s.queue && PastDrain(s)
    ensures IsRun(s, steps) && Left(s, After(s, steps), t) && PastDrain(After(s, steps))
    ensures After(s, steps).worker == Idle
  {
    steps := [];
    if s.worker.Running? {
      StepLeaves(s, Finish(false), t);
      steps := [Finish(false)];
    }
  }

  /** Shutdown, past its drain, closes stopCh if it has not done so. */
  lemma StopCloses(s: State, t: Tid) returns (steps: seq<Step>)
    requires Inv(s) && s.worker == Idle && t in s.queue && PastDrain(s)
    ensures IsRun(s, steps) && Left(s, After(s, steps), t)
    ensures After(s, steps).stopCloses > 0 && After(s, steps).worker == Idle
  {
    steps := [];
    if s.threads[s.winner.value].pc.Drained? {
      StepLeaves(s, CloseStop(s.winner.value), t);
      steps := [CloseStop(s.winner.value)];
    }
  }

  /** Past Shutdown's drain the scheduler may let the worker go without another look at the queue. */
  lemma WorkerMayGo(s: State, t: Tid) returns (steps: seq<Step>)
    requires Inv(s) && t in s.queue && PastDrain(s)
    ensures LeavesQueued(s, steps, t) && Left(s, After(s, steps), t)
  {
    if s.worker == Exited {
      steps := [];
    } else {
      steps := WorkerRests(s, t);
      var rested := After(s, steps);
      var close := StopCloses(rested, t);
      RunOn(s, steps, close);
      steps := steps + close;
      StepLeaves(After(s, steps), Exit, t);
      RunOn(s, steps, [Exit]);
      steps := steps + [Exit];
    }
  }

  lemma QueuedMayBeLeft(s: State, t: Tid) returns (steps: seq<Step>)
    requires Inv(s) && t in s.queue
    ensures LeavesQueued(s, steps, t) && Left(s, After(s, steps), t)
  {
    steps := SomeShutdownWins(s, t);
    var drain := DrainEnds(After(s, steps), t);
    RunOn(s, steps, drain);
    steps := steps + drain;
    var go := WorkerMayGo(After(s, steps), t);
    RunOn(s, steps, go);
    steps := steps + go;
  }

  /** At any moment at all, an accepted job is certain to be run exactly when it is no longer
      queued: a Shutdown whose context ends in time may take the worker away from everything that
      still is. What is queued once a Shutdown has won came from a call that had passed enabled()
      before the compare-and-swap. */
  lemma CertainToRunExactlyWhen(s: State, t: Tid)
    requires Reachable(s) && t in s.accepted
    ensures CertainToRun(s, t) <==> t !in s.queue
    ensures s.winner.Some? && t in s.queue ==> t in s.passedAtShutdown
  {
    ReachableInv(s);
    AcceptedIsQueuedOrTaken(s, t);
    assert ThreadInv(s, t);
    if t in s.queue {
      var steps := QueuedMayBeLeft(s, t);
      AcceptedIsQueuedOrTaken(After(s, steps), t);
    } else {
      forall steps | IsRun(s, steps) && After(s, steps).worker == Exited
        ensures t in After(s, steps).finished
      {
        OnceTakenFinishes(s, steps, t);
      }
    }
  }

  lemma OneOrder(s: State, a: Tid, b: Tid)
    requires QueueInv(s)
    ensures !(AcceptedAfter(s, a, b) && AcceptedAfter(s, b, a))
  {
  }

  /** If Shutdown's drain did return nil, whatever was accepted before its sentinel is certain, and
      what is still queued was accepted after it. */
  lemma CertainOnceDrained(s: State, w: Tid, t: Tid)
    requires Reachable(s) && s.winner == Some(w) && w in s.threads && DrainedOk(s.threads[w].pc) && t in s.accepted
    ensures t in s.queue ==> AcceptedAfter(s, t, w)
    ensures AcceptedAfter(s, w, t) ==> CertainToRun(s, t)
  {
    ReachableInv(s);
    CertainToRunExactlyWhen(s, t);
    if t in s.queue {
      ShutdownLosesOnlyLateSends(s, w, t);
      OneOrder(s, w, t);
    }
  }

  lemma SeesItsSentinel(s: State, t: Tid)
    requires StillWaits(s, t) && SentinelRan(s, t)
    ensures CanReturnNil(s, t)
  {
    OneStep(s, SentinelSeen(t));
  }

  lemma LeftWaiting(s: State, t: Tid)
    requires Inv(s) && s.worker == Exited && t in s.threads && t in s.queue
    ensures !CanReturnNil(s, t)
  {
    AcceptedIsQueuedOrTaken(s, t);
    forall steps | IsRun(s, steps)
      ensures t in After(s, steps).threads && !DrainedOk(After(s, steps).threads[t].pc)
    {
      StaysUndrained(s, steps, t);
    }
  }

  /** A Flush that waits, at any moment: if its sentinel has left the queue it can return nil as long
      as it waits, in every continuation; if not, there is a continuation after which it still waits
      and never can. */
  lemma WaitingFlushExactlyWhen(s: State, t: Tid)
    requires Reachable(s) && StillWaits(s, t)
    ensures t !in s.queue <==> StaysAble(s, t)
  {
    ReachableInv(s);
    assert ThreadInv(s, t);
    AcceptedIsQueuedOrTaken(s, t);
    if t in s.queue {
      var steps := QueuedMayBeLeft(s, t);
      LeftWaiting(After(s, steps), t);
    } else {
      forall steps | IsRun(s, steps) && StillWaits(After(s, steps), t)
        ensures CanReturnNil(After(s, steps), t)
      {
        OnceTakenFinishes(s, steps, t);
        SeesItsSentinel(After(s, steps), t);
      }
    }
  }

  // ----- a Shutdown whose context ends

  /** Room for two jobs: the sentinels of a Flush and, after it, of a Shutdown are queued. */
  function BothQueued(): State {
    State(2, map[0 := Thread(Flush, Awaiting), 1 := Thread(Shutdown, Awaiting)], [0, 1], Idle, true, 0, 0, 0, 0,
          {0, 1}, [0, 1], [], {}, {}, Some(1), {0, 1})
  }

  /** The same client after the Shutdown's context has ended and the worker has exited. */
  function BothLeft(): State {
    BothQueued().(threads := map[0 := Thread(Flush, Awaiting), 1 := Thread(Shutdown, Stopping(false))],
                  worker := Exited, stopCloses := 1)
  }

  function FlushQueued(): State {
    Initial(2).(threads := map[0 := Thread(Flush, Awaiting)], passed := {0}, queue := [0], accepted := [0])
  }

  lemma FlushQueuedIsReachable()
    ensures Reachable(FlushQueued())
  {
    var s := Initial(2);
    InitialIsReachable(2);
    ReachableStep(s, Call(0, Flush));
    s := Next(s, Call(0, Flush));
    ReachableStep(s, Check(0));
    s := Next(s, Check(0));
    ReachableStep(s, TrySend(0));
    assert Next(s, TrySend(0)) == FlushQueued();
  }

  lemma BothQueuedIsReachable()
    ensures Reachable(BothQueued())
  {
    var s := FlushQueued();
    FlushQueuedIsReachable();
    ReachableStep(s, Call(1, Shutdown));
    s := Next(s, Call(1, Shutdown));
    ReachableStep(s, Check(1));
    s := Next(s, Check(1));
    ReachableStep(s, TrySend(1));
    assert Next(s, TrySend(1)) == BothQueued();
  }

  lemma BothLeftIsReachable()
    ensures Reachable(BothLeft())
  {
    var s := BothQueued();
    BothQueuedIsReachable();
    ReachableStep(s, Cancel(1));
    s := Next(s, Cancel(1));
    ReachableStep(s, CloseStop(1));
    s := Next(s, CloseStop(1));
    ReachableStep(s, Exit);
    assert Next(s, Exit) == BothLeft();
  }

  lemma BothLeftFacts()
    ensures var s := BothLeft();
            StillWaits(s, 0) && AcceptedAfter(s, 1, 0) && s.winner == Some(1) && 0 in s.accepted && 0 in s.queue
  {
    var s := BothLeft();
    assert s.accepted[0] == 0 && s.accepted[1] == 1 && s.queue[0] == 0;
  }

  lemma WaitsForNothing(s: State, t: Tid)
    requires Reachable(s) && s.worker == Exited && StillWaits(s, t) && t in s.accepted && t in s.queue
    ensures !CertainToRun(s, t) && !CanReturnNil(s, t)
  {
    ReachableInv(s);
    CertainToRunExactlyWhen(s, t);
    LeftWaiting(s, t);
  }

  /** Being accepted before Shutdown's own sentinel is not enough when Shutdown's context ends during
      its drain: here a Flush was, and it is never going to return nil. */
  lemma CancelledDrainLeavesTheFlush()
    ensures exists s :: Reachable(s) && StillWaits(s, 0) && AcceptedAfter(s, 1, 0) && s.winner == Some(1)
              && !CertainToRun(s, 0) && !CanReturnNil(s, 0)
  {
    BothLeftIsReachable();
    BothLeftFacts();
    WaitsForNothing(BothLeft(), 0);
  }

  // ----- a sentinel sent too late

  /** Room for one job: the Flush has checked, the Shutdown's sentinel is queued. */
  function SentinelQueued(): State {
    State(1, map[0 := Thread(Flush, Draining), 1 := Thread(Shutdown, Awaiting)], [1], Idle, true, 0, 0, 0, 0,
          {0, 1}, [1], [], {}, {}, Some(1), {0, 1})
  }

  /** The same client once its worker has exited. */
  function WorkerGone(): State {
    SentinelQueued().(threads := map[0 := Thread(Flush, Draining), 1 := Thread(Shutdown, Stopping(true))],
                      queue := [], worker := Exited, stopCloses := 1, finished := [1])
  }

  function FlushChecked(): State {
    Initial(1).(threads := map[0 := Thread(Flush, Draining)], passed := {0})
  }

  function SentinelDone(): State {
    SentinelQueued().(queue := [], finished := [1])
  }

  lemma FlushCheckedIsReachable()
    ensures Reachable(FlushChecked())
  {
    var s := Initial(1);
    InitialIsReachable(1);
    ReachableStep(s, Call(0, Flush));
    s := Next(s, Call(0, Flush));
    ReachableStep(s, Check(0));
    assert Next(s, Check(0)) == FlushChecked();
  }

  function ShutdownWon(): State {
    SentinelQueued().(threads := map[0 := Thread(Flush, Draining), 1 := Thread(Shutdown, Draining)], queue := [],
                      accepted := [])
  }

  lemma ShutdownWonIsReachable()
    ensures Reachable(ShutdownWon())
  {
    var s := FlushChecked();
    FlushCheckedIsReachable();
    ReachableStep(s, Call(1, Shutdown));
    s := Next(s, Call(1, Shutdown));
    ReachableStep(s, Check(1));
    assert Next(s, Check(1)) == ShutdownWon();
  }

  lemma SentinelQueuedIsReachable()
    ensures Reachable(SentinelQueued())
  {
    ShutdownWonIsReachable();
    ReachableStep(ShutdownWon(), TrySend(1));
    assert Next(ShutdownWon(), TrySend(1)) == SentinelQueued();
  }

  lemma SentinelDoneIsReachable()
    ensures Reachable(SentinelDone())
  {
    var s := SentinelQueued();
    SentinelQueuedIsReachable();
    ReachableStep(s, Take);
    s := Next(s, Take);
    ReachableStep(s, Finish(false));
    assert Next(s, Finish(false)) == SentinelDone();
  }

  lemma WorkerGoneIsReachable()
    ensures Reachable(WorkerGone())
  {
    var s := SentinelDone();
    SentinelDoneIsReachable();
    ReachableStep(s, SentinelSeen(1));
    s := Next(s, SentinelSeen(1));
    ReachableStep(s, CloseStop(1));
    s := Next(s, CloseStop(1));
    ReachableStep(s, Exit);
    assert Next(s, Exit) == WorkerGone();
  }

  /** And it happens: a Flush checks, a Shutdown runs until the worker is gone, and only then does
      the Flush send. */
  lemma FlushCanComeTooLate()
    ensures exists s :: Reachable(s) && s.worker == Exited && At(s, 0, Flush, Awaiting) && 0 in s.queue
  {
    WorkerGoneIsReachable();
    ReachableStep(WorkerGone(), TrySend(0));
    var s := Next(WorkerGone(), TrySend(0));
    assert s.queue == [0];
    assert At(s, 0, Flush, Awaiting) && s.worker == Exited && 0 in s.queue;
  }
}
