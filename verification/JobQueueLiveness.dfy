/** Why Shutdown comes to an end and why dispatch never waits: measures that every step of the
    worker, or of the calling goroutine, decreases. */
module JobQueueLiveness {
  import opened Wrappers
  import opened JobQueue
  import opened JobQueueSafety

  // ----- the worker exits

  /** The threads that may still put something on the queue. */
  function Senders(s: State): set<Tid> {
    set t | t in s.threads && (s.threads[t].pc == Sending || s.threads[t].pc == Draining || s.threads[t].pc == Blocked)
  }

  /** Jobs the worker may still be given once no call gets past enabled() any more. */
  function JobsLeft(s: State): nat {
    |s.queue| + |Senders(s)|
  }

  predicate OfWorker(step: Step) {
    step.Take? || step.Finish? || step.Exit?
  }

  /** Steps the worker may still take. */
  function WorkLeft(s: State): nat {
    2 * JobsLeft(s) + One(s.worker.Running?) + One(s.worker != Exited)
  }

  function Takes(steps: seq<Step>): nat {
    if steps == [] then 0 else One(steps[0].Take?) + Takes(steps[1..])
  }

  function WorkerSteps(steps: seq<Step>): nat {
    if steps == [] then 0 else One(OfWorker(steps[0])) + WorkerSteps(steps[1..])
  }

  lemma SendersShrink(s: State, n: State, t: Tid)
    requires t in s.threads && n.threads.Keys == s.threads.Keys
    requires forall u :: u in s.threads && u != t ==> n.threads[u] == s.threads[u]
    requires n.threads[t].pc != Sending && n.threads[t].pc != Draining
    requires n.threads[t].pc == Blocked ==> t in Senders(s)
    ensures |Senders(n)| == |Senders(s)| - One(t in Senders(s) && n.threads[t].pc != Blocked)
  {
    if n.threads[t].pc == Blocked {
      assert Senders(n) == Senders(s);
    } else {
      assert Senders(n) == Senders(s) - {t};
    }
  }

  lemma NewcomersDoNotSend(s: State, t: Tid, kind: Kind)
    requires t !in s.threads
    ensures Senders(Next(s, Call(t, kind))) == Senders(s)
  {
  }

  lemma SendingShrinks(s: State, step: Step)
    requires Inv(s) && s.shutdown && Enabled(s, step) && (step.Send? || step.TrySend? || step.BlockingSend?)
    ensures JobsLeft(Next(s, step)) <= JobsLeft(s)
  {
    SendersShrink(s, Next(s, step), step.t);
  }

  lemma OtherwiseShrinks(s: State, step: Step)
    requires Inv(s) && s.shutdown && Enabled(s, step) && !OfWorker(step)
    requires !(step.Send? || step.TrySend? || step.BlockingSend? || step.Call?)
    ensures JobsLeft(Next(s, step)) <= JobsLeft(s)
  {
    SendersShrink(s, Next(s, step), step.t);
  }

  /** Once Shutdown has won its compare-and-swap, no step adds to the jobs left, and every job the
      worker takes is one less. */
  lemma JobsLeftShrink(s: State, step: Step)
    requires Inv(s) && s.shutdown && Enabled(s, step)
    ensures Next(s, step).shutdown
    ensures JobsLeft(Next(s, step)) <= JobsLeft(s) - One(step.Take?)
  {
    if OfWorker(step) {
      assert Senders(Next(s, step)) == Senders(s);
    } else if step.Call? {
      NewcomersDoNotSend(s, step.t, step.kind);
    } else if step.Send? || step.TrySend? || step.BlockingSend? {
      SendingShrinks(s, step);
    } else {
      OtherwiseShrinks(s, step);
    }
  }

  lemma WorkLeftShrinks(s: State, step: Step)
    requires Inv(s) && s.shutdown && Enabled(s, step)
    ensures WorkLeft(Next(s, step)) <= WorkLeft(s) - One(OfWorker(step))
  {
    JobsLeftShrink(s, step);
  }

  /** After the compare-and-swap the worker starts at most (queued jobs + calls already past
      enabled()) further jobs, however the goroutines are scheduled. */
  lemma {:induction false} FewJobsAfterShutdown(s: State, steps: seq<Step>)
    requires Inv(s) && s.shutdown && IsRun(s, steps)
    ensures Takes(steps) + JobsLeft(After(s, steps)) <= JobsLeft(s)
    ensures WorkerSteps(steps) + WorkLeft(After(s, steps)) <= WorkLeft(s)
    decreases |steps|
  {
    if steps != [] {
      JobsLeftShrink(s, steps[0]);
      WorkLeftShrinks(s, steps[0]);
      StepKeepsInv(s, steps[0]);
      FewJobsAfterShutdown(Next(s, steps[0]), steps[1..]);
    }
  }

  /** Once stopCh is closed the worker, as long as it has not exited, always has a step to take;
      and it has exited as soon as it has taken its share. So under fair scheduling, with jobs
      that end, it exits, and wg.Wait returns in every thread that waits for it (FairWorkerExits). */
  lemma WorkerExits(s: State, steps: seq<Step>)
    requires Reachable(s) && s.stopCloses == 1 && IsRun(s, steps)
    ensures var n := After(s, steps);
            && (n.worker != Exited ==> exists step :: OfWorker(step) && Enabled(n, step))
            && (WorkerSteps(steps) >= WorkLeft(s) ==> n.worker == Exited)
            && (n.worker == Exited ==>
                  forall t :: t in n.threads && n.threads[t].pc.Stopping? ==> Enabled(n, WaitReturns(t)))
  {
    ReachableInv(s);
    FewJobsAfterShutdown(s, steps);
    EveryRunKeepsInv(s, steps);
    StopStaysClosed(s, steps);
    var n := After(s, steps);
    if n.worker == Idle {
      assert OfWorker(Exit) && Enabled(n, Exit);
    } else if n.worker.Running? {
      assert OfWorker(Finish(false)) && Enabled(n, Finish(false));
    }
  }

  lemma {:induction false} StopStaysClosed(s: State, steps: seq<Step>)
    requires IsRun(s, steps)
    ensures s.stopCloses <= After(s, steps).stopCloses
    decreases |steps|
  {
    if steps != [] {
      StopStaysClosed(Next(s, steps[0]), steps[1..]);
    }
  }

  // ----- fair schedules

  /** An execution that goes on for ever: goroutines can always make another call. */
  ghost predicate IsExecution(states: nat -> State, schedule: nat -> Step) {
    forall i: nat :: StepsAt(states, schedule, i)
  }

  ghost predicate StepsAt(states: nat -> State, schedule: nat -> Step, i: nat) {
    Enabled(states(i), schedule(i)) && states(i + 1) == Next(states(i), schedule(i))
  }

  ghost predicate WorkerCanStep(s: State) {
    exists step :: OfWorker(step) && Enabled(s, step)
  }

  /** Weak fairness towards the worker: it is never able to step from some moment on without ever
      being given a step. That a running job ends is part of it. */
  ghost predicate FairToWorker(states: nat -> State, schedule: nat -> Step) {
    forall i: nat :: WorkerServed(states, schedule, i)
  }

  ghost predicate WorkerServed(states: nat -> State, schedule: nat -> Step, i: nat) {
    exists j: nat :: i <= j && (OfWorker(schedule(j)) || !WorkerCanStep(states(j)))
  }

  /** From here on the worker has exited, and wg.Wait returns at once in every thread that waits. */
  ghost predicate GoneFrom(states: nat -> State, m: nat) {
    forall j: nat :: m <= j ==> WaitIsOver(states(j))
  }

  predicate WaitIsOver(s: State) {
    s.worker == Exited && forall t :: t in s.threads && s.threads[t].pc.Stopping? ==> Enabled(s, WaitReturns(t))
  }

  lemma {:induction false} ExecutionKeepsInv(states: nat -> State, schedule: nat -> Step, i: nat)
    requires IsExecution(states, schedule) && Inv(states(0))
    ensures Inv(states(i))
  {
    if i != 0 {
      ExecutionKeepsInv(states, schedule, i - 1);
      assert StepsAt(states, schedule, i - 1);
      StepKeepsInv(states(i - 1), schedule(i - 1));
    }
  }

  /** The measure never grows along an execution, and a closed stopCh stays closed. */
  lemma {:induction false} MeasureAlong(states: nat -> State, schedule: nat -> Step, i: nat, j: nat)
    requires IsExecution(states, schedule) && Inv(states(0)) && i <= j && states(i).stopCloses == 1
    ensures states(j).stopCloses == 1 && WorkLeft(states(j)) <= WorkLeft(states(i))
    decreases j - i
  {
    if i < j {
      MeasureAlong(states, schedule, i, j - 1);
      ExecutionKeepsInv(states, schedule, j - 1);
      assert StepsAt(states, schedule, j - 1);
      StoppedStep(states(j - 1), schedule(j - 1));
    }
  }

  lemma StoppedStep(s: State, step: Step)
    requires Inv(s) && s.stopCloses == 1 && Enabled(s, step)
    ensures Next(s, step).stopCloses == 1
    ensures WorkLeft(Next(s, step)) <= WorkLeft(s) - One(OfWorker(step))
  {
    StoppedMeansShutdown(s);
    WorkLeftShrinks(s, step);
    StepKeepsInv(s, step);
    AtMostOneClose(Next(s, step));
    StopKept(s, step);
  }

  lemma StoppedMeansShutdown(s: State)
    requires Inv(s) && s.stopCloses == 1
    ensures s.shutdown
  {
  }

  lemma AtMostOneClose(s: State)
    requires Inv(s)
    ensures s.stopCloses <= 1
  {
  }

  lemma StopKept(s: State, step: Step)
    requires Enabled(s, step)
    ensures s.stopCloses <= Next(s, step).stopCloses
  {
  }

  lemma StoppedWorkerCanStep(s: State)
    requires s.stopCloses == 1 && s.worker != Exited
    ensures WorkerCanStep(s)
  {
    if s.worker == Idle {
      assert OfWorker(Exit) && Enabled(s, Exit);
    } else {
      assert OfWorker(Finish(false)) && Enabled(s, Finish(false));
    }
  }

  lemma {:induction false} ExitComes(states: nat -> State, schedule: nat -> Step, i: nat) returns (m: nat)
    requires IsExecution(states, schedule) && FairToWorker(states, schedule) && Inv(states(0))
             && states(i).stopCloses == 1
    ensures i <= m && states(m).worker == Exited && states(m).stopCloses == 1
    decreases WorkLeft(states(i))
  {
    assert WorkerServed(states, schedule, i);
    var j: nat :| i <= j && (OfWorker(schedule(j)) || !WorkerCanStep(states(j)));
    MeasureAlong(states, schedule, i, j);
    if states(j).worker == Exited {
      m := j;
    } else {
      StoppedWorkerCanStep(states(j));
      ExecutionKeepsInv(states, schedule, j);
      assert StepsAt(states, schedule, j);
      StoppedStep(states(j), schedule(j));
      m := ExitComes(states, schedule, j + 1);
    }
  }

  lemma {:induction false} StaysExited(states: nat -> State, schedule: nat -> Step, i: nat, j: nat)
    requires IsExecution(states, schedule) && i <= j && states(i).worker == Exited
    ensures states(j).worker == Exited
    decreases j - i
  {
    if i < j {
      StaysExited(states, schedule, i, j - 1);
      assert StepsAt(states, schedule, j - 1);
    }
  }

  /** In every execution that is fair to the worker, once stopCh is closed the worker exits, and
      from then on wg.Wait returns at once in every thread that waits for it. */
  lemma FairWorkerExits(states: nat -> State, schedule: nat -> Step, i: nat)
    requires IsExecution(states, schedule) && FairToWorker(states, schedule)
    requires Reachable(states(0)) && states(i).stopCloses == 1
    ensures exists m: nat :: i <= m && GoneFrom(states, m)
  {
    ReachableInv(states(0));
    var m := ExitComes(states, schedule, i);
    forall j: nat | m <= j
      ensures WaitIsOver(states(j))
    {
      StaysExited(states, schedule, m, j);
    }
    assert GoneFrom(states, m);
  }

  // ----- dispatch never waits

  function OwnSteps(t: Tid, steps: seq<Step>): nat {
    if steps == [] then 0 else One(Owner(steps[0]) == Some(t)) + OwnSteps(t, steps[1..])
  }

  /** The steps a dispatch call still has to take itself. */
  function DispatchLeft(s: State, t: Tid): nat
    requires t in s.threads
  {
    match s.threads[t].pc case Start => 2 case Sending => 1 case _ => 0
  }

  lemma OwnDispatchStep(s: State, step: Step, t: Tid)
    requires Inv(s) && Enabled(s, step) && t in s.threads && s.threads[t].kind == Dispatch
    requires Owner(step) == Some(t)
    ensures t in Next(s, step).threads && Next(s, step).threads[t].kind == Dispatch
    ensures DispatchLeft(Next(s, step), t) <= DispatchLeft(s, t) - 1
  {
    assert ThreadInv(s, t);
  }

  lemma DispatchStep(s: State, step: Step, t: Tid)
    requires Inv(s) && Enabled(s, step) && t in s.threads && s.threads[t].kind == Dispatch
    ensures t in Next(s, step).threads && Next(s, step).threads[t].kind == Dispatch
    ensures DispatchLeft(Next(s, step), t) <= DispatchLeft(s, t) - One(Owner(step) == Some(t))
    ensures Owner(step) != Some(t) ==> Next(s, step).threads[t] == s.threads[t]
  {
    if Owner(step) == Some(t) {
      OwnDispatchStep(s, step, t);
    } else {
      OtherThreadsStay(s, step, t);
    }
  }

  /** Whatever everybody else does, a dispatch call that has not returned can take its next step
      at once, and it returns after at most two steps of its own. */
  lemma {:induction false} DispatchNeverWaits(s: State, steps: seq<Step>, t: Tid)
    requires Inv(s) && IsRun(s, steps) && t in s.threads && s.threads[t].kind == Dispatch
    ensures var n := After(s, steps);
            && t in n.threads
            && OwnSteps(t, steps) <= DispatchLeft(s, t) <= 2
            && (OwnSteps(t, steps) == DispatchLeft(s, t) ==> n.threads[t].pc.Done?)
            && (!n.threads[t].pc.Done? ==> exists step :: Owner(step) == Some(t) && Enabled(n, step))
    decreases |steps|
  {
    if steps == [] {
      assert ThreadInv(s, t);
      assert s.threads[t].pc == Start ==> Owner(Check(t)) == Some(t) && Enabled(s, Check(t));
      assert s.threads[t].pc == Sending ==> Owner(Send(t)) == Some(t) && Enabled(s, Send(t));
    } else {
      DispatchStep(s, steps[0], t);
      StepKeepsInv(s, steps[0]);
      DispatchNeverWaits(Next(s, steps[0]), steps[1..], t);
    }
  }
}
