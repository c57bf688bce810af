/** What every interleaving of the background queue keeps, and what a drain and a shutdown that
    succeed guarantee. */
module JobQueueSafety {
  import opened Wrappers
  import opened JobQueue

  // ----- the invariant is inductive

  lemma InitialInv(capacity: nat)
    ensures Inv(Initial(capacity))
  {
  }

  lemma DistinctPush(ids: seq<Tid>, t: Tid)
    requires Distinct(ids) && t !in ids
    ensures Distinct(ids + [t])
  {
  }

  lemma PushKeepsQueueInv(s: State, t: Tid)
    requires QueueInv(s) && t in s.threads && t !in s.accepted && |s.queue| < s.capacity
    ensures QueueInv(Push(s, t))
  {
    DistinctPush(s.accepted, t);
    assert Push(s, t).accepted == s.finished + InHand(s) + (s.queue + [t]);
  }

  /** A step of thread `t` leaves what is known about the other threads alone. */
  lemma OthersKeepInv(s: State, n: State, t: Tid)
    requires ThreadsInv(s)
    requires t in n.threads && n.threads.Keys == s.threads.Keys + {t}
    requires forall u :: u in s.threads && u != t ==> n.threads[u] == s.threads[u]
    requires n.passed == s.passed || n.passed == s.passed + {t}
    requires n.accepted == s.accepted || n.accepted == s.accepted + [t]
    requires n.dropped == s.dropped || n.dropped == s.dropped + {t}
    requires n.finished == s.finished && n.worker == s.worker
    requires ThreadInv(n, t)
    ensures ThreadsInv(n)
  {
  }

  lemma CallKeepsInv(s: State, t: Tid, kind: Kind)
    requires Inv(s) && Enabled(s, Call(t, kind))
    ensures Inv(Next(s, Call(t, kind)))
  {
    OthersKeepInv(s, Next(s, Call(t, kind)), t);
  }

  lemma LateCheckKeepsInv(s: State, t: Tid)
    requires Inv(s) && Enabled(s, Check(t)) && s.shutdown
    ensures Inv(AfterCheck(s, t))
  {
    OthersKeepInv(s, AfterCheck(s, t), t);
  }

  lemma CheckKeepsInv(s: State, t: Tid)
    requires Inv(s) && Enabled(s, Check(t)) && !s.shutdown && s.threads[t].kind != Shutdown
    ensures Inv(AfterCheck(s, t))
  {
    OthersKeepInv(s, AfterCheck(s, t), t);
  }

  lemma SwapKeepsInv(s: State, t: Tid)
    requires Inv(s) && Enabled(s, Check(t)) && !s.shutdown && s.threads[t].kind == Shutdown
    ensures Inv(AfterCheck(s, t))
  {
    OthersKeepInv(s, AfterCheck(s, t), t);
  }

  /** A dispatch that returns leaves Shutdown's affairs alone. */
  lemma DispatchKeepsShutdownInv(s: State, n: State, t: Tid, outcome: Outcome)
    requires ShutdownInv(s) && At(s, t, Dispatch, Sending)
    requires n.threads == s.threads[t := Thread(Dispatch, Done(outcome))]
    requires n.shutdown == s.shutdown && n.winner == s.winner && n.passed == s.passed
    requires n.passedAtShutdown == s.passedAtShutdown && n.stopCloses == s.stopCloses && n.released == s.released
    requires n.worker == s.worker
    ensures ShutdownInv(n)
  {
  }

  lemma SendKeepsQueueInv(s: State, t: Tid)
    requires Inv(s) && At(s, t, Dispatch, Sending) && |s.queue| < s.capacity
    ensures QueueInv(AfterSend(s, t))
  {
    assert ThreadInv(s, t);
    PushKeepsQueueInv(s, t);
    MoveKeepsQueueInv(Push(s, t), t, Done(Accepted));
  }

  lemma MoveKeepsQueueInv(s: State, t: Tid, pc: Pc)
    requires QueueInv(s) && t in s.threads
    ensures QueueInv(Move(s, t, pc))
  {
    assert Move(s, t, pc).threads.Keys == s.threads.Keys;
  }

  lemma SendKeepsInv(s: State, t: Tid)
    requires Inv(s) && Enabled(s, Send(t)) && |s.queue| < s.capacity
    ensures Inv(AfterSend(s, t))
  {
    SendKeepsQueueInv(s, t);
    DispatchKeepsShutdownInv(s, AfterSend(s, t), t, Accepted);
    SendKeepsThreadsInv(s, t);
  }

  lemma SendKeepsThreadsInv(s: State, t: Tid)
    requires ThreadsInv(s) && At(s, t, Dispatch, Sending) && |s.queue| < s.capacity
    ensures ThreadsInv(AfterSend(s, t))
  {
    assert ThreadInv(s, t);
    OthersKeepInv(s, AfterSend(s, t), t);
  }

  lemma DropKeepsQueueInv(s: State, t: Tid)
    requires QueueInv(s) && t in s.threads && t !in s.dropped && |s.queue| >= s.capacity
    ensures QueueInv(AfterSend(s, t))
  {
    var n := AfterSend(s, t);
    assert n.threads.Keys == s.threads.Keys && |n.dropped| == |s.dropped| + 1;
  }

  lemma DropKeepsThreadsInv(s: State, t: Tid)
    requires ThreadsInv(s) && At(s, t, Dispatch, Sending) && |s.queue| >= s.capacity
    ensures ThreadsInv(AfterSend(s, t))
  {
    assert ThreadInv(s, t);
    OthersKeepInv(s, AfterSend(s, t), t);
  }

  lemma DropKeepsInv(s: State, t: Tid)
    requires Inv(s) && Enabled(s, Send(t)) && |s.queue| >= s.capacity
    ensures Inv(AfterSend(s, t))
  {
    assert ThreadInv(s, t);
    DropKeepsQueueInv(s, t);
    DispatchKeepsShutdownInv(s, AfterSend(s, t), t, Dropped);
    DropKeepsThreadsInv(s, t);
  }

  lemma DrainSendKeepsInv(s: State, t: Tid)
    requires Inv(s) && t in s.threads && (s.threads[t].pc == Draining || s.threads[t].pc == Blocked)
             && |s.queue| < s.capacity
    ensures Inv(Move(Push(s, t), t, Awaiting))
  {
    PushKeepsQueueInv(s, t);
    OthersKeepInv(s, Move(Push(s, t), t, Awaiting), t);
  }

  /** Steps that change nothing but where their own thread is. */
  lemma MoveKeepsInv(s: State, t: Tid, pc: Pc)
    requires Inv(s) && t in s.threads
    requires var at := s.threads[t].pc;
             || (at == Draining && pc == Blocked)
             || ((at == Blocked || at == Awaiting) && pc == Drained(false))
             || (at == Awaiting && SentinelRan(s, t) && pc == Drained(true))
             || (at.Drained? && s.threads[t].kind == Flush && pc == Done(Flushed(at.ok)))
             || (at.Stopping? && s.worker == Exited && pc == Releasing(at.ok))
    ensures Inv(Move(s, t, pc))
  {
    OthersKeepInv(s, Move(s, t, pc), t);
  }

  lemma CloseStopKeepsInv(s: State, t: Tid)
    requires Inv(s) && Enabled(s, CloseStop(t))
    ensures Inv(Next(s, CloseStop(t)))
  {
    OthersKeepInv(s, Next(s, CloseStop(t)), t);
  }

  lemma ReleaseKeepsInv(s: State, t: Tid)
    requires Inv(s) && Enabled(s, Release(t))
    ensures Inv(Next(s, Release(t)))
  {
    OthersKeepInv(s, Next(s, Release(t)), t);
  }

  lemma TakeKeepsQueueInv(s: State)
    requires QueueInv(s) && Enabled(s, Take)
    ensures QueueInv(Next(s, Take))
  {
    var n := Next(s, Take);
    assert s.queue == [s.queue[0]] + s.queue[1..];
    assert n.finished + InHand(n) + n.queue == s.finished + InHand(s) + s.queue;
  }

  lemma TakeKeepsThreadsInv(s: State)
    requires ThreadsInv(s) && Enabled(s, Take)
    ensures ThreadsInv(Next(s, Take))
  {
    var n := Next(s, Take);
    forall t | t in n.threads
      ensures ThreadInv(n, t)
    {
      assert ThreadInv(s, t);
    }
  }

  lemma TakeKeepsInv(s: State)
    requires Inv(s) && Enabled(s, Take)
    ensures Inv(Next(s, Take))
  {
    TakeKeepsQueueInv(s);
    TakeKeepsThreadsInv(s);
  }

  lemma FinishKeepsInv(s: State, panics: bool)
    requires Inv(s) && Enabled(s, Finish(panics))
    ensures Inv(AfterFinish(s, panics))
  {
    var n, job := AfterFinish(s, panics), s.worker.job;
    assert s.accepted[|s.finished|] == job;
    forall i | 0 <= i < |s.finished|
      ensures s.finished[i] != job
    {
      assert s.accepted[i] == s.finished[i];
    }
    assert n.finished + InHand(n) + n.queue == s.finished + InHand(s) + s.queue;
    assert forall t :: t in n.finished <==> t in s.finished || t == job;
  }

  lemma OtherThreadsStay(s: State, step: Step, t: Tid)
    requires Enabled(s, step) && t in s.threads && Owner(step) != Some(t)
    ensures t in Next(s, step).threads && Next(s, step).threads[t] == s.threads[t]
  {
  }

  lemma StepKeepsInv(s: State, step: Step)
    requires Inv(s) && Enabled(s, step)
    ensures Inv(Next(s, step))
  {
    match step
    case Call(t, kind) => CallKeepsInv(s, t, kind);
    case Check(t) => 
      if s.shutdown {
        LateCheckKeepsInv(s, t);
      } else if s.threads[t].kind == Shutdown {
        SwapKeepsInv(s, t);
      } else {
        CheckKeepsInv(s, t);
      }
    case Send(t) =>
      if |s.queue| < s.capacity {
        SendKeepsInv(s, t);
      } else {
        DropKeepsInv(s, t);
      }
    case TrySend(t) =>
      if |s.queue| < s.capacity {
        DrainSendKeepsInv(s, t);
      } else {
        MoveKeepsInv(s, t, Blocked);
      }
    case BlockingSend(t) => DrainSendKeepsInv(s, t);
    case Cancel(t) => MoveKeepsInv(s, t, Drained(false));
    case SentinelSeen(t) => MoveKeepsInv(s, t, Drained(true));
    case CloseStop(t) => CloseStopKeepsInv(s, t);
    case WaitReturns(t) => MoveKeepsInv(s, t, Releasing(s.threads[t].pc.ok));
    case Release(t) => ReleaseKeepsInv(s, t);
    case FlushReturns(t) => MoveKeepsInv(s, t, Done(Flushed(s.threads[t].pc.ok)));
    case Take => TakeKeepsInv(s);
    case Finish(panics) => FinishKeepsInv(s, panics);
    case Exit =>
  }

  /** Every interleaving of every set of calls keeps the invariant. */
  lemma {:induction false} EveryRunKeepsInv(s: State, steps: seq<Step>)
    requires Inv(s) && IsRun(s, steps)
    ensures Inv(After(s, steps))
    decreases |steps|
  {
    if steps != [] {
      StepKeepsInv(s, steps[0]);
      EveryRunKeepsInv(Next(s, steps[0]), steps[1..]);
    }
  }

  ghost predicate Reachable(s: State) {
    exists steps :: IsRun(Initial(s.capacity), steps) && After(Initial(s.capacity), steps) == s
  }

  lemma ReachableInv(s: State)
    requires Reachable(s)
    ensures Inv(s)
  {
    var steps :| IsRun(Initial(s.capacity), steps) && After(Initial(s.capacity), steps) == s;
    InitialInv(s.capacity);
    EveryRunKeepsInv(Initial(s.capacity), steps);
  }

  // ----- nothing lost, nothing twice, first come first served

  function One(b: bool): nat {
    if b then 1 else 0
  }

  /** In how many of the five places the job of a dispatch call is. */
  function Places(s: State, t: Tid): nat {
    One(At(s, t, Dispatch, Sending)) + One(t in s.dropped) + One(t in s.queue) + One(s.worker == Running(t))
          + One(t in s.finished)
  }

  lemma {:induction false} OnePlaceInOrder(s: State, t: Tid)
    requires QueueInv(s)
    ensures One(t in s.queue) + One(s.worker == Running(t)) + One(t in s.finished) == One(t in s.accepted)
  {
    var a, f, h := s.accepted, |s.finished|, |InHand(s)|;
    assert forall i :: 0 <= i < f ==> a[i] == s.finished[i];
    assert s.worker.Running? ==> a[f] == s.worker.job;
    assert forall i :: 0 <= i < |s.queue| ==> a[f + h + i] == s.queue[i];
    if t in s.accepted {
      var k :| 0 <= k < |a| && a[k] == t;
      if k < f {
        assert s.finished[k] == t;
      } else if k >= f + h {
        assert s.queue[k - f - h] == t;
      }
    }
  }

  /** At any moment the job of a dispatch call that passed enabled() is in exactly one place:
      about to be sent, counted as overflow, queued, running or finished. The job of one that did
      not is nowhere. */
  lemma EveryJobInOnePlace(s: State, t: Tid)
    requires Reachable(s) && t in s.threads && s.threads[t].kind == Dispatch
    ensures Places(s, t) == One(t in s.passed)
  {
    ReachableInv(s);
    OnePlaceInOrder(s, t);
    assert ThreadInv(s, t);
  }

  /** The queue is never over capacity, the counters count what they say, no job is started twice
      and jobs start in the order in which they were accepted. */
  lemma OrderedAndBounded(s: State)
    requires Reachable(s)
    ensures |s.queue| <= s.capacity
    ensures s.queueOverflow == |s.dropped| && s.recovered == |s.panicked|
    ensures var started := s.finished + InHand(s);
            started <= s.accepted && Distinct(started)
  {
    ReachableInv(s);
  }

  // ----- drain and Shutdown

  /** When a drain has returned nil, everything accepted before its sentinel has finished,
      whether it returned or panicked. */
  lemma DrainWaitsForEverythingBefore(s: State, t: Tid)
    requires Reachable(s) && t in s.threads && DrainedOk(s.threads[t].pc)
    ensures exists k ::
              0 <= k < |s.accepted| && s.accepted[k] == t && k <= |s.finished| && s.accepted[..k] <= s.finished
  {
    ReachableInv(s);
    assert ThreadInv(s, t);
    var f := |s.finished|;
    var k := if t in s.finished then IndexOf(s.finished, t) else f;
    assert s.accepted[k] == t;
    assert s.accepted[..k] == s.finished[..k];
  }

  function IndexOf(ids: seq<Tid>, t: Tid): (k: nat)
    requires t in ids
    ensures k < |ids| && ids[k] == t
  {
    if ids[0] == t then 0 else 1 + IndexOf(ids[1..], t)
  }

  /** A job that is still queued, and so never runs once the worker is gone, when Shutdown's drain
      has returned nil: it was accepted after Shutdown's sentinel, by a call that had passed
      enabled() before the compare-and-swap. */
  lemma ShutdownLosesOnlyLateSends(s: State, t: Tid, lost: Tid)
    requires Reachable(s) && s.winner == Some(t) && t in s.threads && DrainedOk(s.threads[t].pc)
    requires lost in s.queue
    ensures lost in s.passedAtShutdown
    ensures exists k, l :: 0 <= k < l < |s.accepted| && s.accepted[k] == t && s.accepted[l] == lost
  {
    ReachableInv(s);
    var f, h := |s.finished|, |InHand(s)|;
    var i := IndexOf(s.queue, lost);
    var l := f + h + i;
    assert s.accepted[l] == lost;
    assert ThreadInv(s, lost) && ThreadInv(s, t);
    var k := if t in s.finished then IndexOf(s.finished, t) else f;
    assert s.accepted[k] == t;
  }

  /** Over any number of Shutdown calls stopCh is closed at most once and the providers are shut
      down at most once, only after the worker has exited; and a worker that has exited stays. */
  lemma OneCleanShutdown(s: State)
    requires Reachable(s)
    ensures s.stopCloses <= 1 && s.released <= 1
    ensures s.released == 1 ==> s.worker == Exited
    ensures s.worker == Exited ==> s.stopCloses == 1
  {
    ReachableInv(s);
  }

  /** Once the worker has exited it stays away, and no job runs any more, in any run. */
  lemma {:induction false} NothingRunsAfterExit(s: State, steps: seq<Step>)
    requires s.worker == Exited && IsRun(s, steps)
    ensures After(s, steps).worker == Exited
    ensures After(s, steps).finished == s.finished && After(s, steps).recovered == s.recovered
    ensures s.queue <= After(s, steps).queue
    decreases |steps|
  {
    if steps != [] {
      NothingRunsAfterExit(Next(s, steps[0]), steps[1..]);
    }
  }
}
