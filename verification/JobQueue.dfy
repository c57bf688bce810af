/** The background queue of client.go as a transition system: any number of goroutines calling
    dispatch, Flush and Shutdown, one worker, a bounded channel and the stop channel. Every read
    or write another goroutine could come between is a step of its own. */
module JobQueue {
  import opened Wrappers

  /** Every call is its own thread; the thread's number also names the job it sends, which for
      Flush and Shutdown is drain's sentinel. */
  type Tid = nat

  datatype Kind = Dispatch | Flush | Shutdown

  datatype Outcome =
    | Ignored                 // enabled() said no
    | Accepted                // dispatch put its job on the queue
    | Dropped                 // dispatch found the queue full
    | Flushed(drained: bool)  // Flush returned; drained says drain returned nil
    | AlreadyShut             // Shutdown lost the compare-and-swap
    | ShutDown(drained: bool) // Shutdown ran to the end

  datatype Pc =
    | Start                   // before enabled(), or before Shutdown's compare-and-swap
    | Sending                 // dispatch, past enabled()
    | Draining                // drain, before its non-blocking send
    | Blocked                 // drain, in the select with the blocking send
    | Awaiting                // drain, waiting for its sentinel to run
    | Drained(ok: bool)       // drain has returned
    | Stopping(ok: bool)      // Shutdown, before wg.Wait
    | Releasing(ok: bool)     // Shutdown, past wg.Wait, before the providers are shut down
    | Done(outcome: Outcome)

  datatype Thread = Thread(kind: Kind, pc: Pc)

  datatype Worker = Idle | Running(job: Tid) | Exited

  datatype State = State(
    capacity: nat,
    threads: map<Tid, Thread>,
    queue: seq<Tid>,          // the channel, oldest first
    worker: Worker,
    shutdown: bool,
    stopCloses: nat,          // how often stopCh was closed
    released: nat,            // how often the providers were shut down
    queueOverflow: nat,
    recovered: nat,           // panics counted by recoverGuard
    // history
    passed: set<Tid>,         // calls that got past enabled() or won the compare-and-swap
    accepted: seq<Tid>,       // everything ever put on the queue, in order
    finished: seq<Tid>,       // everything the worker has finished running, in order
    panicked: set<Tid>,       // jobs that panicked
    dropped: set<Tid>,        // jobs counted in queueOverflow
    winner: Option<Tid>,      // the Shutdown whose compare-and-swap succeeded
    passedAtShutdown: set<Tid>)  // `passed` at that moment

  function Initial(capacity: nat): State {
    State(capacity, map[], [], Idle, false, 0, 0, 0, 0, {}, [], [], {}, {}, None, {})
  }

  predicate At(s: State, t: Tid, kind: Kind, pc: Pc) {
    t in s.threads && s.threads[t] == Thread(kind, pc)
  }

  function Move(s: State, t: Tid, pc: Pc): State
    requires t in s.threads
  {
    s.(threads := s.threads[t := s.threads[t].(pc := pc)])
  }

  function Push(s: State, t: Tid): State {
    s.(queue := s.queue + [t], accepted := s.accepted + [t])
  }

  /** A sentinel closes its drain's channel while it runs, so the drain can see that channel
      closed before the worker is done with the sentinel. */
  predicate SentinelRan(s: State, t: Tid) {
    t in s.finished || s.worker == Running(t)
  }

  datatype Step =
    | Call(t: Tid, kind: Kind)      // a goroutine makes a call
    | Check(t: Tid)                 // enabled(), or Shutdown's compare-and-swap
    | Send(t: Tid)                  // dispatch's select
    | TrySend(t: Tid)               // drain's non-blocking send
    | BlockingSend(t: Tid)          // drain's blocking send goes through
    | Cancel(t: Tid)                // ctx.Done in either of drain's selects
    | SentinelSeen(t: Tid)          // drain's wait ends
    | CloseStop(t: Tid)             // close(stopCh)
    | WaitReturns(t: Tid)           // wg.Wait
    | Release(t: Tid)               // the providers are shut down, Shutdown returns
    | FlushReturns(t: Tid)          // Flush exports and returns
    | Take                          // the worker's select picks a job
    | Finish(panics: bool)          // the running job ends; only a dispatched job can panic
    | Exit                          // the worker's select picks stopCh

  /** The thread a step belongs to. */
  function Owner(step: Step): Option<Tid> {
    match step
    case Call(t, _) => Some(t)
    case Check(t) => Some(t)
    case Send(t) => Some(t)
    case TrySend(t) => Some(t)
    case BlockingSend(t) => Some(t)
    case Cancel(t) => Some(t)
    case SentinelSeen(t) => Some(t)
    case CloseStop(t) => Some(t)
    case WaitReturns(t) => Some(t)
    case Release(t) => Some(t)
    case FlushReturns(t) => Some(t)
    case _ => None
  }

  predicate Enabled(s: State, step: Step) {
    match step
    case Call(t, kind) => t !in s.threads
    case Check(t) => t in s.threads && s.threads[t].pc == Start
    case Send(t) => At(s, t, Dispatch, Sending)
    case TrySend(t) => t in s.threads && s.threads[t].pc == Draining
    case BlockingSend(t) => t in s.threads && s.threads[t].pc == Blocked && |s.queue| < s.capacity
    case Cancel(t) => t in s.threads && (s.threads[t].pc == Blocked || s.threads[t].pc == Awaiting)
    case SentinelSeen(t) => t in s.threads && s.threads[t].pc == Awaiting && SentinelRan(s, t)
    case CloseStop(t) => t in s.threads && s.threads[t].kind == Shutdown && s.threads[t].pc.Drained?
    case WaitReturns(t) => t in s.threads && s.threads[t].pc.Stopping? && s.worker == Exited
    case Release(t) => t in s.threads && s.threads[t].pc.Releasing?
    case FlushReturns(t) => t in s.threads && s.threads[t].kind == Flush && s.threads[t].pc.Drained?
    case Take => s.worker == Idle && s.queue != []
    case Finish(panics) =>
      && s.worker.Running?
      && (panics ==> s.worker.job in s.threads && s.threads[s.worker.job].kind == Dispatch)
    case Exit => s.worker == Idle && s.stopCloses > 0
  }

  /** enabled() for dispatch and Flush, the compare-and-swap for Shutdown. */
  function AfterCheck(s: State, t: Tid): State
    requires t in s.threads
  {
    var kind := s.threads[t].kind;
    if s.shutdown then
      Move(s, t, Done(if kind == Shutdown then AlreadyShut else Ignored))
    else
      var p := s.(passed := s.passed + {t});
      if kind == Dispatch then Move(p, t, Sending)
      else if kind == Flush then Move(p, t, Draining)
      else Move(p.(shutdown := true, winner := Some(t), passedAtShutdown := p.passed), t, Draining)
  }

  function AfterSend(s: State, t: Tid): State
    requires t in s.threads
  {
    if |s.queue| < s.capacity then Move(Push(s, t), t, Done(Accepted))
    else Move(s.(queueOverflow := s.queueOverflow + 1, dropped := s.dropped + {t}), t, Done(Dropped))
  }

  function AfterTrySend(s: State, t: Tid): State
    requires t in s.threads
  {
    if |s.queue| < s.capacity then Move(Push(s, t), t, Awaiting) else Move(s, t, Blocked)
  }

  function AfterFinish(s: State, panics: bool): State
    requires s.worker.Running?
  {
    s.(worker := Idle, finished := s.finished + [s.worker.job],
       recovered := if panics then s.recovered + 1 else s.recovered,
       panicked := if panics then s.panicked + {s.worker.job} else s.panicked)
  }

  function Next(s: State, step: Step): State
    requires Enabled(s, step)
  {
    match step
    case Call(t, kind) => s.(threads := s.threads[t := Thread(kind, Start)])
    case Check(t) => AfterCheck(s, t)
    case Send(t) => AfterSend(s, t)
    case TrySend(t) => AfterTrySend(s, t)
    case BlockingSend(t) => Move(Push(s, t), t, Awaiting)
    case Cancel(t) => Move(s, t, Drained(false))
    case SentinelSeen(t) => Move(s, t, Drained(true))
    case CloseStop(t) => Move(s.(stopCloses := s.stopCloses + 1), t, Stopping(s.threads[t].pc.ok))
    case WaitReturns(t) => Move(s, t, Releasing(s.threads[t].pc.ok))
    case Release(t) => Move(s.(released := s.released + 1), t, Done(ShutDown(s.threads[t].pc.ok)))
    case FlushReturns(t) => Move(s, t, Done(Flushed(s.threads[t].pc.ok)))
    case Take => s.(worker := Running(s.queue[0]), queue := s.queue[1..])
    case Finish(panics) => AfterFinish(s, panics)
    case Exit => s.(worker := Exited)
  }

  // ----- runs

  ghost predicate IsRun(s: State, steps: seq<Step>)
    decreases |steps|
  {
    steps == [] || (Enabled(s, steps[0]) && IsRun(Next(s, steps[0]), steps[1..]))
  }

  ghost function After(s: State, steps: seq<Step>): State
    requires IsRun(s, steps)
    decreases |steps|
  {
    if steps == [] then s else After(Next(s, steps[0]), steps[1..])
  }

  // ----- the invariant

  function InHand(s: State): seq<Tid> {
    if s.worker.Running? then [s.worker.job] else []
  }

  /** Where a thread's job is, as its program counter has it. */
  predicate ThreadInv(s: State, t: Tid)
    requires t in s.threads
  {
    var kind, pc := s.threads[t].kind, s.threads[t].pc;
    && (t in s.passed <==> !pc.Start? && pc != Done(Ignored) && pc != Done(AlreadyShut))
    && (pc.Start? || pc.Sending? || pc.Draining? || pc.Blocked? || pc == Done(Ignored) || pc == Done(AlreadyShut) ==>
          t !in s.accepted && t !in s.dropped)
    && (pc.Awaiting? || pc == Done(Accepted) ==> t in s.accepted && t !in s.dropped)
    && (t in s.dropped <==> pc == Done(Dropped))
    && (pc == Done(Dropped) ==> t !in s.accepted)
    && (DrainedOk(pc) ==> SentinelRan(s, t))
    && (pc.Sending? ==> kind == Dispatch)
    && (pc.Draining? || pc.Blocked? || pc.Awaiting? || pc.Drained? ==> kind != Dispatch)
    && (pc.Stopping? || pc.Releasing? ==> kind == Shutdown)
    && (pc.Done? ==> match pc.outcome
                     case Ignored => kind != Shutdown
                     case Accepted => kind == Dispatch
                     case Dropped => kind == Dispatch
                     case Flushed(_) => kind == Flush
                     case AlreadyShut => kind == Shutdown
                     case ShutDown(_) => kind == Shutdown)
  }

  /** drain has returned nil in this thread. */
  predicate DrainedOk(pc: Pc) {
    match pc
    case Drained(ok) => ok
    case Stopping(ok) => ok
    case Releasing(ok) => ok
    case Done(o) => (o.Flushed? || o.ShutDown?) && o.drained
    case _ => false
  }

  predicate PastClose(pc: Pc) {
    pc.Stopping? || pc.Releasing? || (pc.Done? && pc.outcome.ShutDown?)
  }

  predicate PastWait(pc: Pc) {
    pc.Releasing? || (pc.Done? && pc.outcome.ShutDown?)
  }

  ghost predicate QueueInv(s: State) {
    && s.accepted == s.finished + InHand(s) + s.queue
    && |s.queue| <= s.capacity
    && Distinct(s.accepted)
    && (forall t :: t in s.accepted ==> t in s.threads)
    && (forall t :: t in s.dropped ==> t in s.threads)
    && |s.dropped| == s.queueOverflow
    && |s.panicked| == s.recovered
    && (forall t :: t in s.panicked ==> t in s.finished && t in s.threads && s.threads[t].kind == Dispatch)
  }

  predicate Over(pc: Pc) {
    pc.Done? && pc.outcome.ShutDown?
  }

  ghost predicate ShutdownInv(s: State) {
    && (s.shutdown <==> s.winner.Some?)
    && (s.winner.Some? ==>
        s.winner.value in s.threads && s.threads[s.winner.value].kind == Shutdown && s.winner.value in s.passed)
    && (forall t :: t in s.threads && s.threads[t].kind == Shutdown && t in s.passed ==> s.winner == Some(t))
    && (s.winner.Some? ==> s.passedAtShutdown == s.passed)
    && s.stopCloses == (if s.winner.Some? && PastClose(s.threads[s.winner.value].pc) then 1 else 0)
    && s.released == (if s.winner.Some? && Over(s.threads[s.winner.value].pc) then 1 else 0)
    && (s.worker == Exited ==> s.stopCloses == 1)
    && (s.winner.Some? && PastWait(s.threads[s.winner.value].pc) ==> s.worker == Exited)
  }

  ghost predicate ThreadsInv(s: State) {
    && (forall t :: t in s.threads ==> ThreadInv(s, t))
    && (forall t :: t in s.passed ==> t in s.threads)
  }

  ghost predicate Inv(s: State) {
    QueueInv(s) && ShutdownInv(s) && ThreadsInv(s)
  }
}
