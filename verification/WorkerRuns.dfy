/** What the worker makes of the queue over a whole run, and what is left to happen once a client
    has been closed. */
module WorkerRuns {
  import opened Wrappers
  import opened Signals
  import opened TaxonomySpec
  import opened TierOrder
  import opened InstallRequests

  /** A state in which the first `k` queued jobs have been run. */
  function Emptied(cfg: Config, s: State, k: nat): State
    requires k <= |s.pending|
  {
    s.(pending := s.pending[k..],
       sink := s.sink + Flatten(s.pending[..k]),
       ready := if s.ready.None? && LoadQueued(s.pending[..k]) then Some(cfg.installSource) else s.ready)
  }

  lemma EmptiedOneMore(cfg: Config, s: State, k: nat)
    requires s.pending != [] && k < |s.pending|
    ensures Emptied(cfg, RunNext(cfg, s), k) == Emptied(cfg, s, k + 1)
  {
    var rest := s.pending[1..];
    assert s.pending[..k + 1] == [s.pending[0]] + rest[..k];
    assert rest[k..] == s.pending[k + 1..];
    assert Flatten(s.pending[..k + 1]) == s.pending[0].records + Flatten(rest[..k]) by {
      assert s.pending[..k + 1][1..] == rest[..k];
    }
    Associative(s.sink, s.pending[0].records, Flatten(rest[..k]));
    LoadQueuedCons(s.pending[0], rest[..k]);
  }

  lemma LoadQueuedCons(b: Batch, batches: seq<Batch>)
    ensures LoadQueued([b] + batches) <==> b.loads || LoadQueued(batches)
  {
    var all := [b] + batches;
    assert all[0] == b && forall i :: 0 <= i < |batches| ==> all[i + 1] == batches[i];
    if i :| 0 <= i < |all| && all[i].loads && i > 0 {
      assert batches[i - 1].loads;
    }
  }

  /** As many steps of the worker run as many jobs, the oldest first: all their records are emitted,
      in order, the install ID is published if one of them loads it, and nothing else changes. */
  lemma {:induction false} WorkerEmitsInOrder(cfg: Config, s: State, steps: seq<Step>)
    requires forall i :: 0 <= i < |steps| ==> steps[i] == Work
    ensures Run(cfg, s, steps) == Emptied(cfg, s, if |steps| < |s.pending| then |steps| else |s.pending|)
    decreases |steps|
  {
    if steps == [] || s.pending == [] {
      NothingToRun(cfg, s);
      if steps != [] {
        WorkerEmitsInOrder(cfg, s, steps[1..]);
      }
    } else {
      var n := RunNext(cfg, s);
      WorkerEmitsInOrder(cfg, n, steps[1..]);
      EmptiedOneMore(cfg, s, if |steps| - 1 < |n.pending| then |steps| - 1 else |n.pending|);
    }
  }

  lemma NothingToRun(cfg: Config, s: State)
    ensures Emptied(cfg, s, 0) == s
  {
    assert s.pending[0..] == s.pending && s.pending[..0] == [];
    assert s.sink + [] == s.sink;
  }

  lemma ClosedStep(cfg: Config, s: State, step: Step)
    requires s.closed
    ensures var n := Next(cfg, s, step);
            n == s.(pending := n.pending, sink := n.sink, ready := n.ready) && Stream(n) == Stream(s)
  {
    if step.Work? {
      WorkKeepsStream(cfg, s);
    }
  }

  lemma {:induction false} ClosedRun(cfg: Config, s: State, steps: seq<Step>)
    requires s.closed
    ensures var n := Run(cfg, s, steps);
            n == s.(pending := n.pending, sink := n.sink, ready := n.ready) && Stream(n) == Stream(s)
    decreases |steps|
  {
    if steps != [] {
      ClosedStep(cfg, s, steps[0]);
      ClosedRun(cfg, Next(cfg, s, steps[0]), steps[1..]);
    }
  }

  /** Once the flag is set no call adds a record, a data point or a drop, and no call leaves a mark:
      all that ever happens is that the worker emits what was queued before. */
  lemma NothingAfterClose(cfg: Config, s: State, steps: seq<Step>)
    ensures var n := Run(cfg, Next(cfg, s, Close), steps);
            && n == s.(closed := true, pending := n.pending, sink := n.sink, ready := n.ready)
            && n.sink + Flatten(n.pending) == s.sink + Flatten(s.pending)
  {
    ClosedRun(cfg, Next(cfg, s, Close), steps);
  }
}
