/** What becomes of the request for the install ID that the first vendor metric call makes: it is
    made once, as a job like any other, and a full queue drops it for good. */
module InstallRequests {
  import opened Wrappers
  import opened Signals
  import opened TaxonomySpec
  import V = VendorMetrics

  predicate LoadQueued(batches: seq<Batch>) {
    exists i :: 0 <= i < |batches| && batches[i].loads
  }

  /** The ID is published, or a job that publishes it is queued. */
  predicate Published(s: State) {
    s.ready.Some? || LoadQueued(s.pending)
  }

  /** A call that queues a job of its own that loads the ID: one whose records carry it. */
  predicate Carries(cfg: Config, s: State, c: Call) {
    !s.closed && cfg.Basic() && CarriesIdentity(c) && !Ignored(cfg, s, c)
  }

  /** A metric call that asks for the ID. */
  predicate Asks(cfg: Config, s: State, c: Call) {
    !s.closed && cfg.Basic() && c.Vendor? && V.AsksForInstall(c.metric) && s.ready.None? && !s.asking
  }

  /** This step puts a job on the queue that loads the ID. */
  predicate Supplies(cfg: Config, s: State, step: Step) {
    step.Do? && |s.pending| < cfg.queueSize && (Carries(cfg, s, step.call) || Asks(cfg, s, step.call))
  }

  predicate SuppliesWithin(cfg: Config, s: State, steps: seq<Step>)
    decreases |steps|
  {
    steps != [] && (Supplies(cfg, s, steps[0]) || SuppliesWithin(cfg, Next(cfg, s, steps[0]), steps[1..]))
  }

  // ----- one step

  lemma LoadQueuedAppend(batches: seq<Batch>, b: Batch)
    ensures LoadQueued(batches + [b]) <==> LoadQueued(batches) || b.loads
  {
    var all := batches + [b];
    assert all[|batches|] == b;
    assert forall i :: 0 <= i < |batches| ==> all[i] == batches[i];
  }

  lemma EnqueueSupplies(cfg: Config, s: State, b: Batch)
    ensures Published(Enqueue(cfg, s, b)) <==> Published(s) || (b.loads && |s.pending| < cfg.queueSize)
  {
    LoadQueuedAppend(s.pending, b);
  }

  lemma WorkPublishes(cfg: Config, s: State)
    ensures Published(RunNext(cfg, s)) <==> Published(s)
  {
    if s.pending != [] {
      var rest := s.pending[1..];
      assert s.pending == [s.pending[0]] + rest;
      assert forall i :: 0 <= i < |rest| ==> rest[i] == s.pending[i + 1];
      assert forall i :: 0 < i < |s.pending| ==> s.pending[i] == rest[i - 1];
    }
  }

  lemma VendorSupplies(cfg: Config, s: State, m: V.Call)
    requires !s.closed
    ensures Published(PerformVendor(cfg, s, m)) <==>
              Published(s) || (Asks(cfg, s, Vendor(m)) && |s.pending| < cfg.queueSize)
    ensures PerformVendor(cfg, s, m).ready == s.ready
  {
    EnqueueSupplies(cfg, s.(asking := true), Batch([], true));
    assert Published(s.(asking := true)) == Published(s);
  }

  /** At Basic and above every call whose records carry the ID has records to emit. */
  lemma CarriersEmit(cfg: Config, s: State, c: Call)
    requires cfg.Basic() && CarriesIdentity(c)
    ensures Emitted(cfg.tier, Declares(cfg, s, c)) != []
  {
  }

  lemma QueuedSupplies(cfg: Config, s: State, c: Call, drawn: string)
    requires !s.closed && !c.Vendor? && !c.SetKnown? && !Ignored(cfg, s, c)
    ensures Published(PerformQueued(cfg, s, c, drawn)) <==>
              Published(s) || (Carries(cfg, s, c) && |s.pending| < cfg.queueSize)
    ensures PerformQueued(cfg, s, c, drawn).ready == s.ready
  {
    var marked := Marked(cfg, s, c, drawn);
    var records := Emitted(cfg.tier, Declares(cfg, marked, c));
    var loads := cfg.Basic() && CarriesIdentity(c);
    assert Published(marked) == Published(s) && |marked.pending| == |s.pending|;
    if loads {
      CarriersEmit(cfg, marked, c);
    }
    SubmitSupplies(cfg, marked, records, loads);
  }

  lemma SubmitSupplies(cfg: Config, s: State, records: seq<Record>, loads: bool)
    requires loads ==> records != []
    ensures Published(Submit(cfg, s, records, loads)) <==> Published(s) || (loads && |s.pending| < cfg.queueSize)
    ensures Submit(cfg, s, records, loads).ready == s.ready
  {
    EnqueueSupplies(cfg, s, Batch(records, loads));
  }

  lemma StepSupplies(cfg: Config, s: State, step: Step)
    ensures Published(Next(cfg, s, step)) <==> Published(s) || Supplies(cfg, s, step)
  {
    match step
    case Work => WorkPublishes(cfg, s);
    case Close =>
    case Do(c, drawn) =>
      if !s.closed && !Ignored(cfg, s, c) {
        if c.Vendor? {
          VendorSupplies(cfg, s, c.metric);
        } else if !c.SetKnown? {
          QueuedSupplies(cfg, s, c, drawn);
        }
      }
  }

  // ----- whole runs

  /** In every run, the ID ends up published or about to be exactly when it was at the start or some
      call found room in the queue for a job that loads it. */
  lemma {:induction false} PublishedExactlyWhen(cfg: Config, s: State, steps: seq<Step>)
    ensures Published(Run(cfg, s, steps)) <==> Published(s) || SuppliesWithin(cfg, s, steps)
    decreases |steps|
  {
    if steps != [] {
      StepSupplies(cfg, s, steps[0]);
      PublishedExactlyWhen(cfg, Next(cfg, s, steps[0]), steps[1..]);
    }
  }

  lemma AskingStays(cfg: Config, s: State, step: Step)
    requires s.asking
    ensures Next(cfg, s, step).asking
  {
  }

  predicate NoCarriers(steps: seq<Step>) {
    forall i :: 0 <= i < |steps| && steps[i].Do? ==> !CarriesIdentity(steps[i].call)
  }

  /** Once a metric call has asked, no metric call asks again. */
  lemma {:induction false} NobodyAsksAgain(cfg: Config, s: State, steps: seq<Step>)
    requires s.asking && NoCarriers(steps)
    ensures !SuppliesWithin(cfg, s, steps)
    decreases |steps|
  {
    if steps != [] {
      AskingStays(cfg, s, steps[0]);
      NobodyAsksAgain(cfg, Next(cfg, s, steps[0]), steps[1..]);
    }
  }

  /** A client used for vendor metrics only, or from then on: an ID asked for by a metric call gets
      published, once the worker has caught up, exactly when the queue had room at the moment it was
      asked for. If it had not, no later metric call mends it. */
  lemma AskedForIdIsPublishedExactlyWhen(cfg: Config, s: State, m: V.Call, drawn: string, steps: seq<Step>)
    requires Asks(cfg, s, Vendor(m)) && !LoadQueued(s.pending) && NoCarriers(steps)
    ensures var n := Run(cfg, Perform(cfg, s, Vendor(m), drawn), steps);
            && (Published(n) <==> |s.pending| < cfg.queueSize)
            && (n.pending == [] ==> (n.ready.Some? <==> |s.pending| < cfg.queueSize))
  {
    var asked := Perform(cfg, s, Vendor(m), drawn);
    StepSupplies(cfg, s, Do(Vendor(m), drawn));
    PublishedExactlyWhen(cfg, asked, steps);
    AskedIsAsking(cfg, s, m);
    NobodyAsksAgain(cfg, asked, steps);
  }

  lemma AskedIsAsking(cfg: Config, s: State, m: V.Call)
    requires Asks(cfg, s, Vendor(m))
    ensures PerformVendor(cfg, s, m).asking
  {
  }

  /** Nothing but the loaded ID is ever published, and only by a job that loads it. */
  lemma {:induction false} OnlyTheLoadedIdIsPublished(cfg: Config, s: State, steps: seq<Step>)
    requires s.ready.None? || s.ready == Some(cfg.installSource)
    ensures var n := Run(cfg, s, steps);
            && (n.ready.None? || n.ready == Some(cfg.installSource))
            && (n.ready.Some? && s.ready.None? ==> LoadQueued(s.pending) || SuppliesWithin(cfg, s, steps))
    decreases |steps|
  {
    PublishedExactlyWhen(cfg, s, steps);
    if steps != [] {
      ReadyStep(cfg, s, steps[0]);
      OnlyTheLoadedIdIsPublished(cfg, Next(cfg, s, steps[0]), steps[1..]);
    }
  }

  lemma ReadyStep(cfg: Config, s: State, step: Step)
    requires s.ready.None? || s.ready == Some(cfg.installSource)
    ensures Next(cfg, s, step).ready.None? || Next(cfg, s, step).ready == Some(cfg.installSource)
    ensures s.ready.Some? ==> Next(cfg, s, step).ready == s.ready
  {
  }
}
