/** Whole runs of the code: one goroutine's calls, the worker's jobs and Shutdown's flag, in any
    order, do to the client's fields what TaxonomySpec.Run says, so what is proved of such runs holds
    of the code. */
module ClientRuns {
  import opened Wrappers
  import opened Signals
  import opened TaxonomySpec
  import opened ClientCode
  import CounterSums
  import V = VendorMetrics

  /** Only calls whose records carry an identity look at the session ID drawn. */
  lemma DrawnOnlyForIdentity(cfg: Config, s: State, c: Call, drawn: string)
    requires !CarriesIdentity(c)
    ensures Perform(cfg, s, c, drawn) == Perform(cfg, s, c, "")
  {
    assert Marked(cfg, s, c, drawn) == Marked(cfg, s, c, "");
  }

  method Measure(client: Client, m: V.Call)
    requires client.Counted()
    modifies client, client.counter
    ensures client.View() == Perform(client.cfg, old(client.View()), Vendor(m), "")
    ensures client.Counted()
  {
    match m
    case CountNamed(name, n, tag) => client.RecordCounter(name, n, tag);
    case CountByHandle(h, n, values) => client.CounterAdd(h, n, values);
    case TimeNamed(name, d, tag) => client.RecordDuration(name, d, tag);
    case TimeByHandle(h, d, values) => client.DurationRecord(h, d, values);
    case RecordValue(h, unit, v, values) => client.ValueRecord(h, unit, v, values);
  }

  /** Every Record* method but the vendor metrics. */
  method Report(client: Client, c: Call, drawn: string)
    requires !c.Vendor?
    modifies client
    ensures client.View() == Perform(client.cfg, old(client.View()), c, drawn)
  {
    ghost var before := client.View();
    match c {
      case SessionStart(facts) => client.RecordSessionStart(facts, drawn);
      case Invocation(path, flags) => client.RecordCommandInvocation(path, flags, drawn);
      case CommandDone(path, flags, exitCode, duration, peakRss, cpuTime) =>
        client.RecordCommand(path, flags, exitCode, duration, peakRss, cpuTime, drawn);
      case FeatureUsed(feature) => client.RecordFeatureActivated(feature, drawn);
      case Failed(path, category, reason) => client.RecordError(path, category, reason, drawn);
      case SetKnown(paths) => client.SetKnownCommands(paths);
      case Unknown(suggestion) => client.RecordUnknownCommand(suggestion);
      case Help(path) => client.RecordHelpFlagUsage(path);
      case FailedInDetail(path, message, stack) => client.RecordErrorDetail(path, message, stack);
    }
    if !CarriesIdentity(c) {
      DrawnOnlyForIdentity(client.cfg, before, c, drawn);
    }
  }

  method DoStep(client: Client, step: Step)
    requires client.Counted()
    modifies client, client.counter
    ensures client.View() == Next(client.cfg, old(client.View()), step)
    ensures client.Counted()
  {
    ghost var before := client.View();
    if step.Work? {
      client.RunNextJob();
      assert client.View().points == before.points;
    } else if step.Close? {
      var _ := client.WinShutdown();
      assert client.View().points == before.points;
    } else if step.call.Vendor? {
      Measure(client, step.call.metric);
      DrawnOnlyForIdentity(client.cfg, before, step.call, step.drawn);
    } else {
      Report(client, step.call, step.drawn);
      CounterSums.ReportsAddNoPoint(client.cfg, before, step.call, step.drawn);
      assert client.View().points == before.points;
    }
  }

  lemma {:induction false} RunSnoc(cfg: Config, s: State, steps: seq<Step>, step: Step)
    ensures Run(cfg, s, steps + [step]) == Next(cfg, Run(cfg, s, steps), step)
    decreases |steps|
  {
    if steps == [] {
      assert [] + [step] == [step] && [step][1..] == [];
    } else {
      assert (steps + [step])[1..] == steps[1..] + [step];
      RunSnoc(cfg, Next(cfg, s, steps[0]), steps[1..], step);
    }
  }

  ghost predicate AddUpTo(sums: map<Attrs, int>, total: int) {
    forall all: seq<Attrs> ::
      Distinct(all) && (forall a :: a in all <==> a in sums) ==> V.SumOfValues(sums, all) == total
  }

  lemma CountsAddUp(cfg: Config, steps: seq<Step>, sums: map<Attrs, int>)
    requires V.Sums(sums, V.CounterAdds(Run(cfg, INITIAL, steps).points))
    ensures AddUpTo(sums, CounterSums.AcceptedSum(false, steps))
  {
    forall all: seq<Attrs> | Distinct(all) && (forall a :: a in all <==> a in sums)
      ensures V.SumOfValues(sums, all) == CounterSums.AcceptedSum(false, steps)
    {
      CounterSums.SeriesSumsAreWhatWasAccepted(cfg, steps, sums, all);
    }
  }

  /** A new client goes through any schedule as described, and what its counter instrument holds at
      the end, over all series, is the sum of the counter calls accepted. */
  method Play(cfg: Config, steps: seq<Step>) returns (client: Client)
    ensures client.cfg == cfg && client.View() == Run(cfg, INITIAL, steps)
    ensures AddUpTo(client.counter.sums, CounterSums.AcceptedSum(false, steps))
  {
    client := new Client(cfg);
    for i := 0 to |steps|
      invariant client.cfg == cfg && client.Counted() && fresh(client) && fresh(client.counter)
      invariant client.View() == Run(cfg, INITIAL, steps[..i])
    {
      RunSnoc(cfg, INITIAL, steps[..i], steps[i]);
      assert steps[..i + 1] == steps[..i] + [steps[i]];
      DoStep(client, steps[i]);
    }
    assert steps[..|steps|] == steps;
    assert client.points == client.View().points;
    CountsAddUp(cfg, steps, client.counter.sums);
  }
}
