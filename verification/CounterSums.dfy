/** Vendor counters over whole runs: what was accepted is what the series add up to. */
module CounterSums {
  import opened Wrappers
  import opened Signals
  import opened TaxonomySpec
  import T = TierOrder
  import V = VendorMetrics

  /** The amount a call contributes: that of an accepted counter call. */
  function Contribution(c: Call): int {
    if !c.Vendor? || !V.Accepted(c.metric) then 0
    else match c.metric
         case CountNamed(_, n, _) => n
         case CountByHandle(_, n, _) => n
         case _ => 0
  }

  /** The sum of all counter calls accepted before the client is closed. */
  function AcceptedSum(closed: bool, steps: seq<Step>): int
    decreases |steps|
  {
    if steps == [] then 0
    else (if steps[0].Do? && !closed then Contribution(steps[0].call) else 0)
          + AcceptedSum(closed || steps[0].Close?, steps[1..])
  }

  lemma GrandTotalAppend(added: seq<V.Added>, p: V.Added)
    ensures V.GrandTotal(added + [p]) == V.GrandTotal(added) + p.n
  {
    assert (added + [p])[..|added|] == added;
  }

  function Amount(r: Record): int {
    if V.AddedBy(r) == [] then 0 else V.AddedBy(r)[0].n
  }

  lemma AppendAddsAmount(points: seq<Record>, r: Record)
    ensures V.GrandTotal(V.CounterAdds(points + [r])) == V.GrandTotal(V.CounterAdds(points)) + Amount(r)
  {
    V.CounterAddsAppend(points, r);
    if V.AddedBy(r) == [] {
      assert V.CounterAdds(points) + [] == V.CounterAdds(points);
    } else {
      GrandTotalAppend(V.CounterAdds(points), V.AddedBy(r)[0]);
    }
  }

  lemma PointContributes(cfg: Config, s: State, m: V.Call)
    requires V.Accepted(m)
    ensures Amount(PointRecord(cfg, s, m)) == Contribution(Vendor(m))
  {
  }

  lemma ReportsAddNoPoint(cfg: Config, s: State, c: Call, drawn: string)
    requires !c.Vendor?
    ensures Perform(cfg, s, c, drawn).points == s.points
  {
    T.PerformCore(cfg, s, c, drawn);
  }

  lemma StaysOpen(cfg: Config, core: State, step: Step)
    ensures T.CoreNext(cfg, core, step).closed == (core.closed || step.Close?)
  {
  }

  lemma StepContributes(cfg: Config, s: State, step: Step)
    ensures Next(cfg, s, step).closed == (s.closed || step.Close?)
    ensures V.GrandTotal(V.CounterAdds(Next(cfg, s, step).points)) ==
            V.GrandTotal(V.CounterAdds(s.points)) + if step.Do? && !s.closed then Contribution(step.call) else 0
  {
    var now := T.PointNow(cfg, T.Core(s), step, s.ready);
    T.StepPoints(cfg, s, step);
    StaysOpen(cfg, T.Core(s), step);
    PointNowContributes(cfg, T.Core(s), step, s.ready);
    if now == [] {
      assert s.points + now == s.points;
    } else {
      AppendAddsAmount(s.points, now[0]);
    }
  }

  lemma PointNowContributes(cfg: Config, core: State, step: Step, ready: Option<string>)
    ensures var now := T.PointNow(cfg, core, step, ready);
            && (now == [] || now == [now[0]])
            && (if now == [] then 0 else Amount(now[0]))
                 == if step.Do? && !core.closed then Contribution(step.call) else 0
  {
    if step.Do? && step.call.Vendor? && V.Accepted(step.call.metric) {
      PointContributes(cfg, core.(ready := ready), step.call.metric);
    }
  }

  lemma {:induction false} RunContributes(cfg: Config, s: State, steps: seq<Step>)
    ensures V.GrandTotal(V.CounterAdds(Run(cfg, s, steps).points))
              == V.GrandTotal(V.CounterAdds(s.points)) + AcceptedSum(s.closed, steps)
    decreases |steps|
  {
    if steps != [] {
      StepContributes(cfg, s, steps[0]);
      RunContributes(cfg, Next(cfg, s, steps[0]), steps[1..]);
    }
  }

  /** Over any run at any tier, with or without overflow, what the counter instrument holds, over all
      its series together, is the sum of all accepted counter calls: however attributes split them,
      nothing is lost or counted twice. */
  lemma SeriesSumsAreWhatWasAccepted(cfg: Config, steps: seq<Step>, sums: map<Attrs, int>, all: seq<Attrs>)
    requires V.Sums(sums, V.CounterAdds(Run(cfg, INITIAL, steps).points))
    requires Distinct(all) && forall a :: a in all <==> a in sums
    ensures V.SumOfValues(sums, all) == AcceptedSum(false, steps)
  {
    RunContributes(cfg, INITIAL, steps);
    V.SumsAddUp(sums, V.CounterAdds(Run(cfg, INITIAL, steps).points), all);
  }

  // ----- one series

  /** What identifies a series of the counter: what the vendor said, the command current at the call
      and the install ID attached. */
  datatype Series = Series(id: V.Identity, command: Option<string>, install: Option<Value>)

  /** The series an accepted call falls into when it is made in this state. */
  function SeriesOf(cfg: Config, s: State, m: V.Call): Series
    requires V.Accepted(m)
  {
    Series(V.IdentityOf(m), s.command, V.InstallField(cfg.tier, s.ready))
  }

  function Share(cfg: Config, s: State, step: Step, series: Series): int {
    if step.Do? && step.call.Vendor? && !s.closed && V.Accepted(step.call.metric)
       && SeriesOf(cfg, s, step.call.metric) == series
    then Contribution(step.call)
    else 0
  }

  /** The sum of the counter calls a run accepts in this series. */
  function SeriesSum(cfg: Config, s: State, steps: seq<Step>, series: Series): int
    decreases |steps|
  {
    if steps == [] then 0
    else Share(cfg, s, steps[0], series) + SeriesSum(cfg, Next(cfg, s, steps[0]), steps[1..], series)
  }

  lemma TotalAppend(added: seq<V.Added>, p: V.Added, attrs: Attrs)
    ensures V.Total(added + [p], attrs) == V.Total(added, attrs) + if p.attrs == attrs then p.n else 0
  {
    assert (added + [p])[..|added|] == added;
  }

  lemma TotalOfPoints(points: seq<Record>, r: Record, attrs: Attrs)
    ensures V.Total(V.CounterAdds(points + [r]), attrs)
         == V.Total(V.CounterAdds(points), attrs) + if r.attrs == attrs then Amount(r) else 0
  {
    V.CounterAddsAppend(points, r);
    if V.AddedBy(r) == [] {
      assert V.CounterAdds(points) + [] == V.CounterAdds(points);
    } else {
      TotalAppend(V.CounterAdds(points), V.AddedBy(r)[0], attrs);
    }
  }

  /** The point of a counter call has the attributes of another's series exactly if it is in it. */
  lemma SameSeries(cfg: Config, s: State, m: V.Call, c: V.Call, command: Option<string>, ready: Option<string>)
    requires V.Accepted(m) && V.Accepted(c) && V.IdentityOf(c).instrument == V.IdentityOf(m).instrument
    ensures PointRecord(cfg, s, m).attrs == V.PointAttrs(V.IdentityOf(c), cfg.tier, command, ready)
       <==> SeriesOf(cfg, s, m) == Series(V.IdentityOf(c), command, V.InstallField(cfg.tier, ready))
  {
    V.SeriesNeverMerge(m, c, cfg.tier, s.command, command, s.ready, ready);
  }

  lemma OtherInstruments(m: V.Call)
    requires V.Accepted(m) && V.IdentityOf(m).instrument != Counter
    ensures Contribution(Vendor(m)) == 0
  {
  }

  /** `c` is any accepted counter call, `command` and `ready` the state of its series. */
  lemma PointShares(cfg: Config, s: State, m: V.Call, c: V.Call, command: Option<string>, ready: Option<string>)
    requires V.Accepted(m) && V.Accepted(c) && V.IdentityOf(c).instrument == Counter && !s.closed
    ensures var r := PointRecord(cfg, s, m);
            (if r.attrs == V.PointAttrs(V.IdentityOf(c), cfg.tier, command, ready) then Amount(r) else 0)
              == Share(cfg, s, Do(Vendor(m), ""), Series(V.IdentityOf(c), command, V.InstallField(cfg.tier, ready)))
  {
    PointContributes(cfg, s, m);
    if V.IdentityOf(m).instrument == Counter {
      SameSeries(cfg, s, m, c, command, ready);
    } else {
      OtherInstruments(m);
    }
  }

  lemma StepShares(cfg: Config, s: State, step: Step, c: V.Call, command: Option<string>, ready: Option<string>)
    requires V.Accepted(c) && V.IdentityOf(c).instrument == Counter
    ensures var attrs := V.PointAttrs(V.IdentityOf(c), cfg.tier, command, ready);
            V.Total(V.CounterAdds(Next(cfg, s, step).points), attrs) == V.Total(V.CounterAdds(s.points), attrs)
              + Share(cfg, s, step, Series(V.IdentityOf(c), command, V.InstallField(cfg.tier, ready)))
  {
    T.StepPoints(cfg, s, step);
    if step.Do? && step.call.Vendor? && !s.closed && V.Accepted(step.call.metric) {
      var r := PointRecord(cfg, s, step.call.metric);
      TotalOfPoints(s.points, r, V.PointAttrs(V.IdentityOf(c), cfg.tier, command, ready));
      PointShares(cfg, s, step.call.metric, c, command, ready);
      PointNowIs(cfg, s, step);
    } else {
      assert s.points + [] == s.points;
    }
  }

  lemma PointNowIs(cfg: Config, s: State, step: Step)
    requires step.Do? && step.call.Vendor? && !s.closed && V.Accepted(step.call.metric)
    ensures T.PointNow(cfg, T.Core(s), step, s.ready) == [PointRecord(cfg, s, step.call.metric)]
  {
  }

  lemma {:induction false} RunShares(cfg: Config, s: State, steps: seq<Step>, c: V.Call, command: Option<string>,
                                     ready: Option<string>)
    requires V.Accepted(c) && V.IdentityOf(c).instrument == Counter
    ensures var attrs := V.PointAttrs(V.IdentityOf(c), cfg.tier, command, ready);
            V.Total(V.CounterAdds(Run(cfg, s, steps).points), attrs) == V.Total(V.CounterAdds(s.points), attrs)
              + SeriesSum(cfg, s, steps, Series(V.IdentityOf(c), command, V.InstallField(cfg.tier, ready)))
    decreases |steps|
  {
    if steps != [] {
      StepShares(cfg, s, steps[0], c, command, ready);
      RunShares(cfg, Next(cfg, s, steps[0]), steps[1..], c, command, ready);
    }
  }

  /** After any run, what the counter instrument holds for one attribute set is the sum of the
      accepted calls with that name, label, dimension values, command and attached install ID, and of
      no others; it has nothing for the set only if those add up to nothing. */
  lemma EachSeriesSumsItsCalls(cfg: Config, steps: seq<Step>, sums: map<Attrs, int>, c: V.Call,
                               command: Option<string>, ready: Option<string>)
    requires V.Sums(sums, V.CounterAdds(Run(cfg, INITIAL, steps).points))
    requires V.Accepted(c) && V.IdentityOf(c).instrument == Counter
    ensures var attrs := V.PointAttrs(V.IdentityOf(c), cfg.tier, command, ready);
            var series := Series(V.IdentityOf(c), command, V.InstallField(cfg.tier, ready));
            (if attrs in sums then sums[attrs] else 0) == SeriesSum(cfg, INITIAL, steps, series)
  {
    var attrs := V.PointAttrs(V.IdentityOf(c), cfg.tier, command, ready);
    RunShares(cfg, INITIAL, steps, c, command, ready);
    if attrs !in sums {
      V.TotalOfAbsent(V.CounterAdds(Run(cfg, INITIAL, steps).points), attrs);
    }
  }
}
