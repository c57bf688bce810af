/** What is reported once: the session start and each activated feature. The mark is left before the
    record is queued, so a full queue decides for good whether it is ever sent. */
module FirstReports {
  import opened Wrappers
  import opened Signals
  import opened TaxonomySpec
  import T = TierOrder
  import Utf8

  datatype Subject = Session | OfFeature(name: string)

  /** A call to report this. */
  predicate Concerns(c: Call, subject: Subject) {
    match subject
    case Session => c.SessionStart?
    case OfFeature(f) => c.FeatureUsed? && Utf8.Truncated(c.feature, MAX_FEATURE_LENGTH) == f
  }

  /** It was reported, or tried to be. */
  predicate HasMark(s: State, subject: Subject) {
    match subject
    case Session => s.sessionOn
    case OfFeature(f) => f in s.activated
  }

  /** The tier and the vocabulary let it be reported at all. */
  predicate Reportable(cfg: Config, subject: Subject) {
    subject.OfFeature? ==> cfg.Basic() && subject.name != ""
  }

  predicate IsReport(r: Record, subject: Subject) {
    match subject
    case Session => r.signal == Event(SessionStarted)
    case OfFeature(f) => r.signal == Event(FeatureActivated) && Feature in r.attrs && r.attrs[Feature] == Text(f)
  }

  predicate Among(records: seq<Record>, subject: Subject) {
    exists i :: 0 <= i < |records| && IsReport(records[i], subject)
  }

  /** It has been emitted, or is going to be by a queued job. */
  predicate Reported(s: State, subject: Subject) {
    Among(T.Stream(s), subject)
  }

  /** The first call to report it, on an open client with room in the queue. */
  predicate Accepts(cfg: Config, s: State, step: Step, subject: Subject) {
    && step.Do? && Concerns(step.call, subject) && Reportable(cfg, subject)
    && !s.closed && !HasMark(s, subject) && |s.pending| < cfg.queueSize
  }

  predicate AcceptsWithin(cfg: Config, s: State, steps: seq<Step>, subject: Subject)
    decreases |steps|
  {
    && steps != []
    && (Accepts(cfg, s, steps[0], subject) || AcceptsWithin(cfg, Next(cfg, s, steps[0]), steps[1..], subject))
  }

  // ----- what a call emits

  lemma AmongConcat(a: seq<Record>, b: seq<Record>, subject: Subject)
    ensures Among(a + b, subject) <==> Among(a, subject) || Among(b, subject)
  {
    if i :| 0 <= i < |a| && IsReport(a[i], subject) {
      assert (a + b)[i] == a[i];
    }
    if i :| 0 <= i < |b| && IsReport(b[i], subject) {
      assert (a + b)[|a| + i] == b[i];
    }
  }

  lemma AmongOne(r: Record, subject: Subject)
    ensures Among([r], subject) <==> IsReport(r, subject)
  {
    assert [r][0] == r;
  }

  lemma {:induction false} EmittedSignals(tier: Tier, declared: seq<Declared>, subject: Subject)
    requires forall i :: 0 <= i < |declared| ==>
               declared[i].signal != Event(SessionStarted) && declared[i].signal != Event(FeatureActivated)
    ensures !Among(Emitted(tier, declared), subject)
  {
    if declared != [] {
      EmittedSignals(tier, declared[1..], subject);
      var first := if tier.Allows(declared[0].required)
                   then [Record(declared[0].signal, Visible(tier, declared[0].fields))]
                   else [];
      AmongConcat(first, Emitted(tier, declared[1..]), subject);
    }
  }

  lemma SessionEmits(cfg: Config, s: State, c: Call, subject: Subject)
    requires c.SessionStart?
    ensures Among(Emitted(cfg.tier, Declares(cfg, s, c)), subject) <==> subject.Session?
  {
    var d := Declares(cfg, s, c)[0];
    EmittedOne(cfg.tier, d);
    AmongOne(Record(d.signal, Visible(cfg.tier, d.fields)), subject);
  }

  lemma FeatureShows(cfg: Config, s: State, feature: string)
    requires cfg.Basic()
    ensures var attrs := Visible(cfg.tier, FeatureFields(feature, s.command) + IdentityFields(cfg, s) + TierField(cfg));
            Feature in attrs && attrs[Feature] == Text(Utf8.Truncated(feature, MAX_FEATURE_LENGTH))
  {
  }

  lemma FeatureEmits(cfg: Config, s: State, c: Call, subject: Subject)
    requires c.FeatureUsed?
    ensures Among(Emitted(cfg.tier, Declares(cfg, s, c)), subject) <==>
              cfg.Basic() && subject == OfFeature(Utf8.Truncated(c.feature, MAX_FEATURE_LENGTH))
  {
    var d := Declares(cfg, s, c)[0];
    EmittedOne(cfg.tier, d);
    if cfg.Basic() {
      FeatureShows(cfg, s, c.feature);
      AmongOne(Record(d.signal, Visible(cfg.tier, d.fields)), subject);
    }
  }

  lemma CallEmits(cfg: Config, s: State, c: Call, subject: Subject)
    requires !c.Vendor? && !c.SetKnown?
    ensures Among(Emitted(cfg.tier, Declares(cfg, s, c)), subject) <==>
              Concerns(c, subject) && (c.FeatureUsed? ==> cfg.Basic())
  {
    if c.SessionStart? {
      SessionEmits(cfg, s, c, subject);
    } else if c.FeatureUsed? {
      FeatureEmits(cfg, s, c, subject);
    } else {
      EmittedSignals(cfg.tier, Declares(cfg, s, c), subject);
    }
  }

  // ----- one step

  lemma EnqueueReports(cfg: Config, s: State, b: Batch, subject: Subject)
    ensures Reported(Enqueue(cfg, s, b), subject) <==>
              Reported(s, subject) || (|s.pending| < cfg.queueSize && Among(b.records, subject))
  {
    if |s.pending| < cfg.queueSize {
      T.EnqueueExtendsStream(cfg, s, b);
      AmongConcat(T.Stream(s), b.records, subject);
    }
  }

  lemma QueuedReports(cfg: Config, s: State, c: Call, drawn: string, subject: Subject)
    requires !s.closed && !c.Vendor? && !c.SetKnown? && !Ignored(cfg, s, c)
    ensures Reported(PerformQueued(cfg, s, c, drawn), subject) <==>
              Reported(s, subject) || Accepts(cfg, s, Do(c, drawn), subject)
  {
    var marked := Marked(cfg, s, c, drawn);
    var records := Emitted(cfg.tier, Declares(cfg, marked, c));
    assert T.Stream(marked) == T.Stream(s);
    CallEmits(cfg, marked, c, subject);
    if records != [] {
      EnqueueReports(cfg, marked, Batch(records, cfg.Basic() && CarriesIdentity(c)), subject);
    }
  }

  lemma VendorReports(cfg: Config, s: State, c: Call, subject: Subject)
    requires c.Vendor?
    ensures Reported(PerformVendor(cfg, s, c.metric), subject) <==> Reported(s, subject)
  {
    var asking := s.(asking := true);
    assert T.Stream(asking) == T.Stream(s);
    EnqueueReports(cfg, asking, Batch([], true), subject);
    SameStream(cfg, s, c);
  }

  lemma SameStream(cfg: Config, s: State, c: Call)
    requires c.Vendor?
    ensures T.Stream(PerformVendor(cfg, s, c.metric)) == T.Stream(s)
         || T.Stream(PerformVendor(cfg, s, c.metric)) == T.Stream(Enqueue(cfg, s.(asking := true), Batch([], true)))
  {
  }

  lemma StepReports(cfg: Config, s: State, step: Step, subject: Subject)
    ensures Reported(Next(cfg, s, step), subject) <==> Reported(s, subject) || Accepts(cfg, s, step, subject)
  {
    match step
    case Work => T.WorkKeepsStream(cfg, s);
    case Close =>
    case Do(c, drawn) =>
      if !s.closed && !Ignored(cfg, s, c) {
        if c.Vendor? {
          VendorReports(cfg, s, c, subject);
        } else if !c.SetKnown? {
          QueuedReports(cfg, s, c, drawn, subject);
        }
      }
  }

  // ----- whole runs

  /** In every run, the session start or a feature gets reported exactly if it was at the start or
      the first call to report it found room in the queue of an open client. */
  lemma {:induction false} ReportedExactlyWhen(cfg: Config, s: State, steps: seq<Step>, subject: Subject)
    ensures Reported(Run(cfg, s, steps), subject) <==> Reported(s, subject) || AcceptsWithin(cfg, s, steps, subject)
    decreases |steps|
  {
    if steps != [] {
      StepReports(cfg, s, steps[0], subject);
      ReportedExactlyWhen(cfg, Next(cfg, s, steps[0]), steps[1..], subject);
    }
  }

  lemma SubmitKeepsMarks(cfg: Config, s: State, records: seq<Record>, loads: bool, subject: Subject)
    ensures HasMark(Submit(cfg, s, records, loads), subject) <==> HasMark(s, subject)
  {
  }

  lemma MarkStays(cfg: Config, s: State, step: Step, subject: Subject)
    requires HasMark(s, subject)
    ensures HasMark(Next(cfg, s, step), subject)
  {
    if step.Do? && !step.call.Vendor? && !step.call.SetKnown? {
      var marked := Marked(cfg, s, step.call, step.drawn);
      SubmitKeepsMarks(cfg, marked, Emitted(cfg.tier, Declares(cfg, marked, step.call)),
                       cfg.Basic() && CarriesIdentity(step.call), subject);
    }
  }

  /** Nothing is reported after its mark has been left. */
  lemma {:induction false} NoSecondChance(cfg: Config, s: State, steps: seq<Step>, subject: Subject)
    requires HasMark(s, subject)
    ensures !AcceptsWithin(cfg, s, steps, subject)
    decreases |steps|
  {
    if steps != [] {
      MarkStays(cfg, s, steps[0], subject);
      NoSecondChance(cfg, Next(cfg, s, steps[0]), steps[1..], subject);
    }
  }

  lemma FirstCallMarks(cfg: Config, s: State, c: Call, drawn: string, subject: Subject)
    requires Concerns(c, subject) && Reportable(cfg, subject) && !s.closed && !HasMark(s, subject)
    ensures HasMark(Perform(cfg, s, c, drawn), subject)
  {
    var marked := Marked(cfg, s, c, drawn);
    SubmitKeepsMarks(cfg, marked, Emitted(cfg.tier, Declares(cfg, marked, c)), cfg.Basic() && CarriesIdentity(c),
                     subject);
  }

  /** The first call decides, whatever follows, repeated calls and a queue that empties included: it
      is reported exactly if the queue had room at that moment. */
  lemma FirstCallDecides(cfg: Config, s: State, c: Call, drawn: string, steps: seq<Step>, subject: Subject)
    requires Concerns(c, subject) && Reportable(cfg, subject)
    requires !s.closed && !HasMark(s, subject) && !Reported(s, subject)
    ensures var n := Run(cfg, Perform(cfg, s, c, drawn), steps);
            && (Reported(n, subject) <==> |s.pending| < cfg.queueSize)
            && (n.pending == [] ==> (Among(n.sink, subject) <==> |s.pending| < cfg.queueSize))
  {
    var first := Perform(cfg, s, c, drawn);
    StepReports(cfg, s, Do(c, drawn), subject);
    FirstCallMarks(cfg, s, c, drawn, subject);
    NoSecondChance(cfg, first, steps, subject);
    ReportedExactlyWhen(cfg, first, steps, subject);
    var n := Run(cfg, first, steps);
    if n.pending == [] {
      assert T.Stream(n) == n.sink + [] == n.sink;
    }
  }
}
