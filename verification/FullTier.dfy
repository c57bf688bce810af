/** TierFull sends nothing that TierBasic does not: on any schedule the two runs differ only in the
    value of the tier attribute. */
module FullTier {
  import opened Wrappers
  import opened Signals
  import opened TaxonomySpec
  import CommandNames
  import V = VendorMetrics

  // ----- records without the tier

  function Bare(r: Record): Record {
    r.(attrs := r.attrs - {TierKey})
  }

  function BareRecords(records: seq<Record>): seq<Record> {
    seq(|records|, i requires 0 <= i < |records| => Bare(records[i]))
  }

  function BareBatches(batches: seq<Batch>): seq<Batch> {
    seq(|batches|, i requires 0 <= i < |batches| => Batch(BareRecords(batches[i].records), batches[i].loads))
  }

  /** A state with the tier attribute erased from everything emitted and everything queued. */
  function BareState(s: State): State {
    s.(pending := BareBatches(s.pending), sink := BareRecords(s.sink), points := BareRecords(s.points))
  }

  lemma BareConcat(a: seq<Record>, b: seq<Record>)
    ensures BareRecords(a + b) == BareRecords(a) + BareRecords(b)
  {
  }

  // ----- descriptions that differ in the tier alone

  ghost predicate SameButTier(f1: Fields, f2: Fields) {
    forall k: Key {:trigger k in f1} {:trigger k in f2} :: k != TierKey ==>
          (k in f1 <==> k in f2) && (k in f1 ==> f1[k] == f2[k])
  }

  predicate SameClient(basic: Config, full: Config) {
    basic.tier == Basic && full == basic.(tier := Full)
  }

  lemma TierOnly(basic: Config, full: Config, f: Fields)
    ensures SameButTier(f + TierField(basic), f + TierField(full))
    ensures SameButTier(TierField(basic) + f, TierField(full) + f)
  {
  }

  lemma BareVisible(f1: Fields, f2: Fields)
    requires SameButTier(f1, f2)
    ensures Visible(Basic, f1) - {TierKey} == Visible(Full, f2) - {TierKey}
  {
    var a, b := Visible(Basic, f1) - {TierKey}, Visible(Full, f2) - {TierKey};
    forall k: Key
      ensures k in a <==> k in b
      ensures k in a ==> a[k] == b[k]
    {
      assert k.MinTier() != Full;
    }
    assert a == b;
  }

  lemma {:induction false} BareEmitted(d1: seq<Declared>, d2: seq<Declared>)
    requires |d1| == |d2|
    requires forall i :: 0 <= i < |d1| ==>
               d1[i].required == d2[i].required != Full && d1[i].signal == d2[i].signal
                   && SameButTier(d1[i].fields, d2[i].fields)
    ensures BareRecords(Emitted(Basic, d1)) == BareRecords(Emitted(Full, d2))
  {
    if d1 != [] {
      BareVisible(d1[0].fields, d2[0].fields);
      BareEmitted(d1[1..], d2[1..]);
      var h1 := if Basic.Allows(d1[0].required) then [Record(d1[0].signal, Visible(Basic, d1[0].fields))] else [];
      var h2 := if Full.Allows(d2[0].required) then [Record(d2[0].signal, Visible(Full, d2[0].fields))] else [];
      assert BareRecords(h1) == BareRecords(h2);
      BareConcat(h1, Emitted(Basic, d1[1..]));
      BareConcat(h2, Emitted(Full, d2[1..]));
    }
  }

  lemma DeclaresBare(basic: Config, full: Config, s1: State, s2: State, c: Call)
    requires SameClient(basic, full) && !c.Vendor? && !c.SetKnown?
    requires s1.session == s2.session && s1.command == s2.command && s1.known == s2.known
    ensures BareRecords(Emitted(Basic, Declares(basic, s1, c))) == BareRecords(Emitted(Full, Declares(full, s2, c)))
  {
    var ids := IdentityFields(basic, s1);
    assert ids == IdentityFields(full, s2);
    match c {
      case SessionStart(f) =>
        TierOnly(basic, full,
                 ids + map[InstallMethod := NonEmpty(basic.installMethod)] + MeasuredFields(f) + EnvironmentFields(f)
                       + VendorFields(f));
      case Invocation(path, flags) =>
        TierOnly(basic, full, InvocationFields(basic.Named(path), flags) + ids);
      case CommandDone(path, flags, exitCode, duration, peakRss, cpuTime) =>
        CommandBare(basic, full, CompletedFields(basic.Named(path), exitCode, duration),
                    OutcomeFields(basic.Named(path), exitCode), UsageFields(flags, peakRss, cpuTime), ids);
      case FeatureUsed(feature) =>
        TierOnly(basic, full, FeatureFields(feature, s1.command) + ids);
      case Unknown(suggestion) =>
        TierOnly(basic, full,
                 map[Suggestion := NonEmpty(CommandNames.KnownCommand(basic.cliName, s1.known, suggestion))]);
      case Help(path) =>
        TierOnly(basic, full, map[CommandName := Plain(basic.Named(path)), HelpFlag := Plain("help")]);
      case Failed(path, category, reason) =>
        TierOnly(basic, full, ErrorFields(basic.Named(path), category, reason));
        TierOnly(basic, full, ErrorFields(basic.Named(path), category, reason) + ids);
      case FailedInDetail(path, message, stack) =>
        TierOnly(basic, full, DetailFields(basic.Named(path), message, stack));
      case _ =>
    }
    BareEmitted(Declares(basic, s1, c), Declares(full, s2, c));
  }

  lemma CommandBare(basic: Config, full: Config, done: Fields, outcome: Fields, usage: Fields, ids: Fields)
    ensures SameButTier(TierField(basic) + done + usage, TierField(full) + done + usage)
    ensures SameButTier(TierField(basic) + outcome, TierField(full) + outcome)
    ensures SameButTier(done + ids + TierField(basic), done + ids + TierField(full))
  {
    TierOnly(basic, full, done + usage);
    TierOnly(basic, full, outcome);
    TierOnly(basic, full, done + ids);
    assert TierField(basic) + done + usage == TierField(basic) + (done + usage);
    assert TierField(full) + done + usage == TierField(full) + (done + usage);
  }

  // ----- steps

  lemma BareEnqueue(basic: Config, full: Config, s1: State, s2: State, b1: Batch, b2: Batch)
    requires SameClient(basic, full) && BareState(s1) == BareState(s2)
    requires BareRecords(b1.records) == BareRecords(b2.records) && b1.loads == b2.loads
    ensures BareState(Enqueue(basic, s1, b1)) == BareState(Enqueue(full, s2, b2))
  {
    assert |BareBatches(s1.pending)| == |s1.pending| && |BareBatches(s2.pending)| == |s2.pending|;
    assert BareBatches(s1.pending + [b1]) == BareBatches(s1.pending) + [Batch(BareRecords(b1.records), b1.loads)];
    assert BareBatches(s2.pending + [b2]) == BareBatches(s2.pending) + [Batch(BareRecords(b2.records), b2.loads)];
  }

  lemma BareQueued(basic: Config, full: Config, s1: State, s2: State, c: Call, drawn: string)
    requires SameClient(basic, full) && BareState(s1) == BareState(s2) && !c.Vendor? && !c.SetKnown?
    ensures BareState(PerformQueued(basic, s1, c, drawn)) == BareState(PerformQueued(full, s2, c, drawn))
  {
    var m1, m2 := Marked(basic, s1, c, drawn), Marked(full, s2, c, drawn);
    BareMarked(basic, full, s1, s2, c, drawn);
    DeclaresBare(basic, full, m1, m2, c);
    var r1, r2 := Emitted(Basic, Declares(basic, m1, c)), Emitted(Full, Declares(full, m2, c));
    assert |BareRecords(r1)| == |r1| && |BareRecords(r2)| == |r2|;
    var loads := CarriesIdentity(c);
    BareEnqueue(basic, full, m1, m2, Batch(r1, loads), Batch(r2, loads));
    BareDrop(m1, m2);
  }

  lemma BareMarked(basic: Config, full: Config, s1: State, s2: State, c: Call, drawn: string)
    requires SameClient(basic, full) && BareState(s1) == BareState(s2)
    ensures BareState(Marked(basic, s1, c, drawn)) == BareState(Marked(full, s2, c, drawn))
    ensures Ignored(basic, s1, c) <==> Ignored(full, s2, c)
  {
    var t1, t2 := BareState(s1), BareState(s2);
    assert t1.session == s1.session && t2.session == s2.session && t1.activated == s1.activated
        && t2.activated == s2.activated;
  }

  lemma BareDrop(m1: State, m2: State)
    requires BareState(m1) == BareState(m2)
    ensures BareState(m1.(belowTier := m1.belowTier + 1)) == BareState(m2.(belowTier := m2.belowTier + 1))
  {
  }

  lemma BarePointAt(id: V.Identity, command: Option<string>, ready: Option<string>, k: Key)
    requires id.Proper() && k != TierKey
    ensures var a, b := V.PointAttrs(id, Basic, command, ready), V.PointAttrs(id, Full, command, ready);
            (k in a <==> k in b) && (k in a ==> a[k] == b[k])
  {
    V.PointAttr(id, Basic, command, ready, k);
    V.PointAttr(id, Full, command, ready, k);
    FullAllowsNoMore(k);
  }

  lemma FullAllowsNoMore(k: Key)
    ensures Full.Allows(k.MinTier()) <==> Basic.Allows(k.MinTier())
  {
  }

  lemma SameWithoutTier(a: Attrs, b: Attrs)
    requires forall k: Key :: k != TierKey ==> (k in a <==> k in b) && (k in a ==> a[k] == b[k])
    ensures a - {TierKey} == b - {TierKey}
  {
  }

  lemma BarePointAttrs(id: V.Identity, command: Option<string>, ready: Option<string>)
    requires id.Proper()
    ensures V.PointAttrs(id, Basic, command, ready) - {TierKey} == V.PointAttrs(id, Full, command, ready) - {TierKey}
  {
    var a, b := V.PointAttrs(id, Basic, command, ready), V.PointAttrs(id, Full, command, ready);
    forall k: Key | k != TierKey
      ensures (k in a <==> k in b) && (k in a ==> a[k] == b[k])
    {
      BarePointAt(id, command, ready, k);
    }
    SameWithoutTier(a, b);
  }

  lemma BarePoint(basic: Config, full: Config, s1: State, s2: State, m: V.Call)
    requires SameClient(basic, full) && s1.command == s2.command && s1.ready == s2.ready && V.Accepted(m)
    ensures Bare(PointRecord(basic, s1, m)) == Bare(PointRecord(full, s2, m))
  {
    BarePointAttrs(V.IdentityOf(m), s1.command, s1.ready);
  }

  lemma BareAsk(basic: Config, full: Config, s1: State, s2: State)
    requires SameClient(basic, full) && BareState(s1) == BareState(s2)
    ensures BareState(AskForInstall(basic, s1)) == BareState(AskForInstall(full, s2))
  {
    BareEnqueue(basic, full, s1.(asking := true), s2.(asking := true), Batch([], true), Batch([], true));
  }

  lemma BareAddPoint(s1: State, s2: State, p1: Record, p2: Record)
    requires BareState(s1) == BareState(s2) && Bare(p1) == Bare(p2)
    ensures BareState(s1.(points := s1.points + [p1])) == BareState(s2.(points := s2.points + [p2]))
  {
    BareConcat(s1.points, [p1]);
    BareConcat(s2.points, [p2]);
  }

  lemma BareVendor(basic: Config, full: Config, s1: State, s2: State, m: V.Call)
    requires SameClient(basic, full) && BareState(s1) == BareState(s2)
    ensures BareState(PerformVendor(basic, s1, m)) == BareState(PerformVendor(full, s2, m))
  {
    BareAsk(basic, full, s1, s2);
    if V.Accepted(m) {
      assert BareState(s1).command == s1.command && BareState(s1).ready == s1.ready
          && BareState(s2).command == s2.command && BareState(s2).ready == s2.ready;
      BarePoint(basic, full, s1, s2, m);
      BareAddPoint(AskForInstall(basic, s1), AskForInstall(full, s2), PointRecord(basic, s1, m),
                   PointRecord(full, s2, m));
    }
  }

  lemma BareRunNext(basic: Config, full: Config, s1: State, s2: State)
    requires SameClient(basic, full) && BareState(s1) == BareState(s2)
    ensures BareState(RunNext(basic, s1)) == BareState(RunNext(full, s2))
  {
    var t1, t2 := BareBatches(s1.pending), BareBatches(s2.pending);
    assert |t1| == |s1.pending| && |t2| == |s2.pending|;
    if s1.pending != [] {
      assert t1[0] == t2[0];
      assert BareBatches(s1.pending[1..]) == t1[1..] && BareBatches(s2.pending[1..]) == t2[1..];
      BareConcat(s1.sink, s1.pending[0].records);
      BareConcat(s2.sink, s2.pending[0].records);
    }
  }

  lemma BareStep(basic: Config, full: Config, s1: State, s2: State, step: Step)
    requires SameClient(basic, full) && BareState(s1) == BareState(s2)
    ensures BareState(Next(basic, s1, step)) == BareState(Next(full, s2, step))
  {
    match step
    case Work => BareRunNext(basic, full, s1, s2);
    case Close =>
    case Do(c, drawn) =>
      assert s1.closed == BareState(s1).closed == BareState(s2).closed == s2.closed;
      BareMarked(basic, full, s1, s2, c, drawn);
      if !s1.closed && !Ignored(basic, s1, c) {
        if c.Vendor? {
          BareVendor(basic, full, s1, s2, c.metric);
        } else if !c.SetKnown? {
          BareQueued(basic, full, s1, s2, c, drawn);
        }
      }
  }

  /** On one schedule, overflow included, a TierFull client and a TierBasic client emit, queue and
      drop the same, record by record, once the tier attribute is erased. */
  lemma {:induction false} FullIsBasicBarTheTier(basic: Config, full: Config, s1: State, s2: State, steps: seq<Step>)
    requires SameClient(basic, full) && BareState(s1) == BareState(s2)
    ensures BareState(Run(basic, s1, steps)) == BareState(Run(full, s2, steps))
    decreases |steps|
  {
    if steps != [] {
      BareStep(basic, full, s1, s2, steps[0]);
      FullIsBasicBarTheTier(basic, full, Next(basic, s1, steps[0]), Next(full, s2, steps[0]), steps[1..]);
    }
  }
}
