/** Wrapping every command's run function (cobrasdk.go): what the wrappers do to the host's result
    and what they record, and what wrapping a whole tree does to each command. */
module RunWrap {
  import opened Wrappers
  import opened CommandTree

  const PANIC_EXIT_CODE := 2

  // ----- running a command

  datatype PanicValue = Thrown(what: string) | NilContext

  /** How a run function ends: with an error or none, with a panic, or by ending the process or the
      goroutine from inside. */
  datatype Outcome = Returns(err: Option<string>) | Panics(value: PanicValue) | Exits

  /** A host function without an error result, and the two functions a command can have after
      wrapping: a host's own, or a closure around another one. */
  datatype RunFn = Host(id: nat)
  datatype RunEFn = HostE(id: nat) | AroundE(inner: RunEFn) | Around(plain: RunFn)

  datatype Classified = Says(category: string, reason: string) | Blows(value: PanicValue)

  /** One execution: what each host function would do, whether the command has a context, and how
      the vendor set things up. */
  datatype World = World(host: nat -> Outcome, hasContext: bool, capturePanics: bool, classify: string -> Classified)

  datatype Recorded = Ran(id: nat) | Completed(code: int) | Raised(category: string, reason: string) | ShutDown

  datatype Effect = Effect(outcome: Outcome, log: seq<Recorded>)

  function Unerring(o: Outcome): Outcome {
    if o.Returns? then Returns(None) else o
  }

  function ExecRun(w: World, f: RunFn): Effect {
    Effect(Unerring(w.host(f.id)), [Ran(f.id)])
  }

  function PanicClassifier(err: string): Classified {
    Says("internal", "panic")
  }

  /** What recordOutcome records, and what it panics with if it does: without a context it gets
      nowhere, and the vendor's classifier runs after the completion is recorded. */
  function OutcomeLog(w: World, classify: string -> Classified, err: Option<string>, code: int): seq<Recorded> {
    if !w.hasContext then []
    else if err.None? then [Completed(code)]
    else match classify(err.value)
         case Says(category, reason) => [Completed(code), Raised(category, reason)]
         case Blows(_) => [Completed(code)]
  }

  function OutcomePanic(w: World, classify: string -> Classified, err: Option<string>): Option<PanicValue> {
    if !w.hasContext then Some(NilContext)
    else if err.Some? && classify(err.value).Blows? then Some(classify(err.value).value)
    else None
  }

  /** What recordPanic records before it raises the panic again. */
  function PanicLog(w: World): seq<Recorded> {
    if w.capturePanics && w.hasContext then [Completed(PANIC_EXIT_CODE), Raised("internal", "panic"), ShutDown] else []
  }

  /** A closure around a function that had effect `e`. */
  function Observed(w: World, e: Effect): Effect {
    match e.outcome
    case Returns(err) =>
      var log := OutcomeLog(w, w.classify, err, if err.Some? then 1 else 0);
      var panic := OutcomePanic(w, w.classify, err);
      if panic.None? then Effect(Returns(err), e.log + log) else Effect(Panics(panic.value), e.log + log + PanicLog(w))
    case Panics(v) => Effect(Panics(v), e.log + PanicLog(w))
    case Exits => e
  }

  function Exec(w: World, f: RunEFn): Effect {
    match f
    case HostE(id) => Effect(w.host(id), [Ran(id)])
    case AroundE(inner) => Observed(w, Exec(w, inner))
    case Around(inner) => Observed(w, ExecRun(w, inner))
  }

  // ----- the closures

  /** What a client was asked to record, in order. */
  class Recorder {
    var log: seq<Recorded>

    constructor ()
      ensures log == []
    {
      log := [];
    }
  }

  method RecordOutcome(w: World, classify: string -> Classified, err: Option<string>, code: int, client: Recorder)
      returns (panic: Option<PanicValue>)
    modifies client
    ensures client.log == old(client.log) + OutcomeLog(w, classify, err, code)
    ensures panic == OutcomePanic(w, classify, err)
  {
    if !w.hasContext {
      return Some(NilContext);
    }
    client.log := client.log + [Completed(code)];
    if err.Some? {
      match classify(err.value) {
        case Says(category, reason) => client.log := client.log + [Raised(category, reason)];
        case Blows(v) => return Some(v);
      }
    }
    return None;
  }

  /** recordPanic, for a command that is panicking: nothing that goes wrong in here matters. */
  method RecordPanic(w: World, client: Recorder)
    modifies client
    ensures client.log == old(client.log) + PanicLog(w)
  {
    if w.capturePanics {
      var failed := RecordOutcome(w, PanicClassifier, Some("command panicked"), PANIC_EXIT_CODE, client);
      if failed.None? {
        client.log := client.log + [ShutDown];
      }
    }
  }

  /** The rest of a closure once the inner function has ended: record, and let a panic through. */
  method Finish(w: World, inner: Outcome, client: Recorder, ghost before: seq<Recorded>, ghost e: Effect)
      returns (o: Outcome)
    requires inner == e.outcome && client.log == before + e.log
    modifies client
    ensures o == Observed(w, e).outcome && client.log == before + Observed(w, e).log
  {
    match inner {
      case Exits => return Exits;
      case Panics(v) =>
        RecordPanic(w, client);
        return Panics(v);
      case Returns(err) =>
        var code := 0;
        if err.Some? {
          code := 1;
        }
        var panic := RecordOutcome(w, w.classify, err, code, client);
        if panic.Some? {
          RecordPanic(w, client);
          return Panics(panic.value);
        }
        return Returns(err);
    }
  }

  /** Calling a run function that wrapping may have put closures around. */
  method Invoke(w: World, f: RunEFn, client: Recorder) returns (o: Outcome)
    modifies client
    ensures o == Exec(w, f).outcome && client.log == old(client.log) + Exec(w, f).log
    decreases f
  {
    ghost var before := client.log;
    match f {
      case HostE(id) =>
        client.log := client.log + [Ran(id)];
        return w.host(id);
      case AroundE(inner) =>
        var end := Invoke(w, inner, client);
        o := Finish(w, end, client, before, Exec(w, inner));
      case Around(inner) =>
        client.log := client.log + [Ran(inner.id)];
        o := Finish(w, Unerring(w.host(inner.id)), client, before, ExecRun(w, inner));
    }
  }

  // ----- wrapping

  /** The two run fields of a command; the framework prefers `runE`. */
  datatype Hooks = Hooks(run: Option<RunFn>, runE: Option<RunEFn>) {
    predicate Runnable() {
      run.Some? || runE.Some?
    }
  }

  function RunCommand(w: World, h: Hooks): Effect
    requires h.Runnable()
  {
    if h.runE.Some? then Exec(w, h.runE.value) else ExecRun(w, h.run.value)
  }

  function Wrapped(h: Hooks): Hooks {
    if h.runE.Some? then h.(runE := Some(AroundE(h.runE.value)))
    else if h.run.Some? then Hooks(None, Some(Around(h.run.value)))
    else h
  }

  function WrappedTimes(n: nat, h: Hooks): Hooks {
    if n == 0 then h else Wrapped(WrappedTimes(n - 1, h))
  }

  class Command {
    var run: Option<RunFn>
    var runE: Option<RunEFn>

    ghost function State(): Hooks
      reads this
    {
      Hooks(run, runE)
    }
  }

  method WrapRunE(cmd: Command)
    modifies cmd
    ensures cmd.State() == Wrapped(old(cmd.State()))
  {
    if cmd.runE.Some? {
      cmd.runE := Some(AroundE(cmd.runE.value));
    } else if cmd.run.Some? {
      cmd.runE := Some(Around(cmd.run.value));
      cmd.run := None;
    }
  }

  /** How often each command is listed in a tree. */
  function Listed(t: Tree<Command>): multiset<Command> {
    multiset{t.data} + ListedUnder(t.subs)
  }

  function ListedUnder(subs: seq<Tree<Command>>): multiset<Command> {
    if subs == [] then multiset{} else ListedUnder(subs[..|subs| - 1]) + Listed(subs[|subs| - 1])
  }

  lemma ListedSnoc(subs: seq<Tree<Command>>, i: nat)
    requires i < |subs|
    ensures ListedUnder(subs[..i + 1]) == ListedUnder(subs[..i]) + Listed(subs[i])
  {
    assert subs[..i + 1][..i] == subs[..i];
  }

  lemma {:induction false} ListedPrefix(subs: seq<Tree<Command>>, i: nat)
    requires i <= |subs|
    ensures ListedUnder(subs[..i]) <= ListedUnder(subs)
    decreases |subs| - i
  {
    if i == |subs| {
      assert subs[..i] == subs;
    } else {
      ListedSnoc(subs, i);
      ListedPrefix(subs, i + 1);
    }
  }

  /** Every command is as it was in `start`, wrapped as often as `n` says. */
  ghost predicate WrappedBy(start: map<Command, Hooks>, n: multiset<Command>)
    reads start.Keys
  {
    forall c {:trigger c.State()} :: c in start ==> c.State() == WrappedTimes(n[c], start[c])
  }

  /** wrapRunTree: whatever wrapping was done before, every command of the tree is now wrapped once
      more for every time the tree lists it, and no other command changes. */
  method WrapRunTree(t: Tree<Command>, ghost start: map<Command, Hooks>, ghost n: multiset<Command>)
    requires forall c :: c in Listed(t) ==> c in start
    requires WrappedBy(start, n)
    modifies start.Keys
    ensures WrappedBy(start, n + Listed(t))
    decreases t
  {
    WrapRunE(t.data);
    ghost var done := n + multiset{t.data};
    for i := 0 to |t.subs|
      invariant done == n + ListedBefore(t, i)
      invariant WrappedBy(start, done)
    {
      SubIsListed(t, i);
      WrapRunTree(t.subs[i], start, done);
      ListedNext(n, t, i);
      done := done + Listed(t.subs[i]);
    }
  }

  /** A command itself and its first `i` subcommands. */
  function ListedBefore(t: Tree<Command>, i: nat): (m: multiset<Command>)
    requires i <= |t.subs|
    ensures i == 0 ==> m == multiset{t.data}
    ensures i == |t.subs| ==> m == Listed(t)
  {
    assert t.subs[..|t.subs|] == t.subs;
    multiset{t.data} + ListedUnder(t.subs[..i])
  }

  lemma ListedNext(n: multiset<Command>, t: Tree<Command>, i: nat)
    requires i < |t.subs|
    ensures n + ListedBefore(t, i + 1) == n + ListedBefore(t, i) + Listed(t.subs[i])
  {
    ListedSnoc(t.subs, i);
  }

  lemma SubIsListed(t: Tree<Command>, i: nat)
    requires i < |t.subs|
    ensures forall c :: c in Listed(t.subs[i]) ==> c in Listed(t)
  {
    ListedSnoc(t.subs, i);
    ListedPrefix(t.subs, i + 1);
  }

  // ----- what wrapping does to a command

  /** The vendor's classifier answers, if it is going to be asked. */
  predicate ClassifierAnswers(w: World, o: Outcome) {
    o.Returns? && o.err.Some? ==> w.classify(o.err.value).Says?
  }

  /** One completion with exit code 0, 1 or 2, and one error exactly when the code is not 0: of the
      vendor's kind for an error, of the SDK's for a panic. */
  predicate RecordedOnce(w: World, o: Outcome, added: seq<Recorded>) {
    match o
    case Returns(None) => added == [Completed(0)]
    case Returns(Some(err)) =>
      var said := w.classify(err);
      said.Says? && added == [Completed(1), Raised(said.category, said.reason)]
    case Panics(_) => added == [Completed(2), Raised("internal", "panic"), ShutDown]
    case Exits => added == []
  }

  /** What one wrapper records for a command that ended like this. */
  function Expected(w: World, o: Outcome): (added: seq<Recorded>)
    requires ClassifierAnswers(w, o)
    ensures RecordedOnce(w, o, added)
  {
    match o
    case Returns(None) => [Completed(0)]
    case Returns(Some(err)) => [Completed(1), Raised(w.classify(err).category, w.classify(err).reason)]
    case Panics(_) => [Completed(PANIC_EXIT_CODE), Raised("internal", "panic"), ShutDown]
    case Exits => []
  }

  lemma WrappedEffect(w: World, h: Hooks)
    requires h.Runnable()
    ensures Wrapped(h).Runnable() && RunCommand(w, Wrapped(h)) == Observed(w, RunCommand(w, h))
  {
  }

  /** A command of the host's, wrapped once: how it ends and everything that is recorded. */
  lemma FreshCommandDoes(w: World, h: Hooks, id: nat)
    requires h.runE == Some(HostE(id)) || (h.runE == None && h.run == Some(Host(id)))
    ensures var o := if h.runE.None? && w.host(id).Returns? then Returns(None) else w.host(id);
            var capture := w.capturePanics && w.hasContext;
            var caught := if capture then [Completed(2), Raised("internal", "panic"), ShutDown] else [];
            RunCommand(w, Wrapped(h)) ==
              match o
              case Exits => Effect(Exits, [Ran(id)])
              case Panics(v) => Effect(Panics(v), [Ran(id)] + caught)
              case Returns(err) =>
                if !w.hasContext then Effect(Panics(NilContext), [Ran(id)])
                else if err.None? then Effect(Returns(None), [Ran(id), Completed(0)])
                else
                  match w.classify(err.value)
                  case Says(category, reason) =>
                    Effect(Returns(err), [Ran(id), Completed(1), Raised(category, reason)])
                  case Blows(v) => Effect(Panics(v), [Ran(id), Completed(1)] + caught)
  {
    WrappedEffect(w, h);
  }

  /** A wrapped command ends as it would have without the wrapper exactly when a command that
      returns has a context and its error, if any, does not make the vendor's classifier panic.
      Panics and exits always come through unchanged. */
  lemma ResultIsKeptExactlyWhen(w: World, h: Hooks)
    requires h.Runnable()
    ensures var before, after := RunCommand(w, h), RunCommand(w, Wrapped(h));
            after.outcome == before.outcome <==> before.outcome.Returns? ==>
                  w.hasContext && ClassifierAnswers(w, before.outcome)
  {
    WrappedEffect(w, h);
  }

  /** Everything the command itself did comes first; what the wrapper adds is one completion and,
      for a failure, one error, exactly when there is a context, the classifier answers, and panics
      are captured if the command panics. */
  lemma RecordedOnceExactlyWhen(w: World, h: Hooks)
    requires h.Runnable()
    ensures var before, after := RunCommand(w, h), RunCommand(w, Wrapped(h));
            && before.log <= after.log
            && (RecordedOnce(w, before.outcome, after.log[|before.log|..]) <==>
                  before.outcome.Exits?
                      || (w.hasContext && ClassifierAnswers(w, before.outcome)
                          && (before.outcome.Panics? ==> w.capturePanics)))
  {
    WrappedEffect(w, h);
    var before, after := RunCommand(w, h), RunCommand(w, Wrapped(h));
    match before.outcome
    case Exits =>
    case Panics(_) => assert after.log[|before.log|..] == PanicLog(w);
    case Returns(err) =>
      var log := OutcomeLog(w, w.classify, err, if err.Some? then 1 else 0);
      var rest := if OutcomePanic(w, w.classify, err).None? then [] else PanicLog(w);
      assert after.log == before.log + (log + rest);
      assert after.log[|before.log|..] == log + rest;
  }

  lemma WrapperAddsTheExpected(w: World, h: Hooks)
    requires h.Runnable() && w.hasContext && w.capturePanics && ClassifierAnswers(w, RunCommand(w, h).outcome)
    ensures RunCommand(w, Wrapped(h)).outcome == RunCommand(w, h).outcome
    ensures RunCommand(w, Wrapped(h)).log == RunCommand(w, h).log + Expected(w, RunCommand(w, h).outcome)
  {
    WrappedEffect(w, h);
  }

  function Repeat<T>(n: nat, s: seq<T>): seq<T> {
    if n == 0 then [] else Repeat(n - 1, s) + s
  }

  /** Wrapped as often as it is listed, a command still ends as before, and the wrappers record
      once each. */
  lemma {:induction false} WrappedTimesRecords(w: World, h: Hooks, n: nat)
    requires h.Runnable() && w.hasContext && w.capturePanics && ClassifierAnswers(w, RunCommand(w, h).outcome)
    ensures WrappedTimes(n, h).Runnable()
    ensures RunCommand(w, WrappedTimes(n, h)).outcome == RunCommand(w, h).outcome
    ensures RunCommand(w, WrappedTimes(n, h)).log
              == RunCommand(w, h).log + Repeat(n, Expected(w, RunCommand(w, h).outcome))
  {
    if n == 0 {
      assert RunCommand(w, h).log + [] == RunCommand(w, h).log;
    } else {
      WrappedTimesRecords(w, h, n - 1);
      WrapperAddsTheExpected(w, WrappedTimes(n - 1, h));
    }
  }

  function Completions(log: seq<Recorded>): nat {
    if log == [] then 0 else (if log[0].Completed? then 1 else 0) + Completions(log[1..])
  }

  lemma {:induction false} CompletionsConcat(a: seq<Recorded>, b: seq<Recorded>)
    ensures Completions(a + b) == Completions(a) + Completions(b)
  {
    if a == [] {
      assert a + b == b;
    } else {
      assert (a + b)[1..] == a[1..] + b;
      CompletionsConcat(a[1..], b);
    }
  }

  lemma {:induction false} CompletionsRepeat(n: nat, s: seq<Recorded>)
    requires Completions(s) == 1
    ensures Completions(Repeat(n, s)) == n
  {
    if n != 0 {
      CompletionsConcat(Repeat(n - 1, s), s);
      CompletionsRepeat(n - 1, s);
    }
  }

  /** The wrappers can do their work: there is a context, panics are captured, and the vendor's
      classifier answers. */
  predicate Cooperative(w: World, o: Outcome) {
    w.hasContext && w.capturePanics && ClassifierAnswers(w, o)
  }

  /** `after` runs as `before` did and asks for `n` completions more, unless the command exits from
      inside, in which case nobody gets to ask. */
  ghost predicate AddsCompletions(before: Hooks, after: Hooks, n: nat) {
    before.Runnable() ==>
      && after.Runnable()
      && forall w {:trigger RunCommand(w, after)} :: Cooperative(w, RunCommand(w, before).outcome) ==>
           && RunCommand(w, after).outcome == RunCommand(w, before).outcome
           && Completions(RunCommand(w, after).log) ==
                Completions(RunCommand(w, before).log) + if RunCommand(w, before).outcome.Exits? then 0 else n
  }

  /** Wrapped n times, a command asks for n completions more. */
  lemma RecordedOncePerWrapping(h: Hooks, n: nat)
    ensures AddsCompletions(h, WrappedTimes(n, h), n)
  {
    if h.Runnable() {
      StaysRunnable(h, n);
      forall w | Cooperative(w, RunCommand(w, h).outcome)
        ensures RunCommand(w, WrappedTimes(n, h)).outcome == RunCommand(w, h).outcome
        ensures Completions(RunCommand(w, WrappedTimes(n, h)).log) ==
                  Completions(RunCommand(w, h).log) + if RunCommand(w, h).outcome.Exits? then 0 else n
      {
        WrappedTimesRecords(w, h, n);
        RepeatedCompletions(w, RunCommand(w, h).outcome, n);
        CompletionsConcat(RunCommand(w, h).log, Repeat(n, Expected(w, RunCommand(w, h).outcome)));
      }
    }
  }

  lemma {:induction false} StaysRunnable(h: Hooks, n: nat)
    requires h.Runnable()
    ensures WrappedTimes(n, h).Runnable()
  {
    if n != 0 {
      StaysRunnable(h, n - 1);
    }
  }

  lemma RepeatedCompletions(w: World, o: Outcome, n: nat)
    requires ClassifierAnswers(w, o)
    ensures Completions(Repeat(n, Expected(w, o))) == if o.Exits? then 0 else n
  {
    if o.Exits? {
      RepeatNothing<Recorded>(n);
    } else {
      ExpectedCompletesOnce(w, o);
      CompletionsRepeat(n, Expected(w, o));
    }
  }

  lemma {:induction false} RepeatNothing<T>(n: nat)
    ensures Repeat<T>(n, []) == []
  {
    if n != 0 {
      RepeatNothing<T>(n - 1);
    }
  }

  lemma ExpectedCompletesOnce(w: World, o: Outcome)
    requires !o.Exits? && ClassifierAnswers(w, o)
    ensures Completions(Expected(w, o)) == 1
  {
    match o
    case Returns(None) => CompletionsOfOne(Completed(0));
    case Returns(Some(_)) =>
      var added := Expected(w, o);
      CompletionsOfOne(added[0]);
      CompletionsOfOne(added[1]);
      CompletionsConcat([added[0]], [added[1]]);
      assert added == [added[0]] + [added[1]];
    case Panics(_) =>
      var a, b, c := Completed(PANIC_EXIT_CODE), Raised("internal", "panic"), ShutDown;
      CompletionsOfOne(a);
      CompletionsOfOne(b);
      CompletionsOfOne(c);
      CompletionsConcat([b], [c]);
      CompletionsConcat([a], [b] + [c]);
      assert Expected(w, o) == [a] + ([b] + [c]);
  }

  lemma CompletionsOfOne(r: Recorded)
    ensures Completions([r]) == if r.Completed? then 1 else 0
  {
    assert [r][1..] == [];
  }

  /** Commands with nothing to run are left alone, however often they are listed. */
  lemma {:induction false} NothingToWrap(n: nat, h: Hooks)
    ensures !h.Runnable() ==> WrappedTimes(n, h) == h
    ensures h.runE.Some? ==> WrappedTimes(n, h).run == h.run
    ensures h.Runnable() && h.runE.None? && n > 0 ==> WrappedTimes(n, h).run.None? && WrappedTimes(n, h).runE.Some?
  {
    if n != 0 {
      NothingToWrap(n - 1, h);
    }
  }

  // ----- the whole tree

  /** What InstrumentCobra does with a tree; `all` is any set of commands that has those of the tree.
      Every command ends as before, and the client is asked to record it once for every time the tree
      lists it. */
  method Instrument(t: Tree<Command>, ghost all: set<Command>)
    requires forall c :: c in Listed(t) ==> c in all
    modifies all
    ensures forall c {:trigger c.State()} :: c in all ==> c.State() == WrappedTimes(Listed(t)[c], old(c.State()))
    ensures forall c {:trigger c.State()} :: c in all ==> AddsCompletions(old(c.State()), c.State(), Listed(t)[c])
  {
    ghost var start := map c | c in all :: c.State();
    WrapRunTree(t, start, multiset{});
    forall c | c in all
      ensures AddsCompletions(start[c], c.State(), Listed(t)[c])
    {
      RecordedOncePerWrapping(start[c], Listed(t)[c]);
    }
  }
}
