/** recordUnknown (cobrasdk.go) from the typed text to the record that is sent. */
module UnknownCommands {
  import opened Wrappers
  import opened Signals
  import opened TaxonomySpec
  import opened CommandTree
  import opened Suggestions
  import opened ClientCode
  import CommandNames

  function NameOf(c: CommandInfo): string {
    c.name
  }

  /** Every command path of the CLI; the root's own path is its name. */
  function AllPaths(root: Tree<CommandInfo>): seq<string> {
    PathsOf(NameOf, root, root.data.name)
  }

  function PathOf(root: Tree<CommandInfo>, at: Address): string
    requires In(root, at)
  {
    PathAt(NameOf, root, root.data.name, at)
  }

  /** The path passed on as the suggestion, for a command typed under the one at `at`. */
  ghost predicate IsSuggestion(u: TextFunctions, root: Tree<CommandInfo>, at: Address, typed: string,
                               suggestion: string)
    requires In(root, at)
  {
    exists best :: Suggests(u, At(root, at), typed, best) && suggestion == SuggestionPath(root, at, best)
  }

  function SuggestionPath(root: Tree<CommandInfo>, at: Address, best: Option<nat>): string
    requires In(root, at)
  {
    if best.Some? && best.value < |At(root, at).subs|
    then PathOf(root, at) + " " + At(root, at).subs[best.value].data.name
    else ""
  }

  /** The state after the three calls recordUnknown makes. */
  function AfterAttempt(cfg: Config, s: State, paths: seq<string>, facts: SessionFacts, drawn: string,
                        suggestion: string): State {
    Perform(cfg, Perform(cfg, Perform(cfg, s, SetKnown(paths), ""), SessionStart(facts), drawn), Unknown(suggestion),
            "")
  }

  method RecordUnknown(client: Client, u: TextFunctions, root: Tree<CommandInfo>, at: Address, typed: string,
                       facts: SessionFacts, drawn: string)
      returns (suggestion: string)
    requires In(root, at)
    modifies client
    ensures IsSuggestion(u, root, at, typed, suggestion)
    ensures client.View() == AfterAttempt(client.cfg, old(client.View()), AllPaths(root), facts, drawn, suggestion)
  {
    var parent := At(root, at);
    suggestion := "";
    var near := NearestCommand(u, parent, typed);
    if near.Some? {
      suggestion := PathOf(root, at) + " " + parent.subs[near.value].data.name;
    }
    assert suggestion == SuggestionPath(root, at, near);
    var paths := CommandPaths(NameOf, root, root.data.name);
    client.SetKnownCommands(paths);
    client.RecordSessionStart(facts, drawn);
    client.RecordUnknownCommand(suggestion);
  }

  // ----- what is sent

  /** The record a call to RecordUnknownCommand emits at a client that knows `paths`. */
  function UnknownRecord(cfg: Config, paths: seq<string>, suggestion: string): Record {
    var name := CommandNames.KnownCommand(cfg.cliName, Some(CommandNames.KnownSet(cfg.cliName, paths)), suggestion);
    Record(Event(CommandUnknown), Visible(cfg.tier, map[Suggestion := NonEmpty(name)] + TierField(cfg)))
  }

  /** What the session start of an attempt would queue. */
  function StartBatch(cfg: Config, s: State, facts: SessionFacts, drawn: string): Batch {
    var marked := Marked(cfg, s, SessionStart(facts), drawn);
    Batch(Emitted(cfg.tier, Declares(cfg, marked, SessionStart(facts))), cfg.Basic())
  }

  /** The jobs of an attempt, in order: the session start, if it is still due, and the attempt. */
  function AttemptJobs(cfg: Config, s: State, paths: seq<string>, facts: SessionFacts, drawn: string,
                       suggestion: string): seq<Batch> {
    (if s.sessionOn then [] else [StartBatch(cfg, s, facts, drawn)])
      + [Batch([UnknownRecord(cfg, paths, suggestion)], false)]
  }

  function Room(cfg: Config, s: State): nat {
    if |s.pending| < cfg.queueSize then cfg.queueSize - |s.pending| else 0
  }

  /** However much room there is: the jobs go on the queue as far as it reaches, in order, the rest
      is counted as overflow, and the paths are registered and the session marked as started either
      way. A closed client does nothing. */
  lemma AttemptQueuesWhatFits(cfg: Config, s: State, paths: seq<string>, facts: SessionFacts, drawn: string,
                              suggestion: string)
    ensures var n := AfterAttempt(cfg, s, paths, facts, drawn, suggestion);
            var jobs := AttemptJobs(cfg, s, paths, facts, drawn, suggestion);
            var taken := if |jobs| <= Room(cfg, s) then |jobs| else Room(cfg, s);
            if s.closed then n == s
            else
              && n.pending == s.pending + jobs[..taken]
              && n.overflow == s.overflow + |jobs| - taken
              && n.known == Some(CommandNames.KnownSet(cfg.cliName, paths)) && n.sessionOn
              && n.sink == s.sink && n.points == s.points && n.belowTier == s.belowTier
  {
    if !s.closed {
      var known := Perform(cfg, s, SetKnown(paths), "");
      SessionQueued(cfg, known, facts, drawn);
      SameStart(cfg, s, known, facts, drawn);
      UnknownQueued(cfg, Perform(cfg, known, SessionStart(facts), drawn), suggestion, paths);
    }
  }

  lemma SameStart(cfg: Config, s: State, known: State, facts: SessionFacts, drawn: string)
    requires known == s.(known := known.known)
    ensures StartBatch(cfg, known, facts, drawn) == StartBatch(cfg, s, facts, drawn)
  {
  }

  lemma SessionQueued(cfg: Config, s: State, facts: SessionFacts, drawn: string)
    requires !s.closed
    ensures var n := Perform(cfg, s, SessionStart(facts), drawn);
            if s.sessionOn then n == s
            else n == Enqueue(cfg, Marked(cfg, s, SessionStart(facts), drawn), StartBatch(cfg, s, facts, drawn))
  {
    if !s.sessionOn {
      EmittedOne(cfg.tier, Declares(cfg, Marked(cfg, s, SessionStart(facts), drawn), SessionStart(facts))[0]);
    }
  }

  lemma UnknownQueued(cfg: Config, s: State, suggestion: string, paths: seq<string>)
    requires !s.closed && s.known == Some(CommandNames.KnownSet(cfg.cliName, paths))
    ensures Perform(cfg, s, Unknown(suggestion), "")
              == Enqueue(cfg, s, Batch([UnknownRecord(cfg, paths, suggestion)], false))
  {
    EmittedOne(cfg.tier, Declares(cfg, Marked(cfg, s, Unknown(suggestion), ""), Unknown(suggestion))[0]);
  }

  /** What is ever sent as a suggestion is the reported name of a command of the tree, at Basic and
      above: nothing of what the user typed. */
  lemma OnlyCommandsOfTheTreeAreSent(cfg: Config, root: Tree<CommandInfo>, suggestion: string)
    ensures var attrs := UnknownRecord(cfg, AllPaths(root), suggestion).attrs;
            Suggestion in attrs ==>
              && cfg.Basic()
              && exists at :: In(root, at)
                  && attrs[Suggestion] == Text(CommandNames.CommandName(cfg.cliName, PathOf(root, at)))
  {
    var paths := AllPaths(root);
    if Suggestion in UnknownRecord(cfg, paths, suggestion).attrs {
      CommandNames.OnlyRegisteredNamesComeBack(cfg.cliName, paths, suggestion);
      var found := CommandNames.KnownCommand(cfg.cliName, Some(CommandNames.KnownSet(cfg.cliName, paths)), suggestion);
      var p :| p in paths && !Blank(p) && found == CommandNames.CommandName(cfg.cliName, p);
      PathsAreTheCommands(NameOf, root, root.data.name, p);
      var at :| In(root, at) && PathAt(NameOf, root, root.data.name, at) == p;
      assert PathOf(root, at) == p;
    }
  }

  /** A path whose name is registered, although blank paths themselves never are: a blank path goes
      by the CLI's own name. */
  predicate Reportable(cfg: Config, paths: seq<string>, path: string) {
    var own := CommandNames.Truncate(CommandNames.Fallback(cfg.cliName));
    |path| <= 512 && (Blank(path) ==> own in CommandNames.KnownSet(cfg.cliName, paths))
  }

  /** The nearest subcommand is sent, under the name it is reported by, exactly at Basic and above
      and when its path has at most 512 bytes and is not blank (or the CLI's own name is itself a
      registered one). */
  lemma NearestIsSentExactlyWhen(cfg: Config, u: TextFunctions, root: Tree<CommandInfo>, at: Address, typed: string,
                                 suggestion: string, i: nat)
    requires In(root, at) && IsSuggestion(u, root, at, typed, suggestion)
    requires IsNearest(u, At(root, at), typed, i) && Limit(At(root, at).data) != MAX_INT
    ensures i < |At(root, at).subs| && In(root, at + [i]) && suggestion == PathOf(root, at + [i])
    ensures var attrs := UnknownRecord(cfg, AllPaths(root), suggestion).attrs;
            && (Suggestion in attrs <==> cfg.Basic() && Reportable(cfg, AllPaths(root), suggestion))
            && (Suggestion in attrs ==> attrs[Suggestion] == Text(CommandNames.CommandName(cfg.cliName, suggestion)))
  {
    NearestIsASubcommand(u, root, at, typed, suggestion, i);
    PathIsListed(NameOf, root, root.data.name, at + [i]);
    SentExactlyWhen(cfg, AllPaths(root), suggestion);
  }

  lemma NearestIsASubcommand(u: TextFunctions, root: Tree<CommandInfo>, at: Address, typed: string, suggestion: string,
                             i: nat)
    requires In(root, at) && IsSuggestion(u, root, at, typed, suggestion)
    requires IsNearest(u, At(root, at), typed, i) && Limit(At(root, at).data) != MAX_INT
    ensures i < |At(root, at).subs| && In(root, at + [i]) && suggestion == PathOf(root, at + [i]) && suggestion != ""
  {
    var best :| Suggests(u, At(root, at), typed, best) && suggestion == SuggestionPath(root, at, best);
    AnswerIsTheNearest(u, At(root, at), typed, best, i);
    PathOfChild(NameOf, root, root.data.name, at, i);
  }

  lemma SentExactlyWhen(cfg: Config, paths: seq<string>, suggestion: string)
    requires suggestion in paths && suggestion != ""
    ensures var attrs := UnknownRecord(cfg, paths, suggestion).attrs;
            && (Suggestion in attrs <==> cfg.Basic() && Reportable(cfg, paths, suggestion))
            && (Suggestion in attrs ==> attrs[Suggestion] == Text(CommandNames.CommandName(cfg.cliName, suggestion)))
  {
    CommandNames.OnlyRegisteredNamesComeBack(cfg.cliName, paths, suggestion);
    CommandNames.NameOfWords(cfg.cliName, suggestion);
  }

  /** Where nothing is near enough nothing is suggested and nothing is sent as a suggestion. */
  lemma NothingNearNothingSent(cfg: Config, u: TextFunctions, root: Tree<CommandInfo>, at: Address, typed: string,
                               suggestion: string)
    requires In(root, at) && IsSuggestion(u, root, at, typed, suggestion)
    requires Suggests(u, At(root, at), typed, None)
    ensures suggestion == "" && Suggestion !in UnknownRecord(cfg, AllPaths(root), suggestion).attrs
  {
    var best :| Suggests(u, At(root, at), typed, best) && suggestion == SuggestionPath(root, at, best);
    AnswerIsDetermined(u, At(root, at), typed, best, None);
  }
}
