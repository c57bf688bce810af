/** The nearest registered command to what a user typed (cobrasdk.go). */
module Suggestions {
  import opened Wrappers
  import opened CommandTree
  import EditDistance

  const MAX_TYPED_LENGTH := 128
  const DEFAULT_SUGGESTION_DISTANCE: Int64 := 2
  const MAX_INT := 0x7FFF_FFFF_FFFF_FFFF

  /** Go's int on a 64-bit platform. */
  type Int64 = x: int | -MAX_INT - 1 <= x <= MAX_INT

  function Wrap(x: int): Int64 {
    (x + MAX_INT + 1) % (2 * MAX_INT + 2) - MAX_INT - 1
  }

  /** What is used of a command of the framework. */
  datatype CommandInfo = CommandInfo(
    name: string, available: bool, suggestFor: seq<string>, disableSuggestions: bool, minDistance: Int64)

  /** The three text functions of the standard library: strings.ToLower, conversion to runes and
      strings.EqualFold. */
  datatype TextFunctions = TextFunctions(lower: string -> string, runes: string -> seq<int>,
                                         equalFold: (string, string) -> bool)

  // ----- the specification

  predicate IsAlternative(u: TextFunctions, typed: string, sub: CommandInfo) {
    exists k :: 0 <= k < |sub.suggestFor| && u.equalFold(u.lower(typed), sub.suggestFor[k])
  }

  /** How far a subcommand is from the typed text: not at all if the vendor declared the text for
      it, else the edit distance of the lower-cased rune sequences. */
  function Score(u: TextFunctions, typed: string, sub: CommandInfo): nat {
    if IsAlternative(u, typed, sub) then 0
    else EditDistance.Distance(u.runes(u.lower(typed)), u.runes(u.lower(sub.name)))
  }

  function Limit(parent: CommandInfo): Int64 {
    if parent.minDistance <= 0 then DEFAULT_SUGGESTION_DISTANCE else parent.minDistance
  }

  /** Subcommand `i` may be suggested. */
  predicate Candidate(u: TextFunctions, parent: Tree<CommandInfo>, typed: string, i: nat) {
    && !parent.data.disableSuggestions && 0 < |typed| <= MAX_TYPED_LENGTH
    && i < |parent.subs| && parent.subs[i].data.available
    && Score(u, typed, parent.subs[i].data) <= Limit(parent.data)
  }

  /** Subcommand `i` is the first of the candidates with the least score. */
  predicate IsNearest(u: TextFunctions, parent: Tree<CommandInfo>, typed: string, i: nat) {
    && Candidate(u, parent, typed, i)
    && forall j {:trigger Candidate(u, parent, typed, j)} ::
         0 <= j < |parent.subs| && Candidate(u, parent, typed, j) ==>
         var own, other := Score(u, typed, parent.subs[i].data), Score(u, typed, parent.subs[j].data);
         own < other || (own == other && i <= j)
  }

  /** What nearestCommand answers: the nearest one, except that with the largest possible limit
      there is no answer, because one more than that wraps around. */
  ghost predicate Suggests(u: TextFunctions, parent: Tree<CommandInfo>, typed: string, best: Option<nat>) {
    && (best.Some? ==> IsNearest(u, parent, typed, best.value))
    && (best.None? <==>
          Limit(parent.data) == MAX_INT || forall i :: 0 <= i < |parent.subs| ==> !Candidate(u, parent, typed, i))
  }

  lemma NearestIsUnique(u: TextFunctions, parent: Tree<CommandInfo>, typed: string, i: nat, j: nat)
    requires IsNearest(u, parent, typed, i) && IsNearest(u, parent, typed, j)
    ensures i == j
  {
    assert Candidate(u, parent, typed, i) && Candidate(u, parent, typed, j);
  }

  /** Every candidate is matched by a nearest one. */
  lemma {:induction false} SomeNearest(u: TextFunctions, parent: Tree<CommandInfo>, typed: string, i: nat)
      returns (best: nat)
    requires Candidate(u, parent, typed, i)
    ensures IsNearest(u, parent, typed, best)
    decreases Score(u, typed, parent.subs[i].data), i
  {
    if IsNearest(u, parent, typed, i) {
      best := i;
    } else {
      var j :| 0 <= j < |parent.subs| && Candidate(u, parent, typed, j) &&
               var own, other := Score(u, typed, parent.subs[i].data), Score(u, typed, parent.subs[j].data);
               !(own < other || (own == other && i <= j));
      best := SomeNearest(u, parent, typed, j);
    }
  }

  // ----- the program

  /** The body of nearestCommand's loop up to the comparison. */
  method ScoreOf(u: TextFunctions, lowered: string, typed: string, sub: CommandInfo) returns (dist: nat)
    requires lowered == u.lower(typed)
    ensures dist == Score(u, typed, sub)
  {
    dist := EditDistance.Compute(u.runes(lowered), u.runes(u.lower(sub.name)));
    for k := 0 to |sub.suggestFor|
      invariant dist == if exists m :: 0 <= m < k && u.equalFold(lowered, sub.suggestFor[m]) then 0
                        else EditDistance.Distance(u.runes(lowered), u.runes(u.lower(sub.name)))
    {
      if u.equalFold(lowered, sub.suggestFor[k]) {
        dist := 0;
      }
    }
  }

  /** nearestCommand, returning the position of the subcommand. */
  method NearestCommand(u: TextFunctions, parent: Tree<CommandInfo>, typed: string) returns (best: Option<nat>)
    ensures Suggests(u, parent, typed, best)
  {
    best := None;
    if parent.data.disableSuggestions || typed == "" || |typed| > MAX_TYPED_LENGTH {
      return;
    }
    var limit := parent.data.minDistance;
    if limit <= 0 {
      limit := DEFAULT_SUGGESTION_DISTANCE;
    }
    var lowered := u.lower(typed);
    var bestDist := Wrap(limit + 1);
    for i := 0 to |parent.subs|
      invariant best.None? ==> bestDist == Wrap(limit + 1)
      invariant best.None? ==> limit == MAX_INT || forall j :: 0 <= j < i ==> !Candidate(u, parent, typed, j)
      invariant best.Some? ==> limit < MAX_INT && best.value < i && Candidate(u, parent, typed, best.value)
      invariant best.Some? ==> bestDist == Score(u, typed, parent.subs[best.value].data)
      invariant best.Some? ==>
                  forall j {:trigger Candidate(u, parent, typed, j)} :: 0 <= j < i && Candidate(u, parent, typed, j) ==>
                    var other := Score(u, typed, parent.subs[j].data);
                    bestDist < other || (bestDist == other && best.value <= j)
    {
      var sub := parent.subs[i].data;
      if !sub.available {
        continue;
      }
      var dist := ScoreOf(u, lowered, typed, sub);
      if dist < bestDist {
        best, bestDist := Some(i), dist;
      }
    }
  }

  // ----- the limit that is too large

  function Example(): Tree<CommandInfo> {
    Node(CommandInfo("cli", true, [], false, MAX_INT), [Node(CommandInfo("deploy", true, [], false, 0), [])])
  }

  /** A vendor who sets the largest possible distance, wishing for a suggestion always, gets none:
      not even for a command typed exactly. */
  lemma LargestLimitFindsNothing(u: TextFunctions)
    ensures IsNearest(u, Example(), "deploy", 0) && Suggests(u, Example(), "deploy", None)
  {
    EditDistance.ZeroExactlyOnEqual(u.runes(u.lower("deploy")), u.runes(u.lower("deploy")));
  }

  /** There is only one answer. */
  lemma AnswerIsDetermined(u: TextFunctions, parent: Tree<CommandInfo>, typed: string, a: Option<nat>, b: Option<nat>)
    requires Suggests(u, parent, typed, a) && Suggests(u, parent, typed, b)
    ensures a == b
  {
    if a.Some? {
      AnswerIsTheNearest(u, parent, typed, b, a.value);
    }
  }

  /** With any limit but the one that wraps, the answer is the nearest subcommand. */
  lemma AnswerIsTheNearest(u: TextFunctions, parent: Tree<CommandInfo>, typed: string, best: Option<nat>, i: nat)
    requires Suggests(u, parent, typed, best) && Limit(parent.data) != MAX_INT
    ensures IsNearest(u, parent, typed, i) <==> best == Some(i)
  {
    if IsNearest(u, parent, typed, i) {
      assert Candidate(u, parent, typed, i);
      NearestIsUnique(u, parent, typed, best.value, i);
    }
  }

  /** With a usable limit, nothing is suggested exactly when suggestions are off, the text is empty
      or too long, or no available subcommand is close enough. */
  lemma NothingExactlyWhen(u: TextFunctions, parent: Tree<CommandInfo>, typed: string, best: Option<nat>)
    requires Suggests(u, parent, typed, best)
    ensures best.None? <==>
      || parent.data.disableSuggestions || typed == "" || |typed| > MAX_TYPED_LENGTH || Limit(parent.data) == MAX_INT
      || (forall i :: 0 <= i < |parent.subs| && parent.subs[i].data.available ==>
          Score(u, typed, parent.subs[i].data) > Limit(parent.data))
  {
    if best.Some? {
      assert Candidate(u, parent, typed, best.value);
    } else if !parent.data.disableSuggestions && typed != "" && |typed| <= MAX_TYPED_LENGTH
        && Limit(parent.data) != MAX_INT {
      forall i | 0 <= i < |parent.subs| && parent.subs[i].data.available
        ensures Score(u, typed, parent.subs[i].data) > Limit(parent.data)
      {
        assert !Candidate(u, parent, typed, i);
      }
    }
  }

  // ----- the answer, spelled out

  /** The vendor declared the text for the subcommand, or the lower-cased texts are at most `limit`
      edits apart. */
  predicate CloseTo(u: TextFunctions, typed: string, sub: CommandInfo, limit: nat) {
    || (exists k :: 0 <= k < |sub.suggestFor| && u.equalFold(u.lower(typed), sub.suggestFor[k]))
    || EditDistance.Distance(u.runes(u.lower(typed)), u.runes(u.lower(sub.name))) <= limit
  }

  ghost predicate SomeCloseTo(u: TextFunctions, parent: Tree<CommandInfo>, typed: string, limit: nat) {
    exists i :: 0 <= i < |parent.subs| && parent.subs[i].data.available
                && CloseTo(u, typed, parent.subs[i].data, limit)
  }

  lemma CloseAsScored(u: TextFunctions, parent: Tree<CommandInfo>, typed: string, i: nat, limit: nat)
    requires i < |parent.subs| && Limit(parent.data) == limit
    requires !parent.data.disableSuggestions && 1 <= |typed| <= MAX_TYPED_LENGTH
    ensures Candidate(u, parent, typed, i) <==>
              parent.subs[i].data.available && CloseTo(u, typed, parent.subs[i].data, limit)
  {
  }

  lemma AnsweredWithin(u: TextFunctions, parent: Tree<CommandInfo>, typed: string, best: Option<nat>, limit: nat)
    requires Suggests(u, parent, typed, best) && Limit(parent.data) == limit < MAX_INT
    requires !parent.data.disableSuggestions && 1 <= |typed| <= MAX_TYPED_LENGTH
    ensures best.Some? <==> SomeCloseTo(u, parent, typed, limit)
  {
    forall i | 0 <= i < |parent.subs|
      ensures Candidate(u, parent, typed, i) <==>
                parent.subs[i].data.available && CloseTo(u, typed, parent.subs[i].data, limit)
    {
      CloseAsScored(u, parent, typed, i, limit);
    }
  }

  /** When something is suggested: never with suggestions off, for no text or for more than 128
      bytes. Otherwise, without a distance of the vendor's, exactly if some available subcommand is
      a declared alternative or at most 2 edits away; with one, the same at that distance, unless it
      is the largest integer. */
  lemma AnsweredExactlyWhen(u: TextFunctions, parent: Tree<CommandInfo>, typed: string, best: Option<nat>)
    requires Suggests(u, parent, typed, best)
    ensures var asks := !parent.data.disableSuggestions && 1 <= |typed| <= 128;
            var distance := parent.data.minDistance;
            && (!asks ==> best == None)
            && (asks && distance <= 0 ==> (best.Some? <==> SomeCloseTo(u, parent, typed, 2)))
            && (asks && 0 < distance < 0x7FFF_FFFF_FFFF_FFFF ==>
                  (best.Some? <==> SomeCloseTo(u, parent, typed, distance)))
            && (distance == 0x7FFF_FFFF_FFFF_FFFF ==> best == None)
  {
    if parent.data.disableSuggestions || |typed| < 1 || |typed| > 128 {
    } else if parent.data.minDistance <= 0 {
      AnsweredWithin(u, parent, typed, best, 2);
    } else if parent.data.minDistance < 0x7FFF_FFFF_FFFF_FFFF {
      AnsweredWithin(u, parent, typed, best, parent.data.minDistance);
    }
  }

  /** What is suggested is available; whatever else is available is close only where the suggested
      one is close too, and what comes earlier is less close. */
  lemma AnswerIsClosestAndFirst(u: TextFunctions, parent: Tree<CommandInfo>, typed: string, i: nat, j: nat)
    requires Suggests(u, parent, typed, Some(i)) && j < |parent.subs| && parent.subs[j].data.available
    ensures i < |parent.subs| && parent.subs[i].data.available
    ensures forall n: nat :: CloseTo(u, typed, parent.subs[j].data, n) ==> CloseTo(u, typed, parent.subs[i].data, n)
    ensures j < i ==>
              exists n: nat :: CloseTo(u, typed, parent.subs[i].data, n) && !CloseTo(u, typed, parent.subs[j].data, n)
  {
    var own := Score(u, typed, parent.subs[i].data);
    assert Candidate(u, parent, typed, i) && CloseTo(u, typed, parent.subs[i].data, own);
    assert Score(u, typed, parent.subs[j].data) >= own by {
      if Score(u, typed, parent.subs[j].data) < own {
        assert Candidate(u, parent, typed, j);
      }
    }
    if j < i && CloseTo(u, typed, parent.subs[j].data, own) {
      assert Candidate(u, parent, typed, j);
    }
  }
}
