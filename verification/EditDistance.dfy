/** The Levenshtein distance of cobrasdk.go: a two-row dynamic program, the edit scripts
    it minimises over, and the laws that make it a metric. */
module EditDistance {

  /** One edit. A script is read from left to right along the source sequence. */
  datatype Edit<T> =
    | Keep
    | Insert(rune: T)
    | Delete
    | Substitute(rune: T)

  function Init<T>(s: seq<T>): seq<T>
    requires s != []
  {
    s[..|s| - 1]
  }

  function Last<T>(s: seq<T>): T
    requires s != []
  {
    s[|s| - 1]
  }

  /** Running `script` over the whole of `a` produces `b`; the last edit deals with the ends. */
  ghost predicate Turns<T>(script: seq<Edit<T>>, a: seq<T>, b: seq<T>)
    decreases |script|
  {
    if script == [] then
      a == [] && b == []
    else
      match Last(script)
      case Keep => a != [] && b != [] && Last(a) == Last(b) && Turns(Init(script), Init(a), Init(b))
      case Insert(r) => b != [] && Last(b) == r && Turns(Init(script), a, Init(b))
      case Delete => a != [] && Turns(Init(script), Init(a), b)
      case Substitute(r) => a != [] && b != [] && Last(b) == r && Turns(Init(script), Init(a), Init(b))
  }

  /** Every edit but keeping a rune costs one. */
  ghost function Cost<T>(script: seq<Edit<T>>): nat {
    if script == [] then 0 else Cost(Init(script)) + (if Last(script).Keep? then 0 else 1)
  }

  ghost predicate IsLeastCost<T(!new)>(d: nat, a: seq<T>, b: seq<T>) {
    && (exists script :: Turns(script, a, b) && Cost(script) == d)
    && (forall script :: Turns(script, a, b) ==> d <= Cost(script))
  }

  function Min(x: nat, y: nat): nat {
    if x <= y then x else y
  }

  /** A cell from its three neighbours: one more than the one above or to the left, or the one
      between them, at no cost if the two runes are the same. */
  function Cell(above: nat, left: nat, corner: nat, same: bool): nat {
    Min(Min(above + 1, left + 1), corner + if same then 0 else 1)
  }

  /** The recurrence behind the table: the distance of the two sequences by their last runes. */
  function Distance<T(==)>(a: seq<T>, b: seq<T>): nat
    decreases |a| + |b|
  {
    if a == [] then |b|
    else if b == [] then |a|
    else
      Cell(Distance(Init(a), b), Distance(a, Init(b)), Distance(Init(a), Init(b)), Last(a) == Last(b))
  }

  // ----- the program

  /** Row `i`, column `j` of the table the program fills, in terms of its three neighbours. */
  function Table<T(==)>(a: seq<T>, b: seq<T>, i: nat, j: nat): nat
    requires i <= |a| && j <= |b|
  {
    if i == 0 then j
    else if j == 0 then i
    else
      Cell(Table(a, b, i - 1, j), Table(a, b, i, j - 1), Table(a, b, i - 1, j - 1), a[i - 1] == b[j - 1])
  }

  /** Every cell of the table is the distance of two prefixes. */
  lemma {:induction false} TableHoldsPrefixDistances<T>(a: seq<T>, b: seq<T>, i: nat, j: nat)
    requires i <= |a| && j <= |b|
    ensures Table(a, b, i, j) == Distance(a[..i], b[..j])
  {
    if i != 0 && j != 0 {
      var x, y := a[..i], b[..j];
      assert Init(x) == a[..i - 1] && Init(y) == b[..j - 1];
      TableHoldsPrefixDistances(a, b, i - 1, j);
      TableHoldsPrefixDistances(a, b, i, j - 1);
      TableHoldsPrefixDistances(a, b, i - 1, j - 1);
    }
  }

  lemma TableCell<T>(a: seq<T>, b: seq<T>, i: nat, j: nat)
    requires 0 < i <= |a| && 0 < j <= |b|
    ensures Table(a, b, i, j)
              == Cell(Table(a, b, i - 1, j), Table(a, b, i, j - 1), Table(a, b, i - 1, j - 1), a[i - 1] == b[j - 1])
  {
  }

  /** editDistance: `prev` and `cur` are two rows of the table, refilled and swapped. */
  method Compute<T(==,!new)>(ra: seq<T>, rb: seq<T>) returns (d: nat)
    ensures d == Distance(ra, rb)
    ensures IsLeastCost(d, ra, rb)
  {
    var prev := new nat[|rb| + 1];
    for j := 0 to |rb| + 1
      invariant forall k :: 0 <= k < j ==> prev[k] == k
    {
      prev[j] := j;
    }
    for i := 1 to |ra| + 1
      invariant prev.Length == |rb| + 1
      invariant forall k {:trigger prev[k]} :: 0 <= k <= |rb| ==> prev[k] == Table(ra, rb, i - 1, k)
    {
      var cur := new nat[|rb| + 1];
      cur[0] := i;
      for j := 1 to |rb| + 1
        modifies cur
        invariant forall k {:trigger cur[k]} :: 0 <= k < j ==> cur[k] == Table(ra, rb, i, k)
      {
        TableCell(ra, rb, i, j);
        cur[j] := Cell(prev[j], cur[j - 1], prev[j - 1], ra[i - 1] == rb[j - 1]);
      }
      prev := cur;
    }
    d := prev[|rb|];
    LastCellIsLeastCost(ra, rb);
  }

  lemma LastCellIsLeastCost<T(!new)>(a: seq<T>, b: seq<T>)
    ensures Table(a, b, |a|, |b|) == Distance(a, b)
    ensures IsLeastCost(Table(a, b, |a|, |b|), a, b)
  {
    TableHoldsPrefixDistances(a, b, |a|, |b|);
    assert a[..|a|] == a && b[..|b|] == b;
    DistanceIsLeastCost(a, b, Distance(a, b));
  }

  // ----- the cheapest script

  /** No script is cheaper than the distance. */
  lemma {:induction false} NoCheaperScript<T>(script: seq<Edit<T>>, a: seq<T>, b: seq<T>)
    requires Turns(script, a, b)
    ensures Distance(a, b) <= Cost(script)
    decreases |script|
  {
    if script != [] {
      var rest := Init(script);
      match Last(script)
      case Keep => NoCheaperScript(rest, Init(a), Init(b));
      case Insert(_) => NoCheaperScript(rest, a, Init(b));
      case Delete => NoCheaperScript(rest, Init(a), b);
      case Substitute(_) => NoCheaperScript(rest, Init(a), Init(b));
    }
  }

  lemma AppendEdit<T>(script: seq<Edit<T>>, e: Edit<T>)
    ensures Init(script + [e]) == script && Last(script + [e]) == e
  {
  }

  /** Some script costs exactly the distance. */
  lemma {:induction false} CheapestScript<T>(a: seq<T>, b: seq<T>) returns (script: seq<Edit<T>>)
    ensures Turns(script, a, b) && Cost(script) == Distance(a, b)
    decreases |a| + |b|
  {
    if a == [] && b == [] {
      script := [];
    } else if a == [] || (b != [] && Distance(a, b) == Distance(a, Init(b)) + 1) {
      script := CheapestScript(a, Init(b));
      AppendEdit(script, Insert(Last(b)));
      script := script + [Insert(Last(b))];
    } else if b == [] || Distance(a, b) == Distance(Init(a), b) + 1 {
      script := CheapestScript(Init(a), b);
      AppendEdit(script, Delete);
      script := script + [Delete];
    } else {
      script := CheapestScript(Init(a), Init(b));
      var e := if Last(a) == Last(b) then Keep else Substitute(Last(b));
      AppendEdit(script, e);
      script := script + [e];
    }
  }

  /** The distance is the least cost of any script turning `a` into `b`, and nothing else is. */
  lemma DistanceIsLeastCost<T(!new)>(a: seq<T>, b: seq<T>, d: nat)
    ensures IsLeastCost(d, a, b) <==> d == Distance(a, b)
  {
    var cheapest := CheapestScript(a, b);
    forall script | Turns(script, a, b)
      ensures Distance(a, b) <= Cost(script)
    {
      NoCheaperScript(script, a, b);
    }
  }

  // ----- the metric laws

  lemma {:induction false} LengthBounds<T>(a: seq<T>, b: seq<T>)
    ensures |a| - |b| <= Distance(a, b) && |b| - |a| <= Distance(a, b)
    ensures Distance(a, b) <= if |a| <= |b| then |b| else |a|
    decreases |a| + |b|
  {
    if a != [] && b != [] {
      LengthBounds(Init(a), b);
      LengthBounds(a, Init(b));
      LengthBounds(Init(a), Init(b));
    }
  }

  lemma {:induction false} ZeroExactlyOnEqual<T>(a: seq<T>, b: seq<T>)
    ensures Distance(a, b) == 0 <==> a == b
    decreases |a| + |b|
  {
    if a != [] && b != [] {
      ZeroExactlyOnEqual(Init(a), Init(b));
      assert a == Init(a) + [Last(a)] && b == Init(b) + [Last(b)];
    }
  }

  lemma {:induction false} Symmetric<T>(a: seq<T>, b: seq<T>)
    ensures Distance(a, b) == Distance(b, a)
    decreases |a| + |b|
  {
    if a != [] && b != [] {
      Symmetric(Init(a), b);
      Symmetric(a, Init(b));
      Symmetric(Init(a), Init(b));
    }
  }

  lemma {:induction false} Triangle<T>(a: seq<T>, b: seq<T>, c: seq<T>)
    ensures Distance(a, c) <= Distance(a, b) + Distance(b, c)
    decreases |a| + |b| + |c|
  {
    if a == [] || b == [] || c == [] {
      LengthBounds(a, b);
      LengthBounds(b, c);
      LengthBounds(a, c);
    } else {
      Triangle(Init(a), b, c);
      Triangle(a, b, Init(c));
      Triangle(a, Init(b), c);
      Triangle(a, Init(b), Init(c));
      Triangle(Init(a), Init(b), c);
      Triangle(Init(a), Init(b), Init(c));
    }
  }
}
