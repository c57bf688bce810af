/** truncateUTF8 of taxonomy.go, against the byte grammar of section 4 of RFC 3629. */
module Utf8 {

  predicate InRange(c: char, lo: int, hi: int) {
    lo <= c as int <= hi
  }

  predicate Continuation(c: char) {
    InRange(c, 0x80, 0xBF)
  }

  /** utf8.RuneStart: anything but a continuation byte. */
  predicate RuneStart(c: char) {
    !Continuation(c)
  }

  /** UTF8-octets: the byte sequences that encode exactly one character. */
  predicate OneCharacter(s: string) {
    || (|s| == 1 && InRange(s[0], 0x00, 0x7F))
    || (|s| == 2 && InRange(s[0], 0xC2, 0xDF) && Continuation(s[1]))
    || (|s| == 3 && Continuation(s[2]) &&
        ( || (InRange(s[0], 0xE0, 0xE0) && InRange(s[1], 0xA0, 0xBF))
          || (InRange(s[0], 0xE1, 0xEC) && Continuation(s[1]))
          || (InRange(s[0], 0xED, 0xED) && InRange(s[1], 0x80, 0x9F))
          || (InRange(s[0], 0xEE, 0xEF) && Continuation(s[1]))))
    || (|s| == 4 && Continuation(s[2]) && Continuation(s[3]) &&
        ( || (InRange(s[0], 0xF0, 0xF0) && InRange(s[1], 0x90, 0xBF))
          || (InRange(s[0], 0xF1, 0xF3) && Continuation(s[1]))
          || (InRange(s[0], 0xF4, 0xF4) && InRange(s[1], 0x80, 0x8F))))
  }

  /** The length of the character that text begins with, 0 if it begins with none. */
  function FirstLength(s: string): (n: nat)
    ensures n <= |s| && (n > 0 ==> OneCharacter(s[..n]))
  {
    if |s| >= 1 && OneCharacter(s[..1]) then 1
    else if |s| >= 2 && OneCharacter(s[..2]) then 2
    else if |s| >= 3 && OneCharacter(s[..3]) then 3
    else if |s| >= 4 && OneCharacter(s[..4]) then 4
    else 0
  }

  /** UTF8-string: a sequence of characters. */
  predicate Valid(s: string) {
    s == "" || (FirstLength(s) > 0 && Valid(s[FirstLength(s)..]))
  }

  /** Where stepping back from `max` to the start of a character ends. */
  function CutPoint(s: string, max: nat): (cut: nat)
    requires max < |s|
    ensures cut <= max
    ensures cut == 0 || RuneStart(s[cut])
    ensures forall k :: cut < k <= max ==> Continuation(s[k])
  {
    if max > 0 && !RuneStart(s[max]) then CutPoint(s, max - 1) else max
  }

  function Truncated(s: string, max: nat): string {
    if |s| <= max then s else s[..CutPoint(s, max)]
  }

  method TruncateUtf8(s: string, max: nat) returns (r: string)
    ensures r == Truncated(s, max)
  {
    if |s| <= max {
      return s;
    }
    var m := max;
    while m > 0 && !RuneStart(s[m])
      invariant 0 <= m <= max
      invariant CutPoint(s, m) == CutPoint(s, max)
    {
      m := m - 1;
    }
    return s[..m];
  }

  // ----- what it computes

  /** In valid text a cut falls between characters exactly where a character could start. */
  lemma {:induction false} ValidAtBoundaries(s: string, k: nat)
    requires Valid(s) && k <= |s|
    ensures Valid(s[..k]) <==> (k == |s| || k == 0 || RuneStart(s[k]))
    decreases |s|
  {
    if k == 0 {
      assert s[..k] == "";
    } else {
      var n := FirstLength(s);
      if k < n {
        CutInsideCharacter(s, n, k);
      } else {
        ValidAtBoundaries(s[n..], k - n);
        CutLater(s, n, k);
      }
    }
  }

  lemma CutLater(s: string, n: nat, k: nat)
    requires 1 <= n <= k <= |s| && OneCharacter(s[..n]) && Valid(s[n..])
    requires Valid(s[n..][..k - n]) <==> (k == |s| || k == n || RuneStart(s[n..][k - n]))
    ensures Valid(s[..k]) <==> (k == |s| || RuneStart(s[k]))
  {
    CutAfterCharacter(s, n, k);
  }

  lemma CutInsideCharacter(s: string, n: nat, k: nat)
    requires n <= |s| && OneCharacter(s[..n]) && 0 < k < n
    ensures Continuation(s[k]) && !Valid(s[..k])
  {
    assert s[..n][k] == s[k];
    NoPrefixOfACharacter(s[..n], k);
    assert s[..n][..k] == s[..k];
  }

  lemma Slices(s: string, n: nat, k: nat)
    requires n <= k <= |s|
    ensures s[n..][..k - n] == s[..k][n..] && s[..k][..n] == s[..n]
    ensures k < |s| ==> s[n..][k - n] == s[k]
  {
  }

  lemma {:induction false} CutAfterCharacter(s: string, n: nat, k: nat)
    requires 1 <= n <= k <= |s| && OneCharacter(s[..n]) && Valid(s[n..])
    ensures Valid(s[..k]) <==> Valid(s[n..][..k - n])
    ensures k < |s| ==> s[n..][k - n] == s[k]
    ensures k == n < |s| ==> RuneStart(s[k])
  {
    Slices(s, n, k);
    FirstCharacter(s[..k], n);
    if k == n < |s| {
      FirstByteStarts(s[n..]);
    }
  }

  lemma FirstByteStarts(s: string)
    requires Valid(s) && s != ""
    ensures RuneStart(s[0])
  {
    assert s[..FirstLength(s)][0] == s[0];
  }

  /** The length of a character is fixed by its first byte. */
  lemma FirstLengthOf(s: string, n: nat)
    requires 1 <= n <= |s| && OneCharacter(s[..n])
    ensures FirstLength(s) == n
  {
    assert s[..n][0] == s[0];
    assert s[..FirstLength(s)][0] == s[0];
  }

  /** Text that begins with a character is valid exactly if the rest is. */
  lemma FirstCharacter(s: string, n: nat)
    requires 1 <= n <= |s| && OneCharacter(s[..n])
    ensures Valid(s) <==> Valid(s[n..])
  {
    FirstLengthOf(s, n);
  }

  lemma NoPrefixOfACharacter(c: string, k: nat)
    requires OneCharacter(c) && 0 < k < |c|
    ensures !Valid(c[..k])
  {
  }

  /** Valid text after a valid beginning. */
  lemma {:induction false} ConcatIsValid(a: string, b: string)
    requires Valid(a)
    ensures Valid(a + b) <==> Valid(b)
    decreases |a|
  {
    if a == "" {
      assert a + b == b;
    } else {
      var n := FirstLength(a);
      ConcatIsValid(a[n..], b);
      ConcatSlices(a, b, n);
      FirstCharacter(a + b, n);
    }
  }

  lemma ConcatSlices(a: string, b: string, n: nat)
    requires n <= |a|
    ensures (a + b)[..n] == a[..n] && (a + b)[n..] == a[n..] + b
  {
  }

  lemma NextCharacter(s: string) returns (n: nat)
    requires Valid(s) && s != ""
    ensures 0 < n <= |s| && OneCharacter(s[..n]) && Valid(s[n..])
  {
    n := FirstLength(s);
  }

  lemma BoundaryIsNotInside(s: string, n: nat, k: nat)
    requires n <= |s| && OneCharacter(s[..n]) && 0 < k <= |s| && (k == |s| || RuneStart(s[k]))
    ensures n <= k
  {
    assert forall i :: 0 < i < n ==> s[..n][i] == s[i] && Continuation(s[i]);
  }

  /** What follows a boundary in valid text is valid too. */
  lemma {:induction false} TailIsValid(s: string, k: nat)
    requires Valid(s) && k <= |s| && (k == |s| || RuneStart(s[k]))
    ensures Valid(s[k..])
    decreases |s|
  {
    if k == 0 {
      assert s[0..] == s;
    } else {
      var n := NextCharacter(s);
      BoundaryIsNotInside(s, n, k);
      TailSlices(s, n, k);
      TailIsValid(s[n..], k - n);
    }
  }

  lemma TailSlices(s: string, n: nat, k: nat)
    requires n <= k <= |s|
    ensures s[n..][k - n..] == s[k..] && (k < |s| ==> s[n..][k - n] == s[k])
  {
  }

  lemma SplitIsValid(s: string, k: nat)
    requires Valid(s) && k <= |s| && (k == |s| || RuneStart(s[k]))
    ensures Valid(s[..k]) && Valid(s[k..])
  {
    ValidAtBoundaries(s, k);
    TailIsValid(s, k);
  }

  /** Several characters in a row. */
  function Joined(characters: seq<string>): string {
    if characters == [] then "" else characters[0] + Joined(characters[1..])
  }

  predicate Characters(characters: seq<string>) {
    forall i :: 0 <= i < |characters| ==> OneCharacter(characters[i])
  }

  lemma CharacterIsValid(c: string)
    requires OneCharacter(c)
    ensures Valid(c)
  {
    assert c[..|c|] == c && c[|c|..] == "";
    FirstLengthOf(c, |c|);
  }

  lemma {:induction false} JoinedIsValid(characters: seq<string>)
    requires Characters(characters)
    ensures Valid(Joined(characters))
  {
    if characters != [] {
      JoinedIsValid(characters[1..]);
      CharacterIsValid(characters[0]);
      ConcatIsValid(characters[0], Joined(characters[1..]));
    }
  }

  lemma {:induction false} Decompose(s: string) returns (characters: seq<string>)
    requires Valid(s)
    ensures Characters(characters) && Joined(characters) == s
    decreases |s|
  {
    if s == "" {
      characters := [];
    } else {
      var n := FirstLength(s);
      var rest := Decompose(s[n..]);
      characters := [s[..n]] + rest;
      assert characters[1..] == rest && s[..n] + s[n..] == s;
    }
  }

  /** Reading one character after the other accepts exactly the sequences of characters. */
  lemma ValidIsTheGrammar(s: string)
    ensures Valid(s) <==> exists characters :: Characters(characters) && Joined(characters) == s
  {
    if Valid(s) {
      var characters := Decompose(s);
    }
    forall characters | Characters(characters) && Joined(characters) == s
      ensures Valid(s)
    {
      JoinedIsValid(characters);
    }
  }

  /** A run of continuation bytes in valid text is at most three long. */
  lemma {:induction false} ShortRuns(s: string, k: nat)
    requires Valid(s) && 3 <= k < |s|
    ensures RuneStart(s[k]) || RuneStart(s[k - 1]) || RuneStart(s[k - 2]) || RuneStart(s[k - 3])
    decreases |s|
  {
    var n := FirstLength(s);
    if k - n >= 3 {
      ShortRuns(s[n..], k - n);
    } else if n <= k {
      FirstByteStarts(s[n..]);
      assert s[n..][0] == s[n];
    } else {
      FirstByteStarts(s);
    }
  }

  /** For valid text the result is the longest valid prefix of at most `max` bytes, and at most
      three bytes of the allowance go unused. */
  lemma LongestValidPrefix(s: string, max: nat)
    requires Valid(s)
    ensures Truncated(s, max) <= s && |Truncated(s, max)| <= max
    ensures Valid(Truncated(s, max))
    ensures forall k :: |Truncated(s, max)| < k <= max && k <= |s| ==> !Valid(s[..k])
    ensures |Truncated(s, max)| >= max - 3 || Truncated(s, max) == s
  {
    if |s| > max {
      var cut := CutPoint(s, max);
      ValidAtBoundaries(s, cut);
      forall k | cut < k <= max
        ensures !Valid(s[..k])
      {
        ValidAtBoundaries(s, k);
      }
      if max >= 3 {
        ShortRuns(s, max);
      }
    } else {
      assert s[..|s|] == s;
    }
  }

  /** Truncating again changes nothing, for any bytes at all. */
  lemma TruncatedIsIdempotent(s: string, max: nat)
    ensures Truncated(Truncated(s, max), max) == Truncated(s, max)
  {
  }
}
