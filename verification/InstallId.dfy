/** The persisted install ID of install.go: the random UUID, the check that accepts a stored
    one, and the file over any number of process runs. */
module InstallId {
  import opened Wrappers

  // ----- newUUID

  type Byte = b: int | 0 <= b < 256

  const HEX := "0123456789abcdef"

  function HexOf(bs: seq<Byte>): (s: string)
    ensures |s| == 2 * |bs|
  {
    if bs == [] then "" else [HEX[bs[0] / 16], HEX[bs[0] % 16]] + HexOf(bs[1..])
  }

  /** fmt's "%x-%x-%x-%x-%x" over the five groups. */
  function Format(b: seq<Byte>): string
    requires |b| == 16
  {
    HexOf(b[0..4]) + "-" + HexOf(b[4..6]) + "-" + HexOf(b[6..8]) + "-" + HexOf(b[8..10]) + "-" + HexOf(b[10..16])
  }

  predicate Hyphen(i: int) {
    i == 8 || i == 13 || i == 18 || i == 23
  }

  /** Where the two digits of byte `k` end up: after the hyphens that precede it. */
  function Place(k: nat): nat {
    2 * k + (if k < 4 then 0 else if k < 6 then 1 else if k < 8 then 2 else if k < 10 then 3 else 4)
  }

  /** The byte a position of the text belongs to. */
  function ByteAt(i: nat): (k: nat)
    requires i < 36 && !Hyphen(i)
    ensures k < 16 && Place(k) <= i <= Place(k) + 1
  {
    (i - (if i < 8 then 0 else if i < 13 then 1 else if i < 18 then 2 else if i < 23 then 3 else 4)) / 2
  }

  /** The text of sixteen bytes, position by position. */
  function Spelling(b: seq<Byte>): (s: string)
    requires |b| == 16
    ensures |s| == 36
  {
    seq(36, i requires 0 <= i < 36 =>
      if Hyphen(i) then '-'
      else if i == Place(ByteAt(i)) then HEX[b[ByteAt(i)] / 16]
      else HEX[b[ByteAt(i)] % 16])
  }

  /** The two bytes that hold the version and the variant after `b[6]&0x0f|0x40` and `b[8]&0x3f|0x80`. */
  function WithVersion(b: Byte): Byte {
    b % 16 + 0x40
  }

  function WithVariant(b: Byte): Byte {
    b % 64 + 0x80
  }

  function Stamped(random: seq<Byte>): (b: seq<Byte>)
    requires |random| == 16
    ensures |b| == 16
  {
    random[6 := WithVersion(random[6])][8 := WithVariant(random[8])]
  }

  function Uuid(random: seq<Byte>): string
    requires |random| == 16
  {
    Spelling(Stamped(random))
  }

  lemma {:induction false} HexAt(bs: seq<Byte>, k: nat)
    requires k < |bs|
    ensures HexOf(bs)[2 * k] == HEX[bs[k] / 16] && HexOf(bs)[2 * k + 1] == HEX[bs[k] % 16]
  {
    if k > 0 {
      HexAt(bs[1..], k - 1);
    }
  }

  /** The digits of byte `k` of one group, with some text before and after it. */
  lemma InGroup(before: string, group: seq<Byte>, after: string, k: nat)
    requires k < |group|
    ensures var s := before + HexOf(group) + after;
            && s[|before| + 2 * k] == HEX[group[k] / 16]
            && s[|before| + 2 * k + 1] == HEX[group[k] % 16]
  {
    HexAt(group, k);
  }

  lemma FirstGroup(b: seq<Byte>, k: nat)
    requires |b| == 16 && k < 4
    ensures Format(b)[Place(k)] == HEX[b[k] / 16] && Format(b)[Place(k) + 1] == HEX[b[k] % 16]
  {
    HexAt(b[0..4], k);
  }

  lemma MiddleGroups(b: seq<Byte>, k: nat)
    requires |b| == 16 && 4 <= k < 8
    ensures Format(b)[Place(k)] == HEX[b[k] / 16] && Format(b)[Place(k) + 1] == HEX[b[k] % 16]
  {
    var before, y, z := HexOf(b[0..4]) + "-", HexOf(b[4..6]), HexOf(b[6..8]);
    var rest := "-" + HexOf(b[8..10]) + "-" + HexOf(b[10..16]);
    if k < 6 {
      InGroup(before, b[4..6], "-" + z + rest, k - 4);
      assert Format(b) == before + y + ("-" + z + rest);
    } else {
      InGroup(before + y + "-", b[6..8], rest, k - 6);
      assert Format(b) == before + y + "-" + z + rest;
    }
  }

  lemma LastGroups(b: seq<Byte>, k: nat)
    requires |b| == 16 && 8 <= k < 16
    ensures Format(b)[Place(k)] == HEX[b[k] / 16] && Format(b)[Place(k) + 1] == HEX[b[k] % 16]
  {
    var before := HexOf(b[0..4]) + "-" + HexOf(b[4..6]) + "-" + HexOf(b[6..8]) + "-";
    var y, z := HexOf(b[8..10]), HexOf(b[10..16]);
    if k < 10 {
      InGroup(before, b[8..10], "-" + z, k - 8);
      assert Format(b) == before + y + ("-" + z);
    } else {
      InGroup(before + y + "-", b[10..16], "", k - 10);
      assert Format(b) == before + y + "-" + z + "";
    }
  }

  const COUNTED := "00112233-4455-6677-8899-aabbccddeeff"

  lemma CountedAt(i: nat)
    requires i < 36
    ensures COUNTED[i] == if Hyphen(i) then '-' else HEX[ByteAt(i)]
  {
  }

  /** For instance the bytes 00, 11, 22 up to ff: two digits each, in order. */
  lemma SpelledInOrder(b: seq<Byte>)
    requires |b| == 16 && forall k :: 0 <= k < 16 ==> b[k] == 17 * k
    ensures Spelling(b) == COUNTED
  {
    forall i | 0 <= i < 36
      ensures Spelling(b)[i] == COUNTED[i]
    {
      CountedAt(i);
      SpelledAt(b, i);
    }
  }

  lemma SpelledAt(b: seq<Byte>, i: nat)
    requires |b| == 16 && i < 36 && forall k :: 0 <= k < 16 ==> b[k] == 17 * k
    ensures Spelling(b)[i] == if Hyphen(i) then '-' else HEX[ByteAt(i)]
  {
    if !Hyphen(i) {
      assert b[ByteAt(i)] / 16 == b[ByteAt(i)] % 16 == ByteAt(i);
    }
  }

  // ----- validInstallID

  predicate HexDigit(c: char) {
    '0' <= c <= '9' || 'a' <= c <= 'f'
  }

  predicate ValidId(id: string) {
    |id| == 36 && forall i :: 0 <= i < 36 ==> if Hyphen(i) then id[i] == '-' else HexDigit(id[i])
  }

  /** validInstallID: one pass over the text, with hyphens at four places. */
  method CheckId(id: string) returns (ok: bool)
    ensures ok <==> |id| == 36 && forall i :: 0 <= i < 36 ==>
                      if i in {8, 13, 18, 23} then id[i] == '-' else id[i] in "0123456789abcdef"
    ensures ok <==> ValidId(id)
  {
    if |id| != 36 {
      return false;
    }
    for i := 0 to |id|
      invariant forall j :: 0 <= j < i ==> if Hyphen(j) then id[j] == '-' else HexDigit(id[j]) && id[j] in HEX
    {
      HexDigitIsListed(id[i]);
      if Hyphen(i) {
        if id[i] != '-' {
          return false;
        }
      } else if id[i] !in HEX {
        return false;
      }
    }
    ok := true;
  }

  lemma HexDigitIsListed(c: char)
    ensures HexDigit(c) <==> c in HEX
  {
    if '0' <= c <= '9' {
      assert HEX[c as int - '0' as int] == c;
    } else if 'a' <= c <= 'f' {
      assert HEX[10 + c as int - 'a' as int] == c;
    }
  }

  /** Section 5.4 of RFC 9562: version 4 in the high half of octet 6, variant 10 in octet 8. */
  predicate Version4(id: string)
    requires |id| == 36
  {
    id[14] == '4' && id[19] in "89ab"
  }

  function Digit(c: char): (n: nat)
    requires HexDigit(c)
    ensures n < 16 && HEX[n] == c
  {
    if c <= '9' then c as int - '0' as int else c as int - 'a' as int + 10
  }

  lemma HexDigits(n: nat)
    requires n < 16
    ensures HexDigit(HEX[n]) && Digit(HEX[n]) == n
    ensures HEX[n] == '4' <==> n == 4
    ensures HEX[n] in "89ab" <==> 8 <= n < 12
  {
  }

  /** `s` is the text of `b`, digit by digit. */
  ghost predicate Spells(s: string, b: seq<Byte>)
    requires |b| == 16
  {
    && |s| == 36
    && s[8] == s[13] == s[18] == s[23] == '-'
    && forall k :: 0 <= k < 16 ==> s[Place(k)] == HEX[b[k] / 16] && s[Place(k) + 1] == HEX[b[k] % 16]
  }

  lemma PlaceOfByte(k: nat)
    requires k < 16
    ensures Place(k) + 1 < 36 && !Hyphen(Place(k)) && !Hyphen(Place(k) + 1)
    ensures ByteAt(Place(k)) == k && ByteAt(Place(k) + 1) == k
  {
  }

  lemma SpellingSpells(b: seq<Byte>)
    requires |b| == 16
    ensures Spells(Spelling(b), b)
  {
    forall k | 0 <= k < 16
      ensures Spelling(b)[Place(k)] == HEX[b[k] / 16] && Spelling(b)[Place(k) + 1] == HEX[b[k] % 16]
    {
      PlaceOfByte(k);
    }
  }

  lemma FormatHyphens(b: seq<Byte>)
    requires |b| == 16
    ensures |Format(b)| == 36 && Format(b)[8] == Format(b)[13] == Format(b)[18] == Format(b)[23] == '-'
  {
  }

  /** The five groups of hexadecimal digits land where `Spelling` says. */
  lemma FormatSpells(b: seq<Byte>)
    requires |b| == 16
    ensures Spells(Format(b), b)
  {
    FormatHyphens(b);
    forall k | 0 <= k < 16
      ensures Format(b)[Place(k)] == HEX[b[k] / 16] && Format(b)[Place(k) + 1] == HEX[b[k] % 16]
    {
      if k < 4 {
        FirstGroup(b, k);
      } else if k < 8 {
        MiddleGroups(b, k);
      } else {
        LastGroups(b, k);
      }
    }
  }

  lemma SpelledIsValid(s: string, b: seq<Byte>)
    requires |b| == 16 && Spells(s, b)
    ensures ValidId(s)
  {
    forall i | 0 <= i < 36 && !Hyphen(i)
      ensures HexDigit(s[i])
    {
      var k := ByteAt(i);
      HexDigits(b[k] / 16);
      HexDigits(b[k] % 16);
      assert s[i] == s[Place(k)] || s[i] == s[Place(k) + 1];
    }
  }

  lemma OneSpelling(s: string, t: string, b: seq<Byte>)
    requires |b| == 16 && Spells(s, b) && Spells(t, b)
    ensures s == t
  {
    forall i | 0 <= i < 36
      ensures s[i] == t[i]
    {
      if !Hyphen(i) {
        var k := ByteAt(i);
        assert s[Place(k)] == t[Place(k)] && s[Place(k) + 1] == t[Place(k) + 1];
      }
    }
  }

  lemma FormatIsSpelling(b: seq<Byte>)
    requires |b| == 16
    ensures Format(b) == Spelling(b)
  {
    FormatSpells(b);
    SpellingSpells(b);
    OneSpelling(Format(b), Spelling(b), b);
  }

  /** newUUID overwrites two of the sixteen random bytes in place; `random` is None when the
      system's source fails. */
  method NewUuid(random: Option<seq<Byte>>) returns (id: string)
    requires random.Some? ==> |random.value| == 16
    ensures id == if random.None? then "" else Uuid(random.value)
  {
    if random.None? {
      return "";
    }
    var b := new Byte[16](i requires 0 <= i < 16 => random.value[i]);
    b[6] := b[6] % 16 + 0x40;
    b[8] := b[8] % 64 + 0x80;
    assert b[..] == Stamped(random.value);
    FormatIsSpelling(b[..]);
    return Format(b[..]);
  }

  lemma SpelledBytesAgree(s: string, b: seq<Byte>, c: seq<Byte>)
    requires |b| == |c| == 16 && Spells(s, b) && Spells(s, c)
    ensures b == c
  {
    forall k | 0 <= k < 16
      ensures b[k] == c[k]
    {
      HexDigits(b[k] / 16);
      HexDigits(b[k] % 16);
      HexDigits(c[k] / 16);
      HexDigits(c[k] % 16);
    }
  }

  /** The sixteen bytes a valid ID spells. */
  function Parse(id: string): (b: seq<Byte>)
    requires ValidId(id)
    ensures |b| == 16
  {
    seq(16, k requires 0 <= k < 16 => (16 * Digit(id[Place(k)]) + Digit(id[Place(k) + 1])) as Byte)
  }

  lemma TwoDigits(high: nat, low: nat)
    requires high < 16 && low < 16
    ensures (16 * high + low) / 16 == high && (16 * high + low) % 16 == low
  {
  }

  lemma PlacesHoldDigits(id: string, k: nat)
    requires ValidId(id) && k < 16
    ensures HexDigit(id[Place(k)]) && HexDigit(id[Place(k) + 1])
  {
    assert !Hyphen(Place(k)) && !Hyphen(Place(k) + 1);
  }

  lemma ParsedByte(id: string, k: nat)
    requires ValidId(id) && k < 16
    requires HexDigit(id[Place(k)]) && HexDigit(id[Place(k) + 1])
    ensures Parse(id)[k] / 16 == Digit(id[Place(k)]) && Parse(id)[k] % 16 == Digit(id[Place(k) + 1])
  {
    TwoDigits(Digit(id[Place(k)]), Digit(id[Place(k) + 1]));
  }

  lemma ParseSpellsAt(id: string, k: nat)
    requires ValidId(id) && k < 16
    ensures id[Place(k)] == HEX[Parse(id)[k] / 16] && id[Place(k) + 1] == HEX[Parse(id)[k] % 16]
  {
    PlacesHoldDigits(id, k);
    ParsedByte(id, k);
  }

  lemma ParseSpells(id: string)
    requires ValidId(id)
    ensures Spells(id, Parse(id))
  {
    forall k | 0 <= k < 16
      ensures id[Place(k)] == HEX[Parse(id)[k] / 16] && id[Place(k) + 1] == HEX[Parse(id)[k] % 16]
    {
      ParseSpellsAt(id, k);
    }
  }

  /** Every valid ID is the text of exactly one sequence of sixteen bytes, and the other way round. */
  lemma SpellingAndParseAreInverse(id: string, b: seq<Byte>)
    requires |b| == 16
    ensures ValidId(Spelling(b)) && Parse(Spelling(b)) == b
    ensures ValidId(id) ==> Spelling(Parse(id)) == id
  {
    SpellingSpells(b);
    SpelledIsValid(Spelling(b), b);
    ParseSpells(Spelling(b));
    SpelledBytesAgree(Spelling(b), Parse(Spelling(b)), b);
    if ValidId(id) {
      ParseSpells(id);
      SpellingSpells(Parse(id));
      OneSpelling(Spelling(Parse(id)), id, Parse(id));
    }
  }

  lemma VersionBits(id: string, b: seq<Byte>)
    requires |b| == 16 && Spells(id, b)
    ensures Version4(id) <==> WithVersion(b[6]) == b[6] && WithVariant(b[8]) == b[8]
  {
    HexDigits(b[6] / 16);
    HexDigits(b[8] / 16);
    assert id[Place(6)] == HEX[b[6] / 16] && id[Place(8)] == HEX[b[8] / 16];
  }

  lemma StampingIsIdempotent(b: Byte)
    ensures WithVersion(WithVersion(b)) == WithVersion(b) && WithVariant(WithVariant(b)) == WithVariant(b)
  {
  }

  lemma StampedSpellsVersion4(s: string, b: seq<Byte>)
    requires |b| == 16 && Spells(s, b) && WithVersion(b[6]) == b[6] && WithVariant(b[8]) == b[8]
    ensures ValidId(s) && Version4(s)
  {
    SpelledIsValid(s, b);
    VersionBits(s, b);
  }

  lemma UuidHasVersion4(random: seq<Byte>)
    requires |random| == 16
    ensures ValidId(Uuid(random)) && Version4(Uuid(random))
  {
    StampingIsIdempotent(random[6]);
    StampingIsIdempotent(random[8]);
    SpellingSpells(Stamped(random));
    StampedSpellsVersion4(Spelling(Stamped(random)), Stamped(random));
  }

  lemma Version4IsUuid(id: string)
    requires ValidId(id) && Version4(id)
    ensures Uuid(Parse(id)) == id
  {
    var b := Parse(id);
    ParseSpells(id);
    VersionBits(id, b);
    assert Stamped(b) == b;
    SpellingAndParseAreInverse(id, b);
  }

  /** What newUUID can produce is exactly the valid IDs that carry the version and the variant.
      The check alone accepts more: it does not look at either. */
  lemma UuidsAreTheVersion4Ids(id: string)
    ensures (exists random: seq<Byte> :: |random| == 16 && Uuid(random) == id)
       <==> ValidId(id) && Version4(id)
  {
    forall random: seq<Byte> | |random| == 16
      ensures ValidId(Uuid(random)) && Version4(Uuid(random))
    {
      UuidHasVersion4(random);
    }
    if ValidId(id) && Version4(id) {
      Version4IsUuid(id);
    }
  }

  function NilId(): (id: string)
    ensures ValidId(id) && !Version4(id)
  {
    seq(36, i requires 0 <= i < 36 => if Hyphen(i) then '-' else '0')
  }

  /** For instance the ID of zeros, which is no UUID anybody draws. */
  lemma SomeAcceptedIdIsNoUuid()
    ensures ValidId(NilId()) && forall random: seq<Byte> :: |random| == 16 ==> Uuid(random) != NilId()
  {
    forall random: seq<Byte> | |random| == 16
      ensures Uuid(random) != NilId()
    {
      UuidHasVersion4(random);
    }
  }

  lemma StampedAgree(r1: seq<Byte>, r2: seq<Byte>)
    requires |r1| == |r2| == 16
    ensures Stamped(r1) == Stamped(r2) <==>
            (forall k :: 0 <= k < 16 && k != 6 && k != 8 ==> r1[k] == r2[k]) &&
            r1[6] % 16 == r2[6] % 16 && r1[8] % 64 == r2[8] % 64
  {
    var b1, b2 := Stamped(r1), Stamped(r2);
    assert forall k :: 0 <= k < 16 && k != 6 && k != 8 ==> b1[k] == r1[k] && b2[k] == r2[k];
    assert b1[6] == r1[6] % 16 + 0x40 && b2[6] == r2[6] % 16 + 0x40;
    assert b1[8] == r1[8] % 64 + 0x80 && b2[8] == r2[8] % 64 + 0x80;
    if b1 == b2 {
      assert forall k :: 0 <= k < 16 ==> b1[k] == b2[k];
    }
  }

  /** Nothing but the six overwritten bits is lost: two runs draw the same ID exactly when
      their random bytes agree on the other 122. */
  lemma UuidKeeps122Bits(r1: seq<Byte>, r2: seq<Byte>)
    requires |r1| == |r2| == 16
    ensures Uuid(r1) == Uuid(r2) <==>
            (forall k :: 0 <= k < 16 && k != 6 && k != 8 ==> r1[k] == r2[k]) &&
            r1[6] % 16 == r2[6] % 16 && r1[8] % 64 == r2[8] % 64
  {
    var b1, b2 := Stamped(r1), Stamped(r2);
    StampedAgree(r1, r2);
    SpellingAndParseAreInverse("", b1);
    SpellingAndParseAreInverse("", b2);
  }

  // ----- loadOrCreateInstallID

  function TrimLeft(s: string): string {
    if s != "" && IsSpace(s[0]) then TrimLeft(s[1..]) else s
  }

  function TrimRight(s: string): string {
    if s != "" && IsSpace(s[|s| - 1]) then TrimRight(s[..|s| - 1]) else s
  }

  /** strings.TrimSpace */
  function Trim(s: string): string {
    TrimRight(TrimLeft(s))
  }

  /** What the outside world decides in one process run. */
  datatype Outcomes = Outcomes(
    readOk: bool,                  // os.ReadFile succeeds (given that the file exists)
    random: Option<seq<Byte>>,     // rand.Read
    dirOk: bool,                   // os.MkdirAll
    writeOk: bool,                 // os.WriteFile
    leftBehind: Option<string>)    // what a failed write leaves in place of the file
  {
    ghost predicate Possible() {
      random.Some? ==> |random.value| == 16
    }
  }

  /** The file at the install ID path: its content, or None when there is no file. */
  class IdFile {
    var content: Option<string>

    constructor (content: Option<string>)
      ensures this.content == content
    {
      this.content := content;
    }

    method LoadOrCreate(path: string, run: Outcomes) returns (id: string)
      requires run.Possible()
      modifies this
      ensures (id, content) == Load(path, old(content), run)
    {
      if path == "" {
        return "";
      }
      if run.readOk && content.Some? {
        var stored := Trim(content.value);
        var accepted := CheckId(stored);
        if accepted {
          return stored;
        }
      }
      id := NewUuid(run.random);
      if id == "" {
        return "";
      }
      if !run.dirOk {
        return "";
      }
      if !run.writeOk {
        content := run.leftBehind;
        return "";
      }
      content := Some(id + "\n");
    }
  }

  /** The file holds an ID that the next successful read returns. */
  predicate Holds(content: Option<string>, id: string) {
    content.Some? && ValidId(id) && Trim(content.value) == id
  }

  predicate HoldsSome(content: Option<string>) {
    content.Some? && ValidId(Trim(content.value))
  }

  /** A run keeps the stored ID when it can read one; any other run that gets a random ID and
      the directory writes. */
  predicate Writes(content: Option<string>, run: Outcomes) {
    !(run.readOk && HoldsSome(content)) && run.random.Some? && run.dirOk
  }

  /** The outcome of one run: the ID it returns and the file it leaves. */
  ghost function Load(path: string, content: Option<string>, run: Outcomes): (string, Option<string>)
    requires run.Possible()
  {
    if path == "" then ("", content)
    else if run.readOk && HoldsSome(content) then (Trim(content.value), content)
    else if !Writes(content, run) then ("", content)
    else if run.writeOk then (Uuid(run.random.value), Some(Uuid(run.random.value) + "\n"))
    else ("", run.leftBehind)
  }

  lemma {:induction false} TrimPadded(a: string, id: string, b: string)
    requires Blank(a) && Blank(b) && id != "" && SpaceFree(id)
    ensures Trim(a + id + b) == id
    decreases |a| + |b|
  {
    var s := a + id + b;
    if a != "" {
      assert s[1..] == a[1..] + id + b;
      TrimPadded(a[1..], id, b);
    } else if b != "" {
      assert s[..|s| - 1] == a + id + b[..|b| - 1];
      assert TrimLeft(s) == s && TrimLeft(s[..|s| - 1]) == s[..|s| - 1];
      TrimPadded(a, id, b[..|b| - 1]);
    } else {
      assert s == id;
    }
  }

  lemma {:induction false} TrimLeftLeaves(s: string) returns (a: string)
    ensures Blank(a) && s == a + TrimLeft(s)
  {
    if s != "" && IsSpace(s[0]) {
      var rest := TrimLeftLeaves(s[1..]);
      a := [s[0]] + rest;
    } else {
      a := "";
    }
  }

  lemma {:induction false} TrimRightLeaves(s: string) returns (b: string)
    ensures Blank(b) && s == TrimRight(s) + b
  {
    if s != "" && IsSpace(s[|s| - 1]) {
      var rest := TrimRightLeaves(s[..|s| - 1]);
      b := rest + [s[|s| - 1]];
      assert s == s[..|s| - 1] + [s[|s| - 1]];
    } else {
      b := "";
    }
  }

  /** A file holds an ID exactly if it is that ID with any white space before and after it. */
  lemma HoldsExactlyWhen(text: string, id: string)
    ensures Holds(Some(text), id) <==>
              ValidId(id) && exists a, b :: Blank(a) && Blank(b) && text == a + id + b
  {
    if Holds(Some(text), id) {
      var a := TrimLeftLeaves(text);
      var b := TrimRightLeaves(TrimLeft(text));
      assert text == a + id + b;
    } else if ValidId(id) {
      ValidIdIsSpaceFree(id);
      if a, b :| Blank(a) && Blank(b) && text == a + id + b {
        TrimPadded(a, id, b);
      }
    }
  }

  lemma TrimNewline(id: string)
    requires id != "" && SpaceFree(id)
    ensures Trim(id + "\n") == id
  {
    TrimPadded("", id, "\n");
    assert "" + id + "\n" == id + "\n";
  }

  lemma ValidIdIsSpaceFree(id: string)
    requires ValidId(id)
    ensures SpaceFree(id) && id != ""
  {
    forall i | 0 <= i < |id|
      ensures !IsSpace(id[i])
    {
      if Hyphen(i) {
      } else {
        assert HexDigit(id[i]);
      }
    }
  }

  lemma UuidIsValid(random: seq<Byte>)
    requires |random| == 16
    ensures ValidId(Uuid(random)) && Holds(Some(Uuid(random) + "\n"), Uuid(random))
  {
    SpellingAndParseAreInverse("", Stamped(random));
    ValidIdIsSpaceFree(Uuid(random));
    TrimNewline(Uuid(random));
  }

  /** A non-empty result is an ID the file holds when the run ends, the stored one in a file left
      alone or a new one on a line of its own; and an empty one means there was no path, or no
      stored ID could be read and none could be persisted. */
  lemma ReturnedIdIsStored(path: string, content: Option<string>, run: Outcomes)
    requires run.Possible()
    ensures var (id, after) := Load(path, content, run);
            && (id != "" ==> Holds(after, id))
            && (id != "" ==> if run.readOk && HoldsSome(content) then after == content
                             else after == Some(id + "\n") && id == Uuid(run.random.value))
            && (id == "" <==> path == "" || (!(run.readOk && HoldsSome(content)) &&
                              !(run.random.Some? && run.dirOk && run.writeOk)))
  {
    if HoldsSome(content) {
      ValidIdIsSpaceFree(Trim(content.value));
    }
    if run.random.Some? {
      UuidIsValid(run.random.value);
      ValidIdIsSpaceFree(Uuid(run.random.value));
    }
  }

  // ----- many runs

  /** The file after a sequence of runs, one after the other. */
  ghost function After(path: string, content: Option<string>, runs: seq<Outcomes>): Option<string>
    requires forall i :: 0 <= i < |runs| ==> runs[i].Possible()
    decreases |runs|
  {
    if runs == [] then content
    else After(path, Load(path, content, runs[0]).1, runs[1..])
  }

  /** A run that cannot read the stored ID and yet is able to write replaces it. */
  predicate Replaces(run: Outcomes) {
    !run.readOk && run.random.Some? && run.dirOk
  }

  /** As long as no run replaces the stored ID the file stays as it is, and every run whose read
      succeeds returns that ID without writing. */
  lemma {:induction false} StableWhileReadable(path: string, content: Option<string>, runs: seq<Outcomes>, id: string,
                                               last: Outcomes)
    requires forall i :: 0 <= i < |runs| ==> runs[i].Possible() && !Replaces(runs[i])
    requires path != "" && Holds(content, id)
    requires last.Possible() && last.readOk
    ensures After(path, content, runs) == content
    ensures Load(path, After(path, content, runs), last) == (id, content)
  {
    if runs != [] {
      assert Load(path, content, runs[0]).1 == content;
      StableWhileReadable(path, content, runs[1..], id, last);
    }
  }

  /** An ID drawn in `runs` that differs from `id`, and no failed write that happens to leave
      `id` itself behind. */
  predicate DrawsOther(run: Outcomes, id: string) {
    && (run.random.Some? && |run.random.value| == 16 ==> Uuid(run.random.value) != id)
    && !Holds(run.leftBehind, id)
  }

  lemma {:induction false} NeverComesBack(path: string, content: Option<string>, runs: seq<Outcomes>, id: string)
    requires forall i :: 0 <= i < |runs| ==> runs[i].Possible() && DrawsOther(runs[i], id)
    requires path != "" && !Holds(content, id)
    ensures !Holds(After(path, content, runs), id)
    decreases |runs|
  {
    if runs != [] {
      var run := runs[0];
      if run.random.Some? {
        UuidIsValid(run.random.value);
      }
      NeverComesBack(path, Load(path, content, run).1, runs[1..], id);
    }
  }

  /** With fresh randomness in every run, a later successful read returns the first run's ID
      exactly when no run in between failed to read and went on to write. */
  lemma {:induction false} StableExactlyWhen(path: string, content: Option<string>, runs: seq<Outcomes>, id: string,
                                             last: Outcomes)
    requires forall i :: 0 <= i < |runs| ==> runs[i].Possible() && DrawsOther(runs[i], id)
    requires last.Possible() && last.readOk && DrawsOther(last, id)
    requires path != "" && Holds(content, id)
    ensures Load(path, After(path, content, runs), last).0 == id
       <==> forall i :: 0 <= i < |runs| ==> !Replaces(runs[i])
  {
    if forall i :: 0 <= i < |runs| ==> !Replaces(runs[i]) {
      StableWhileReadable(path, content, runs, id, last);
    } else {
      var run := runs[0];
      var next := Load(path, content, run).1;
      if Replaces(run) {
        UuidIsValid(run.random.value);
        NeverComesBack(path, next, runs[1..], id);
      } else {
        assert next == content;
        StableExactlyWhen(path, content, runs[1..], id, last);
        assert exists i :: 0 <= i < |runs[1..]| && Replaces(runs[1..][i]) by {
          var i :| 0 <= i < |runs| && Replaces(runs[i]);
          assert runs[1..][i - 1] == runs[i];
        }
      }
      ValidIdIsSpaceFree(id);
    }
  }

  /** A read that fails once is enough: the next run that reads returns a different ID although
      nobody else touched the file. */
  lemma OneFailedReadChangesTheId()
    ensures exists path: string, content: Option<string>, run: Outcomes, last: Outcomes ::
              && run.Possible() && last.Possible() && last.readOk
              && HoldsSome(content)
              && Load(path, After(path, content, [run]), last).0 != Load(path, content, last).0
              && Load(path, After(path, content, [run]), last).0 != ""
  {
    var r0: seq<Byte> := seq(16, _ => 0 as Byte);
    var r1: seq<Byte> := r0[0 := 1];
    var path, content := "id", Some(Uuid(r0) + "\n");
    UuidIsValid(r0);
    UuidIsValid(r1);
    ValidIdIsSpaceFree(Uuid(r1));
    UuidKeeps122Bits(r0, r1);
    assert r0[0] != r1[0];
    var run := Outcomes(false, Some(r1), true, true, None);
    var last := Outcomes(true, None, true, true, None);
    var after := Load(path, content, run).1;
    assert [run][1..] == [];
    assert After(path, content, [run]) == after;
    assert Load(path, after, last).0 == Uuid(r1) && Load(path, content, last).0 == Uuid(r0);
  }
}
