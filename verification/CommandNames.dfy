/** How taxonomy.go turns a command path into the name it reports, and which names a caller
    may get back out of the registered set. */
module CommandNames {
  import opened Wrappers
  import Utf8

  const MAX_COMMAND_NAME_LENGTH := 128

  // ----- words of a path

  function WordLength(s: string): (n: nat)
    ensures n <= |s|
  {
    if s == "" || IsSpace(s[0]) then 0 else 1 + WordLength(s[1..])
  }

  lemma {:induction false} WordLengthEnds(s: string)
    ensures SpaceFree(s[..WordLength(s)])
    ensures WordLength(s) < |s| ==> IsSpace(s[WordLength(s)])
  {
    if s != "" && !IsSpace(s[0]) {
      WordLengthEnds(s[1..]);
      assert s[..WordLength(s)] == [s[0]] + s[1..][..WordLength(s[1..])];
    }
  }

  /** strings.Fields */
  function Fields(s: string): seq<string>
    decreases |s|
  {
    if s == "" then []
    else if IsSpace(s[0]) then Fields(s[1..])
    else [s[..WordLength(s)]] + Fields(s[WordLength(s)..])
  }

  function Join(parts: seq<string>, sep: string): string {
    if |parts| == 0 then ""
    else if |parts| == 1 then parts[0]
    else parts[0] + sep + Join(parts[1..], sep)
  }

  predicate Words(parts: seq<string>) {
    forall i :: 0 <= i < |parts| ==> parts[i] != "" && SpaceFree(parts[i])
  }

  lemma {:induction false} FieldsAreWords(s: string)
    ensures Words(Fields(s))
    ensures Fields(s) == [] <==> Blank(s)
    decreases |s|
  {
    if s == "" {
    } else if IsSpace(s[0]) {
      FieldsAreWords(s[1..]);
      assert s == [s[0]] + s[1..];
    } else {
      WordLengthEnds(s);
      FieldsAreWords(s[WordLength(s)..]);
    }
  }

  lemma {:induction false} WordLengthOfWord(w: string, rest: string)
    requires SpaceFree(w) && (rest == "" || IsSpace(rest[0]))
    ensures WordLength(w + rest) == |w|
  {
    if w == "" {
      assert w + rest == rest;
    } else {
      assert (w + rest)[1..] == w[1..] + rest;
      WordLengthOfWord(w[1..], rest);
    }
  }

  /** Splitting what was joined with spaces gives the words back. */
  lemma {:induction false} FieldsOfJoin(parts: seq<string>)
    requires Words(parts)
    ensures Fields(Join(parts, " ")) == parts
  {
    if |parts| == 1 {
      WordLengthOfWord(parts[0], "");
      assert parts[0] + "" == parts[0];
    } else if |parts| > 1 {
      var rest := " " + Join(parts[1..], " ");
      var s := Join(parts, " ");
      assert s == parts[0] + rest;
      WordLengthOfWord(parts[0], rest);
      assert s[..|parts[0]|] == parts[0] && s[|parts[0]|..] == rest;
      assert rest[1..] == Join(parts[1..], " ");
      FieldsOfJoin(parts[1..]);
    }
  }

  lemma FirstWord(w: string, rest: string)
    requires w != "" && SpaceFree(w) && (rest == "" || IsSpace(rest[0]))
    ensures Fields(w + rest) == [w] + Fields(rest)
  {
    WordLengthOfWord(w, rest);
    assert (w + rest)[..|w|] == w && (w + rest)[|w|..] == rest;
  }

  lemma SpaceFirst(c: char, rest: string)
    requires IsSpace(c)
    ensures Fields([c] + rest) == Fields(rest)
  {
    assert ([c] + rest)[1..] == rest;
  }

  /** White space between two texts separates their words, whichever white space it is and
      however much more there is around it. Together with the words of the empty text and of one
      word, which are FieldsOfJoin's, this says what splitting means for any text. */
  lemma {:induction false} SpaceSeparates(a: string, c: char, b: string)
    requires c in {' ', '\t', '\n', '\U{B}', '\U{C}', '\r'}
    ensures Fields(a + [c] + b) == Fields(a) + Fields(b)
    decreases |a|
  {
    if a == "" {
      SpaceFirst(c, b);
      assert a + [c] + b == [c] + b;
    } else if IsSpace(a[0]) {
      SpaceSeparates(a[1..], c, b);
      SpaceFirst(a[0], a[1..]);
      SpaceFirst(a[0], a[1..] + [c] + b);
      Apart(a, 1, c, b);
      assert a[..1] == [a[0]];
    } else {
      var n := WordLength(a);
      WordLengthEnds(a);
      SpaceSeparates(a[n..], c, b);
      Apart(a, n, c, b);
      WordInFront(a[..n], a[n..], a[n..] + [c] + b, Fields(b));
    }
  }

  lemma Apart(a: string, n: nat, c: char, b: string)
    requires n <= |a|
    ensures a == a[..n] + a[n..]
    ensures a + [c] + b == a[..n] + (a[n..] + [c] + b)
    ensures a[n..] + [c] + b != "" && (a[n..] + [c] + b)[0] == if n < |a| then a[n] else c
  {
  }

  lemma WordInFront(w: string, a: string, rest: string, more: seq<string>)
    requires w != "" && SpaceFree(w) && (a == "" || IsSpace(a[0])) && (rest == "" || IsSpace(rest[0]))
    requires Fields(rest) == Fields(a) + more
    ensures Fields(w + rest) == Fields(w + a) + more
  {
    FirstWord(w, a);
    FirstWord(w, rest);
    Associative([w], Fields(a), more);
  }

  lemma {:induction false} JoinIsSpaceFree(parts: seq<string>, sep: string)
    requires Words(parts) && SpaceFree(sep)
    ensures SpaceFree(Join(parts, sep))
    ensures parts != [] ==> Join(parts, sep) != ""
  {
    if |parts| > 1 {
      JoinIsSpaceFree(parts[1..], sep);
    }
  }

  // ----- commandName

  /** The longest prefix of at most 128 bytes. */
  function Truncate(name: string): (r: string)
    ensures r <= name && |r| == if |name| < 128 then |name| else 128
  {
    if |name| > MAX_COMMAND_NAME_LENGTH then name[..MAX_COMMAND_NAME_LENGTH] else name
  }

  /** The name used when a path has no words at all. */
  function Fallback(cliName: string): string {
    if cliName == "" then "root" else cliName
  }

  /** The name of a path before it is cut. */
  function FullName(cliName: string, path: string): (name: string)
    ensures name != ""
  {
    var parts := Fields(path);
    var kept := if |parts| > 1 && parts[0] == cliName then parts[1..] else parts;
    var joined := Join(kept, ".");
    if joined == "" then Fallback(cliName) else joined
  }

  function CommandName(cliName: string, path: string): (name: string)
    ensures 0 < |name| <= MAX_COMMAND_NAME_LENGTH
  {
    Truncate(FullName(cliName, path))
  }

  /** A path with at least one word never falls back, and its name holds no white space. */
  lemma NameOfWords(cliName: string, path: string)
    ensures !Blank(path) ==> SpaceFree(CommandName(cliName, path))
    ensures Blank(path) ==> CommandName(cliName, path) == Truncate(Fallback(cliName))
  {
    FieldsAreWords(path);
    var parts := Fields(path);
    var kept := if |parts| > 1 && parts[0] == cliName then parts[1..] else parts;
    JoinIsSpaceFree(kept, ".");
  }

  lemma NameOfOneWord(cliName: string, word: string)
    requires word != "" && SpaceFree(word)
    ensures CommandName(cliName, word) == Truncate(word)
  {
    assert Join([word], " ") == word;
    FieldsOfJoin([word]);
  }

  /** The name of any path: its words with dots between them, without the first one exactly if that
      is the CLI's own name and not alone; the CLI's own name, or "root", if there are no words. */
  lemma NameOfAnyPath(cliName: string, path: string)
    ensures var words := Fields(path);
            CommandName(cliName, path)
              == if words == [] then Truncate(if cliName != "" then cliName else "root")
                 else if |words| == 1 || words[0] != cliName then Truncate(Join(words, "."))
                 else Truncate(Join(words[1..], "."))
  {
    var words := Fields(path);
    FieldsAreWords(path);
    JoinIsSpaceFree(words, ".");
    if |words| > 1 {
      JoinIsSpaceFree(words[1..], ".");
    }
  }

  /** The same for the words themselves: only a CLI's own name in front of others is left out. */
  lemma OnlyTheOwnNameIsDropped(cliName: string, words: seq<string>)
    requires Words(words) && words != []
    ensures |words| == 1 || words[0] != cliName ==>
              CommandName(cliName, Join(words, " ")) == Truncate(Join(words, "."))
    ensures |words| > 1 && words[0] == cliName ==>
              CommandName(cliName, Join(words, " ")) == Truncate(Join(words[1..], "."))
  {
    FieldsOfJoin(words);
    NameOfAnyPath(cliName, Join(words, " "));
  }

  /** A path as the framework spells it ("mycli deploy push") and as the server does
      ("deploy.push") name the same command. */
  lemma SpacedAndDottedAgree(cliName: string, words: seq<string>)
    requires cliName != "" && SpaceFree(cliName) && Words(words) && words != []
    ensures CommandName(cliName, Join([cliName] + words, " ")) == CommandName(cliName, Join(words, "."))
  {
    FieldsOfJoin([cliName] + words);
    assert ([cliName] + words)[1..] == words;
    JoinIsSpaceFree(words, ".");
    NameOfOneWord(cliName, Join(words, "."));
  }

  /** Naming a name changes nothing exactly when the CLI's own name, as it would be reported,
      is free of white space or nothing but white space. */
  lemma NamingIsIdempotentExactlyWhen(cliName: string)
    ensures (forall path :: CommandName(cliName, CommandName(cliName, path)) == CommandName(cliName, path))
       <==> SpaceFree(Truncate(Fallback(cliName))) || Blank(Truncate(Fallback(cliName)))
  {
    var own := Truncate(Fallback(cliName));
    NameOfWords(cliName, "");
    NameOfWords(cliName, own);
    if SpaceFree(own) || Blank(own) {
      forall path
        ensures CommandName(cliName, CommandName(cliName, path)) == CommandName(cliName, path)
      {
        NameOfWords(cliName, path);
        if !Blank(path) || SpaceFree(own) {
          NameOfOneWord(cliName, CommandName(cliName, path));
        }
      }
    } else {
      assert CommandName(cliName, "") == own != CommandName(cliName, own);
    }
  }

  // ----- names and characters

  lemma {:induction false} FieldsAreValid(s: string)
    requires Utf8.Valid(s)
    ensures forall i :: 0 <= i < |Fields(s)| ==> Utf8.Valid(Fields(s)[i])
    decreases |s|
  {
    if s == "" {
    } else if IsSpace(s[0]) {
      assert s[..1] == [s[0]];
      Utf8.FirstCharacter(s, 1);
      FieldsAreValid(s[1..]);
    } else {
      var n := WordLength(s);
      WordLengthEnds(s);
      Utf8.SplitIsValid(s, n);
      FieldsAreValid(s[n..]);
    }
  }

  lemma {:induction false} JoinIsValid(parts: seq<string>, sep: string)
    requires Utf8.Valid(sep) && forall i :: 0 <= i < |parts| ==> Utf8.Valid(parts[i])
    ensures Utf8.Valid(Join(parts, sep))
  {
    if |parts| > 1 {
      JoinIsValid(parts[1..], sep);
      Utf8.ConcatIsValid(parts[0], sep);
      Utf8.ConcatIsValid(parts[0] + sep, Join(parts[1..], sep));
    }
  }

  lemma AsciiIsValid()
    ensures Utf8.Valid(".") && Utf8.Valid("root")
  {
    assert "."[..1] == "." && "."[1..] == "";
    Utf8.FirstCharacter(".", 1);
    Utf8.JoinedIsValid(["r", "o", "o", "t"]);
    assert Utf8.Joined(["r", "o", "o", "t"]) == "root";
  }

  lemma FullNameIsValid(cliName: string, path: string)
    requires Utf8.Valid(cliName) && Utf8.Valid(path)
    ensures Utf8.Valid(FullName(cliName, path))
  {
    AsciiIsValid();
    FieldsAreValid(path);
    var parts := Fields(path);
    JoinIsValid(if |parts| > 1 && parts[0] == cliName then parts[1..] else parts, ".");
  }

  /** A name is cut by bytes: what is reported of valid text is valid exactly when the whole name
      fits, or a character happens to start at the limit. */
  lemma NameIsValidExactlyWhen(cliName: string, path: string)
    requires Utf8.Valid(cliName) && Utf8.Valid(path)
    ensures var full := FullName(cliName, path);
            Utf8.Valid(CommandName(cliName, path)) <==>
              |full| <= MAX_COMMAND_NAME_LENGTH || Utf8.RuneStart(full[MAX_COMMAND_NAME_LENGTH])
  {
    FullNameIsValid(cliName, path);
    if |FullName(cliName, path)| > MAX_COMMAND_NAME_LENGTH {
      Utf8.ValidAtBoundaries(FullName(cliName, path), MAX_COMMAND_NAME_LENGTH);
    }
  }

  function Letters(n: nat): (s: string)
    ensures |s| == n && SpaceFree(s)
  {
    seq(n, _ => 'a')
  }

  /** An e with an acute accent. */
  function Accented(): string {
    [0xC3 as char, 0xA9 as char]
  }

  lemma {:induction false} LettersAreValid(n: nat)
    ensures Utf8.Valid(Letters(n))
  {
    if n > 0 {
      LettersAreValid(n - 1);
      assert Letters(n)[..1] == "a" && Letters(n)[1..] == Letters(n - 1);
      Utf8.FirstCharacter(Letters(n), 1);
    }
  }

  lemma LongCommandIsValid()
    ensures Utf8.Valid(Letters(127) + Accented())
  {
    LettersAreValid(127);
    Utf8.CharacterIsValid(Accented());
    Utf8.ConcatIsValid(Letters(127), Accented());
  }

  lemma FullNameOfWord(word: string)
    requires word != "" && SpaceFree(word)
    ensures FullName("", word) == word
  {
    assert Join([word], " ") == word;
    FieldsOfJoin([word]);
  }

  /** For instance a command of 127 letters and an e with an accent, two bytes long. */
  lemma SomeNameIsCutInsideACharacter()
    ensures exists path :: Utf8.Valid(path) && !Utf8.Valid(CommandName("", path))
  {
    var path := Letters(127) + Accented();
    LongCommandIsValid();
    FullNameOfWord(path);
    assert path[128] == Accented()[1];
    NameIsValidExactlyWhen("", path);
  }

  // ----- the registered set

  /** What SetKnownCommands stores. */
  function KnownSet(cliName: string, paths: seq<string>): set<string> {
    set p | p in paths && !Blank(p) :: CommandName(cliName, p)
  }

  function KnownCommand(cliName: string, known: Option<set<string>>, path: string): string {
    if known.None? || path == "" || |path| > 4 * MAX_COMMAND_NAME_LENGTH then ""
    else
      var name := CommandName(cliName, path);
      if name in known.value then name else ""
  }

  /** Whatever the caller passes, what comes back is a registered name or nothing; and a path
      that was registered comes back exactly when it is not longer than 512 bytes. */
  lemma OnlyRegisteredNamesComeBack(cliName: string, paths: seq<string>, path: string)
    ensures KnownCommand(cliName, None, path) == ""
    ensures var found := KnownCommand(cliName, Some(KnownSet(cliName, paths)), path);
            found != "" ==> exists p :: p in paths && !Blank(p) && found == CommandName(cliName, p)
    ensures path in paths && !Blank(path) ==>
              (KnownCommand(cliName, Some(KnownSet(cliName, paths)), path) != "" <==> |path| <= 512)
  {
    assert path in paths && !Blank(path) ==> CommandName(cliName, path) in KnownSet(cliName, paths);
  }

  /** Every registered name looks itself up, whatever the CLI is called: blank paths, the only
      ones that fall back to the CLI's own name, are never registered. */
  lemma RegisteredNameFindsItself(cliName: string, paths: seq<string>, name: string)
    requires name in KnownSet(cliName, paths)
    ensures KnownCommand(cliName, Some(KnownSet(cliName, paths)), name) == name
  {
    var p :| p in paths && !Blank(p) && name == CommandName(cliName, p);
    NameOfWords(cliName, p);
    NameOfOneWord(cliName, name);
  }
}
