/** What each vendor metric call leaves behind, spelled out: which calls get through, and the literal
    attributes of the point they add. Nothing of how the attribute lists are built is used. */
module SentPoints {
  import opened Wrappers
  import opened Signals
  import opened TaxonomySpec
  import opened SentRecords
  import V = VendorMetrics

  const LETTERS := "abcdefghijklmnopqrstuvwxyz"
  const DIGITS := "0123456789"

  /** One of the 36 letters and digits, then at most 63 of those or of three marks. */
  predicate Identifier(s: string) {
    && 1 <= |s| <= 64
    && (s[0] in LETTERS || s[0] in DIGITS)
    && forall i :: 1 <= i < |s| ==> s[i] in LETTERS || s[i] in DIGITS || s[i] == '.' || s[i] == '_' || s[i] == '-'
  }

  lemma LettersAreListed(c: char)
    ensures 'a' <= c <= 'z' <==> c in LETTERS
  {
    if 'a' <= c <= 'z' {
      assert LETTERS[c as int - 'a' as int] == c;
    }
  }

  lemma DigitsAreListed(c: char)
    ensures '0' <= c <= '9' <==> c in DIGITS
  {
    if '0' <= c <= '9' {
      assert DIGITS[c as int - '0' as int] == c;
    }
  }

  lemma IdentifierGrammar(s: string)
    ensures V.ValidIdentifier(s) <==> Identifier(s)
  {
    forall i | 0 <= i < |s|
      ensures V.LowerOrDigit(s[i]) <==> s[i] in LETTERS || s[i] in DIGITS
    {
      LettersAreListed(s[i]);
      DigitsAreListed(s[i]);
    }
  }

  predicate Labelled(tag: string) {
    tag == "" || Identifier(tag)
  }

  /** As many values as keys, and every one an identifier. */
  predicate Fitting(h: V.Handle, values: seq<string>) {
    h.valid && |values| == |h.keys| && forall i :: 0 <= i < |values| ==> Identifier(values[i])
  }

  /** The first call from Basic on that finds no install ID published asks for it, once. */
  function Asked(cfg: Config, s: State): State {
    if Named(cfg) && s.ready.None? && !s.asking then Queue(cfg, s.(asking := true), Batch([], true)) else s
  }

  /** The tier, the command current at the call, and the install ID if published and not empty. */
  function Context(cfg: Config, s: State): map<Key, Option<Value>> {
    map[TierKey := Some(Text(cfg.tier.Wire())),
        CommandName := if s.command.Some? then Some(Text(s.command.value)) else None,
        InstallId := if Named(cfg) && s.ready.Some? && s.ready.value != "" then Some(Text(s.ready.value)) else None]
  }

  /** The client with one more point. */
  function WithPoint(s: State, instrument: Instrument, amount: Amount, attrs: Attrs): State {
    s.(points := s.points + [Record(Point(instrument, amount), attrs)])
  }

  /** What is sent under the given keys, apart from the context. */
  function NamedPoint(nameKey: Key, name: string, tagKey: Key, tag: string): map<Key, Option<Value>> {
    map[nameKey := Some(Text(name)), tagKey := When(tag != "", Text(tag))]
  }

  /** Each value under the key at its own position. */
  function Dimensions(keys: seq<Key>, values: seq<string>): map<Key, Option<Value>>
    requires |values| == |keys| && Distinct(keys)
  {
    map i | 0 <= i < |keys| :: keys[i] := Some(Text(values[i]))
  }

  lemma FitAsStated(h: V.Handle, values: seq<string>)
    ensures V.ValuesFit(h, values) <==> Fitting(h, values)
  {
    forall i | 0 <= i < |values|
      ensures V.ValidIdentifier(values[i]) <==> Identifier(values[i])
    {
      IdentifierGrammar(values[i]);
    }
  }

  lemma AskedAsStated(cfg: Config, s: State)
    ensures AskForInstall(cfg, s) == Asked(cfg, s)
  {
    BasicMeansNamed(cfg);
    QueueIsEnqueue(cfg, s.(asking := true), Batch([], true));
  }

  /** Attribute sets that agree with the description of a point key by key. */
  lemma PointAsStated(cfg: Config, s: State, id: V.Identity, sent: map<Key, Option<Value>>)
    requires id.Proper()
    requires forall k: Key :: (if k in sent then sent[k] else None)
               == if cfg.tier.Allows(k.MinTier()) then V.PointField(id, cfg.tier, s.command, s.ready, k) else None
    ensures V.PointAttrs(id, cfg.tier, s.command, s.ready) == Present(sent)
  {
    forall k: Key
      ensures k in V.PointAttrs(id, cfg.tier, s.command, s.ready) <==> k in Present(sent)
      ensures k in Present(sent) ==> V.PointAttrs(id, cfg.tier, s.command, s.ready)[k] == Present(sent)[k]
    {
      V.PointAttr(id, cfg.tier, s.command, s.ready, k);
    }
    V.SameAttrs(V.PointAttrs(id, cfg.tier, s.command, s.ready), Present(sent));
  }

  lemma NamedPointShown(cfg: Config, s: State, id: V.Identity, nameKey: Key, tagKey: Key)
    requires id.dims == map[] && id.unit == ""
    requires (id.instrument == Counter && nameKey == CounterName && tagKey == CounterLabel)
          || (id.instrument == Measure && nameKey == MeasureName && tagKey == MeasureLabel)
    ensures V.PointAttrs(id, cfg.tier, s.command, s.ready)
         == Present(Context(cfg, s) + NamedPoint(nameKey, id.name, tagKey, id.tag))
  {
    var sent := Context(cfg, s) + NamedPoint(nameKey, id.name, tagKey, id.tag);
    forall k: Key
      ensures (if k in sent then sent[k] else None)
           == if cfg.tier.Allows(k.MinTier()) then V.PointField(id, cfg.tier, s.command, s.ready, k) else None
    {
      LookUp(Context(cfg, s), NamedPoint(nameKey, id.name, tagKey, id.tag), k);
      NamedFieldShown(cfg, s, id, nameKey, tagKey, k);
    }
    PointAsStated(cfg, s, id, sent);
  }

  lemma NamedFieldShown(cfg: Config, s: State, id: V.Identity, nameKey: Key, tagKey: Key, k: Key)
    requires id.dims == map[] && id.unit == ""
    requires (id.instrument == Counter && nameKey == CounterName && tagKey == CounterLabel)
          || (id.instrument == Measure && nameKey == MeasureName && tagKey == MeasureLabel)
    ensures var point, context := NamedPoint(nameKey, id.name, tagKey, id.tag), Context(cfg, s);
            (if k in point then point[k] else if k in context then context[k] else None)
              == if cfg.tier.Allows(k.MinTier()) then V.PointField(id, cfg.tier, s.command, s.ready, k) else None
  {
  }

  /** What is sent with a handle, apart from the context and the dimensions. */
  function HandlePoint(nameKey: Key, name: string, unit: string): map<Key, Option<Value>> {
    map[nameKey := Some(Text(name)), ValueUnit := When(unit != "", Text(unit))]
  }

  function SentByHandle(cfg: Config, s: State, nameKey: Key, name: string, unit: string, keys: seq<Key>,
                        values: seq<string>): map<Key, Option<Value>>
    requires |values| == |keys| && Distinct(keys)
  {
    Context(cfg, s) + HandlePoint(nameKey, name, unit) + Dimensions(keys, values)
  }

  predicate NameKeyOf(instrument: Instrument, nameKey: Key) {
    || (instrument == Counter && nameKey == CounterName)
    || (instrument == Measure && nameKey == MeasureName)
    || (instrument == ValueHistogram && nameKey == ValueName)
  }

  lemma HandleDims(keys: seq<Key>, values: seq<string>, k: Key)
    requires |values| == |keys| && Distinct(keys)
    ensures (if k in Dimensions(keys, values) then Dimensions(keys, values)[k] else None)
         == if k in V.Zip(keys, values) then Some(Text(V.Zip(keys, values)[k])) else None
    ensures k in V.Zip(keys, values) <==> k in keys
    ensures k in Dimensions(keys, values) <==> k in keys
  {
  }

  lemma HandleFieldShown(cfg: Config, s: State, id: V.Identity, keys: seq<Key>, values: seq<string>, nameKey: Key,
                         k: Key)
    requires |values| == |keys| && Distinct(keys) && (forall i :: 0 <= i < |keys| ==> keys[i].Dim?)
    requires id.dims == V.Zip(keys, values) && id.tag == "" && NameKeyOf(id.instrument, nameKey)
    ensures var sent := SentByHandle(cfg, s, nameKey, id.name, id.unit, keys, values);
            (if k in sent then sent[k] else None)
              == if cfg.tier.Allows(k.MinTier()) then V.PointField(id, cfg.tier, s.command, s.ready, k) else None
  {
    HandleDims(keys, values, k);
    LookUp(Context(cfg, s) + HandlePoint(nameKey, id.name, id.unit), Dimensions(keys, values), k);
    LookUp(Context(cfg, s), HandlePoint(nameKey, id.name, id.unit), k);
    if k.Dim? {
      DimFieldShown(cfg, s, id, nameKey, k);
    } else {
      OtherFieldShown(cfg, s, id, nameKey, k);
    }
  }

  lemma LookUp(a: map<Key, Option<Value>>, b: map<Key, Option<Value>>, k: Key)
    ensures (if k in a + b then (a + b)[k] else None) == if k in b then b[k] else if k in a then a[k] else None
  {
  }

  lemma DimFieldShown(cfg: Config, s: State, id: V.Identity, nameKey: Key, k: Key)
    requires id.Proper() && NameKeyOf(id.instrument, nameKey) && k.Dim?
    ensures k !in Context(cfg, s) + HandlePoint(nameKey, id.name, id.unit) && cfg.tier.Allows(k.MinTier())
    ensures V.PointField(id, cfg.tier, s.command, s.ready, k) == if k in id.dims then Some(Text(id.dims[k])) else None
  {
  }

  lemma OtherFieldShown(cfg: Config, s: State, id: V.Identity, nameKey: Key, k: Key)
    requires id.Proper() && id.tag == "" && NameKeyOf(id.instrument, nameKey) && !k.Dim?
    ensures var point, context := HandlePoint(nameKey, id.name, id.unit), Context(cfg, s);
            (if k in point then point[k] else if k in context then context[k] else None)
              == if cfg.tier.Allows(k.MinTier()) then V.PointField(id, cfg.tier, s.command, s.ready, k) else None
  {
  }

  lemma HandlePointShown(cfg: Config, s: State, id: V.Identity, keys: seq<Key>, values: seq<string>, nameKey: Key)
    requires |values| == |keys| && Distinct(keys) && (forall i :: 0 <= i < |keys| ==> keys[i].Dim?)
    requires id.dims == V.Zip(keys, values) && id.tag == "" && NameKeyOf(id.instrument, nameKey)
    ensures V.PointAttrs(id, cfg.tier, s.command, s.ready)
         == Present(SentByHandle(cfg, s, nameKey, id.name, id.unit, keys, values))
  {
    var sent := SentByHandle(cfg, s, nameKey, id.name, id.unit, keys, values);
    forall k: Key
      ensures (if k in sent then sent[k] else None)
           == if cfg.tier.Allows(k.MinTier()) then V.PointField(id, cfg.tier, s.command, s.ready, k) else None
    {
      HandleFieldShown(cfg, s, id, keys, values, nameKey, k);
    }
    PointAsStated(cfg, s, id, sent);
  }

  /** A call that gets as far as asking for the install ID, and one that gets through. */
  lemma VendorCall(cfg: Config, s: State, m: V.Call, drawn: string)
    ensures Perform(cfg, s, Vendor(m), drawn)
         == if s.closed || !V.AsksForInstall(m) then s
            else if !V.Accepted(m) then Asked(cfg, s)
            else
              var id := V.IdentityOf(m);
              WithPoint(Asked(cfg, s), id.instrument, V.AmountOf(m),
                        V.PointAttrs(id, cfg.tier, s.command, s.ready))
  {
    AskedAsStated(cfg, s);
  }

  // ----- the five calls

  /** A named counter: its name under the counter's name key, a label under the counter's label
      key. A bad label is found out only after the install ID was asked for. */
  lemma CountNamedAdds(cfg: Config, s: State, name: string, n: int, tag: string, drawn: string)
    ensures var attrs := Present(Context(cfg, s) + NamedPoint(CounterName, name, CounterLabel, tag));
            Perform(cfg, s, Vendor(V.CountNamed(name, n, tag)), drawn)
              == if s.closed || n <= 0 || !Identifier(name) then s
                 else if !Labelled(tag) then Asked(cfg, s)
                 else WithPoint(Asked(cfg, s), Counter, Count(n), attrs)
  {
    IdentifierGrammar(name);
    IdentifierGrammar(tag);
    VendorCall(cfg, s, V.CountNamed(name, n, tag), drawn);
    if V.Accepted(V.CountNamed(name, n, tag)) {
      var id := V.Identity(Counter, name, tag, "", map[]);
      assert V.IdentityOf(V.CountNamed(name, n, tag)) == id;
      NamedPointShown(cfg, s, id, CounterName, CounterLabel);
    }
  }

  lemma TimeNamedAdds(cfg: Config, s: State, name: string, d: int, tag: string, drawn: string)
    ensures var attrs := Present(Context(cfg, s) + NamedPoint(MeasureName, name, MeasureLabel, tag));
            Perform(cfg, s, Vendor(V.TimeNamed(name, d, tag)), drawn)
              == if s.closed || d <= 0 || !Identifier(name) then s
                 else if !Labelled(tag) then Asked(cfg, s)
                 else WithPoint(Asked(cfg, s), Measure, Nanos(d), attrs)
  {
    IdentifierGrammar(name);
    IdentifierGrammar(tag);
    VendorCall(cfg, s, V.TimeNamed(name, d, tag), drawn);
    if V.Accepted(V.TimeNamed(name, d, tag)) {
      var id := V.Identity(Measure, name, tag, "", map[]);
      assert V.IdentityOf(V.TimeNamed(name, d, tag)) == id;
      NamedPointShown(cfg, s, id, MeasureName, MeasureLabel);
    }
  }

  lemma CountByHandleAdds(cfg: Config, s: State, h: V.Handle, n: int, values: seq<string>, drawn: string)
    ensures Perform(cfg, s, Vendor(V.CountByHandle(h, n, values)), drawn)
         == if s.closed || n <= 0 || !Fitting(h, values) then s
            else
              var sent := SentByHandle(cfg, s, CounterName, h.name, "", h.keys, values);
              WithPoint(Asked(cfg, s), Counter, Count(n), Present(sent))
  {
    FitAsStated(h, values);
    VendorCall(cfg, s, V.CountByHandle(h, n, values), drawn);
    if Fitting(h, values) {
      var id := V.Identity(Counter, h.name, "", "", V.Zip(h.keys, values));
      HandlePointShown(cfg, s, id, h.keys, values, CounterName);
    }
  }

  lemma TimeByHandleAdds(cfg: Config, s: State, h: V.Handle, d: int, values: seq<string>, drawn: string)
    ensures Perform(cfg, s, Vendor(V.TimeByHandle(h, d, values)), drawn)
         == if s.closed || d <= 0 || !Fitting(h, values) then s
            else
              var sent := SentByHandle(cfg, s, MeasureName, h.name, "", h.keys, values);
              WithPoint(Asked(cfg, s), Measure, Nanos(d), Present(sent))
  {
    FitAsStated(h, values);
    VendorCall(cfg, s, V.TimeByHandle(h, d, values), drawn);
    if Fitting(h, values) {
      var id := V.Identity(Measure, h.name, "", "", V.Zip(h.keys, values));
      HandlePointShown(cfg, s, id, h.keys, values, MeasureName);
    }
  }

  /** Any finite value that is not negative, zero included; the unit goes along. */
  lemma RecordValueAdds(cfg: Config, s: State, h: V.Handle, unit: string, v: V.Float, values: seq<string>,
                        drawn: string)
    ensures Perform(cfg, s, Vendor(V.RecordValue(h, unit, v, values)), drawn)
         == if s.closed || !v.Finite? || v.r < 0.0 || !Fitting(h, values) then s
            else
              var sent := SentByHandle(cfg, s, ValueName, h.name, unit, h.keys, values);
              WithPoint(Asked(cfg, s), ValueHistogram, Quantity(v.r), Present(sent))
  {
    FitAsStated(h, values);
    VendorCall(cfg, s, V.RecordValue(h, unit, v, values), drawn);
    assert V.AmountFits(V.RecordValue(h, unit, v, values)) <==> v.Finite? && v.r >= 0.0;
    if V.Accepted(V.RecordValue(h, unit, v, values)) {
      var id := V.Identity(ValueHistogram, h.name, "", unit, V.Zip(h.keys, values));
      assert V.IdentityOf(V.RecordValue(h, unit, v, values)) == id;
      HandlePointShown(cfg, s, id, h.keys, values, ValueName);
    }
  }
}
