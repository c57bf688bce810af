/** Vendor-defined counters, durations and values (dims.go, counter.go, measure.go, value.go):
    metric handles, which calls are accepted, and what identifies a series. */
module VendorMetrics {
  import opened Wrappers
  import opened Signals

  const MAX_IDENTIFIER_LENGTH := 64
  const MAX_DIMS := 3

  predicate LowerOrDigit(c: char) {
    'a' <= c <= 'z' || '0' <= c <= '9'
  }

  /** ^[a-z0-9][a-z0-9._-]*$, at most 64 bytes */
  predicate ValidIdentifier(s: string) {
    && 1 <= |s| <= MAX_IDENTIFIER_LENGTH
    && forall i :: 0 <= i < |s| ==> LowerOrDigit(s[i]) || (i > 0 && (s[i] == '.' || s[i] == '_' || s[i] == '-'))
  }

  /** validIdentifier: one pass over the bytes, with the three marks allowed from the second on. */
  method CheckIdentifier(s: string) returns (ok: bool)
    ensures ok <==> ValidIdentifier(s)
  {
    if s == "" || |s| > MAX_IDENTIFIER_LENGTH {
      return false;
    }
    for i := 0 to |s|
      invariant forall j :: 0 <= j < i ==>
                  LowerOrDigit(s[j]) || (j > 0 && (s[j] == '.' || s[j] == '_' || s[j] == '-'))
    {
      var marked := i > 0 && (s[i] == '.' || s[i] == '_' || s[i] == '-');
      if !LowerOrDigit(s[i]) && !marked {
        return false;
      }
    }
    ok := true;
  }

  // ----- handles

  datatype RawHandle = RawHandle(name: string, keys: seq<Key>, valid: bool)

  function DimKeys(dims: seq<string>): seq<Key> {
    seq(|dims|, i requires 0 <= i < |dims| => Dim(dims[i]))
  }

  predicate WellMade(h: RawHandle) {
    && (forall i :: 0 <= i < |h.keys| ==> h.keys[i].Dim?)
    && (h.valid ==> ValidIdentifier(h.name) && |h.keys| <= MAX_DIMS && Distinct(h.keys) &&
                    forall i :: 0 <= i < |h.keys| ==> ValidIdentifier(h.keys[i].name))
  }

  /** Handles are only ever made by NewHandle. */
  type Handle = h: RawHandle | WellMade(h) witness RawHandle("", [], false)

  /** newMetricHandle: one pass over the declared keys with the set of those already seen. */
  method NewHandle(name: string, dims: seq<string>) returns (h: Handle)
    ensures h.name == name && |h.keys| == |dims| && forall i :: 0 <= i < |dims| ==> h.keys[i] == Dim(dims[i])
    ensures h.valid <==>
              && ValidIdentifier(name) && |dims| <= 3
              && (forall i :: 0 <= i < |dims| ==> ValidIdentifier(dims[i]))
              && (forall i, j :: 0 <= i < j < |dims| ==> dims[i] != dims[j])
  {
    var valid := CheckIdentifier(name);
    valid := valid && |dims| <= MAX_DIMS;
    var keys: seq<Key> := [];
    var seen: set<string> := {};
    for i := 0 to |dims|
      invariant keys == DimKeys(dims[..i])
      invariant forall k :: k in seen <==> k in dims[..i]
      invariant valid <==> && ValidIdentifier(name) && |dims| <= MAX_DIMS
                           && (forall j :: 0 <= j < i ==> ValidIdentifier(dims[j]))
                           && Distinct(dims[..i])
    {
      var k := dims[i];
      var fits := CheckIdentifier(k);
      if !fits || k in seen {
        valid := false;
      }
      assert k in seen ==> !Distinct(dims[..i + 1]) by {
        if k in seen {
          var j :| 0 <= j < i && dims[..i][j] == k;
          assert dims[..i + 1][j] == dims[..i + 1][i];
        }
      }
      assert dims[..i + 1] == dims[..i] + [k];
      seen := seen + {k};
      keys := keys + [Dim(k)];
    }
    assert dims[..|dims|] == dims;
    h := RawHandle(name, keys, valid);
  }

  // ----- calls

  datatype Float = Finite(r: real) | NaN | PositiveInfinity | NegativeInfinity

  datatype Call =
    | CountNamed(name: string, n: int, tag: string)
    | CountByHandle(h: Handle, n: int, values: seq<string>)
    | TimeNamed(name: string, d: int, tag: string)
    | TimeByHandle(h: Handle, d: int, values: seq<string>)
    | RecordValue(h: Handle, unit: string, v: Float, values: seq<string>)

  /** Client.Value: the handle it returns is valid only with a known unit, and no unit means a
      count. */
  method NewValue(name: string, dims: seq<string>, unit: string) returns (h: Handle, u: string)
    ensures h.name == name && |h.keys| == |dims| && forall i :: 0 <= i < |dims| ==> h.keys[i] == Dim(dims[i])
    ensures u == if unit == "" then "1" else unit
    ensures h.valid <==>
              && ValidIdentifier(name) && |dims| <= 3
              && (forall i :: 0 <= i < |dims| ==> ValidIdentifier(dims[i]))
              && (forall i, j :: 0 <= i < j < |dims| ==> dims[i] != dims[j])
              && (unit == "" || unit == "1" || unit == "By" || unit == "%")
  {
    h := NewHandle(name, dims);
    u := unit;
    if u == "" {
      u := "1";
    } else if !(u in {"1", "By", "%"}) {
      h := h.(valid := false);
    }
  }

  predicate ValuesFit(h: Handle, values: seq<string>) {
    h.valid && |values| == |h.keys| && forall i :: 0 <= i < |values| ==> ValidIdentifier(values[i])
  }

  predicate LabelFits(tag: string) {
    tag == "" || ValidIdentifier(tag)
  }

  predicate AmountFits(c: Call) {
    match c
    case CountNamed(_, n, _) => n > 0
    case CountByHandle(_, n, _) => n > 0
    case TimeNamed(_, d, _) => d > 0
    case TimeByHandle(_, d, _) => d > 0
    case RecordValue(_, _, v, _) => v.Finite? && v.r >= 0.0
  }

  /** Which calls end up as a data point (of an enabled client). */
  predicate Accepted(c: Call) {
    && AmountFits(c)
    && match c
       case CountNamed(name, _, tag) => ValidIdentifier(name) && LabelFits(tag)
       case TimeNamed(name, _, tag) => ValidIdentifier(name) && LabelFits(tag)
       case CountByHandle(h, _, values) => ValuesFit(h, values)
       case TimeByHandle(h, _, values) => ValuesFit(h, values)
       case RecordValue(h, _, _, values) => ValuesFit(h, values)
  }

  /** Which calls get as far as asking for the install ID: a named counter or duration asks
      before its label is looked at, a handle only when everything fits. */
  predicate AsksForInstall(c: Call) {
    && AmountFits(c)
    && match c
       case CountNamed(name, _, _) => ValidIdentifier(name)
       case TimeNamed(name, _, _) => ValidIdentifier(name)
       case CountByHandle(h, _, values) => ValuesFit(h, values)
       case TimeByHandle(h, _, values) => ValuesFit(h, values)
       case RecordValue(h, _, _, values) => ValuesFit(h, values)
  }

  // ----- attributes of a point

  /** What the vendor said about a point, apart from its amount. A counter, measure or value
      without a label or unit has an empty one. */
  datatype Identity = Identity(
    instrument: Instrument, name: string, tag: string, unit: string, dims: map<Key, string>)
  {
    predicate Proper() {
      forall k :: k in dims ==> k.Dim?
    }
  }

  function IdentityOf(c: Call): (id: Identity)
    requires Accepted(c)
    ensures id.Proper()
  {
    match c
    case CountNamed(name, _, tag) => Identity(Counter, name, tag, "", map[])
    case CountByHandle(h, _, values) => Identity(Counter, h.name, "", "", Zip(h.keys, values))
    case TimeNamed(name, _, tag) => Identity(Measure, name, tag, "", map[])
    case TimeByHandle(h, _, values) => Identity(Measure, h.name, "", "", Zip(h.keys, values))
    case RecordValue(h, unit, _, values) => Identity(ValueHistogram, h.name, "", unit, Zip(h.keys, values))
  }

  function NameKey(instrument: Instrument): Key {
    if instrument == Counter then CounterName else if instrument == Measure then MeasureName else ValueName
  }

  function LabelKey(instrument: Instrument): Key {
    if instrument == Measure then MeasureLabel else CounterLabel
  }

  function AmountOf(c: Call): Amount
    requires AmountFits(c)
  {
    match c
    case CountNamed(_, n, _) => Count(n)
    case CountByHandle(_, n, _) => Count(n)
    case TimeNamed(_, d, _) => Nanos(d)
    case TimeByHandle(_, d, _) => Nanos(d)
    case RecordValue(_, _, v, _) => Quantity(v.r)
  }

  /** Each key with the value at its own position. */
  function Zip(keys: seq<Key>, values: seq<string>): (m: map<Key, string>)
    requires |values| == |keys| && Distinct(keys)
    ensures forall k :: k in m <==> k in keys
    ensures forall i :: 0 <= i < |keys| ==> m[keys[i]] == values[i]
  {
    map i | 0 <= i < |keys| :: keys[i] := values[i]
  }

  /** The full description of a point: tier, name, label, dimensions, unit, the command current
      when it was recorded and the install ID published by then. */
  function PointField(id: Identity, tier: Tier, command: Option<string>, install: Option<string>,
                      k: Key): Option<Value> {
    if k == TierKey then Plain(tier.Wire())
    else if k == NameKey(id.instrument) then Plain(id.name)
    else if k == LabelKey(id.instrument) then NonEmpty(id.tag)
    else if k == ValueUnit then NonEmpty(id.unit)
    else if k == CommandName then (if command.Some? then Plain(command.value) else None)
    else if k == InstallId then (if install.Some? then NonEmpty(install.value) else None)
    else if k in id.dims then Plain(id.dims[k])
    else None
  }

  /** The attribute set of a point: the fields that are there and that the tier allows. */
  function PointAttrs(id: Identity, tier: Tier, command: Option<string>, install: Option<string>): Attrs {
    map k | k in {TierKey, NameKey(id.instrument), LabelKey(id.instrument), ValueUnit, CommandName, InstallId}
          + id.dims.Keys
            && tier.Allows(k.MinTier()) && PointField(id, tier, command, install, k).Some?
      :: PointField(id, tier, command, install, k).value
  }

  lemma PointAttr(id: Identity, tier: Tier, command: Option<string>, install: Option<string>, k: Key)
    requires id.Proper()
    ensures var f := PointField(id, tier, command, install, k);
            var a := PointAttrs(id, tier, command, install);
            && (k in a <==> f.Some? && tier.Allows(k.MinTier()))
            && (k in a ==> a[k] == f.value)
  {
  }

  // ----- attribute lists as the code builds them

  /** An attribute list as a set: a repeated key keeps its last value. */
  function ToAttrs(list: seq<(Key, Value)>): Attrs {
    if list == [] then map[]
    else ToAttrs(list[..|list| - 1])[list[|list| - 1].0 := list[|list| - 1].1]
  }

  predicate DistinctKeys(list: seq<(Key, Value)>) {
    forall i, j :: 0 <= i < j < |list| ==> list[i].0 != list[j].0
  }

  lemma ToAttrsAppend(list: seq<(Key, Value)>, k: Key, v: Value)
    ensures ToAttrs(list + [(k, v)]) == ToAttrs(list)[k := v]
  {
    assert (list + [(k, v)])[..|list|] == list;
  }

  lemma {:induction false} ToAttrsKeys(list: seq<(Key, Value)>)
    ensures forall k :: k in ToAttrs(list) <==> exists i :: 0 <= i < |list| && list[i].0 == k
  {
    if list != [] {
      var init := list[..|list| - 1];
      ToAttrsKeys(init);
      forall k
        ensures k in ToAttrs(list) <==> exists i :: 0 <= i < |list| && list[i].0 == k
      {
        if k in ToAttrs(init) {
          var i :| 0 <= i < |init| && init[i].0 == k;
          assert list[i].0 == k;
        }
        if i :| 0 <= i < |list| && list[i].0 == k && i < |init| {
          assert init[i].0 == k;
        }
      }
    }
  }

  /** Adding a key the list does not have yet keeps its keys distinct. */
  lemma AppendKeepsKeysDistinct(list: seq<(Key, Value)>, k: Key, v: Value)
    requires DistinctKeys(list) && k !in ToAttrs(list)
    ensures DistinctKeys(list + [(k, v)])
    ensures ToAttrs(list + [(k, v)]) == ToAttrs(list)[k := v]
  {
    ToAttrsKeys(list);
    ToAttrsAppend(list, k, v);
  }

  // ----- building the list gives the set

  function DimAttrs(dims: map<Key, string>): Attrs {
    map k | k in dims :: Text(dims[k])
  }

  lemma DimAttrsSnoc(base: Attrs, dims: map<Key, string>, k: Key, v: string)
    ensures base + DimAttrs(dims[k := v]) == (base + DimAttrs(dims))[k := Text(v)]
  {
  }

  function Put(a: Attrs, k: Key, f: Option<Value>): Attrs {
    if f.Some? then a[k := f.value] else a
  }

  function TextField(text: Option<string>): Option<Value> {
    if text.Some? then Plain(text.value) else None
  }

  function InstallField(tier: Tier, install: Option<string>): Option<Value> {
    if tier.Allows(Basic) && install.Some? then NonEmpty(install.value) else None
  }

  /** A point's attributes put together one after the other. */
  function Assembled(id: Identity, tier: Tier, command: Option<string>, install: Option<string>): Attrs {
    var b := Put(Put(Opening(id, tier), CommandName, TextField(command)), InstallId, InstallField(tier, install));
    Put(Put(b, LabelKey(id.instrument), NonEmpty(id.tag)), ValueUnit, NonEmpty(id.unit))
  }

  lemma AssembledIsPointAttrs(id: Identity, tier: Tier, command: Option<string>, install: Option<string>)
    requires id.Proper()
    ensures Assembled(id, tier, command, install) == PointAttrs(id, tier, command, install)
  {
    forall k: Key
      ensures k in Assembled(id, tier, command, install) <==> k in PointAttrs(id, tier, command, install)
      ensures k in Assembled(id, tier, command, install) ==>
                Assembled(id, tier, command, install)[k] == PointAttrs(id, tier, command, install)[k]
    {
      AssembledAt(id, tier, command, install, k);
      PointAttr(id, tier, command, install, k);
    }
    SameAttrs(Assembled(id, tier, command, install), PointAttrs(id, tier, command, install));
  }

  lemma AssembledAt(id: Identity, tier: Tier, command: Option<string>, install: Option<string>, k: Key)
    requires id.Proper()
    ensures var f := PointField(id, tier, command, install, k);
            var a := Assembled(id, tier, command, install);
            && (k in a <==> f.Some? && tier.Allows(k.MinTier()))
            && (k in a ==> a[k] == f.value)
  {
    if k.Dim? {
      AssembledAtDim(id, tier, command, install, k);
    } else {
      AssembledAtOther(id, tier, command, install, k);
    }
  }

  lemma AssembledAtDim(id: Identity, tier: Tier, command: Option<string>, install: Option<string>, k: Key)
    requires id.Proper() && k.Dim?
    ensures var a := Assembled(id, tier, command, install);
            && (k in a <==> k in id.dims)
            && (k in a ==> a[k] == Text(id.dims[k]))
  {
  }

  lemma PutAt(a: Attrs, k: Key, f: Option<Value>, j: Key)
    ensures j in Put(a, k, f) <==> j in a || (j == k && f.Some?)
    ensures j in Put(a, k, f) ==> Put(a, k, f)[j] == if j == k && f.Some? then f.value else a[j]
  {
  }

  /** Four additions, of keys that are not there yet. */
  lemma PutsAt(a: Attrs, command: Option<Value>, install: Option<Value>, labelKey: Key, tag: Option<Value>,
               unit: Option<Value>, k: Key)
    requires labelKey == CounterLabel || labelKey == MeasureLabel
    requires CommandName !in a && InstallId !in a && labelKey !in a && ValueUnit !in a
    ensures var r := Put(Put(Put(Put(a, CommandName, command), InstallId, install), labelKey, tag), ValueUnit, unit);
            var f := if k == CommandName then command else if k == InstallId then install else if k == labelKey then tag
                     else if k == ValueUnit then unit else if k in a then Some(a[k]) else None;
            (k in r <==> f.Some?) && (k in r ==> r[k] == f.value)
  {
    var b := Put(a, CommandName, command);
    var c := Put(b, InstallId, install);
    var d := Put(c, labelKey, tag);
    PutAt(a, CommandName, command, k);
    PutAt(b, InstallId, install, k);
    PutAt(c, labelKey, tag, k);
    PutAt(d, ValueUnit, unit, k);
  }

  function Opening(id: Identity, tier: Tier): Attrs {
    map[TierKey := Text(tier.Wire()), NameKey(id.instrument) := Text(id.name)] + DimAttrs(id.dims)
  }

  lemma OpeningAt(id: Identity, tier: Tier, k: Key)
    requires id.Proper() && !k.Dim?
    ensures k in Opening(id, tier) <==> k == TierKey || k == NameKey(id.instrument)
    ensures k in Opening(id, tier) ==> Opening(id, tier)[k] == Text(if k == TierKey then tier.Wire() else id.name)
  {
  }

  lemma AssembledAtOther(id: Identity, tier: Tier, command: Option<string>, install: Option<string>, k: Key)
    requires id.Proper() && !k.Dim?
    ensures var f := PointField(id, tier, command, install, k);
            var a := Assembled(id, tier, command, install);
            && (k in a <==> f.Some? && tier.Allows(k.MinTier()))
            && (k in a ==> a[k] == f.value)
  {
    var a := Opening(id, tier);
    OpeningAt(id, tier, k);
    OpeningAt(id, tier, CommandName);
    OpeningAt(id, tier, InstallId);
    OpeningAt(id, tier, LabelKey(id.instrument));
    OpeningAt(id, tier, ValueUnit);
    PutsAt(a, TextField(command), InstallField(tier, install), LabelKey(id.instrument), NonEmpty(id.tag),
           NonEmpty(id.unit), k);
    OtherField(id, tier, command, install, k);
  }

  lemma OtherField(id: Identity, tier: Tier, command: Option<string>, install: Option<string>, k: Key)
    requires id.Proper() && !k.Dim?
    ensures var f := PointField(id, tier, command, install, k);
            var g := if k == CommandName then TextField(command) else if k == InstallId then InstallField(tier, install)
                     else if k == LabelKey(id.instrument) then NonEmpty(id.tag)
                     else if k == ValueUnit then NonEmpty(id.unit)
                     else if k == TierKey then Plain(tier.Wire())
                     else if k == NameKey(id.instrument) then Plain(id.name)
                     else None;
            && (g.Some? <==> f.Some? && tier.Allows(k.MinTier()))
            && (g.Some? ==> g == f)
  {
  }

  lemma SameAttrs(a: Attrs, b: Attrs)
    requires forall k :: k in a <==> k in b
    requires forall k :: k in a ==> a[k] == b[k]
    ensures a == b
  {
  }

  lemma ZipAppend(keys: seq<Key>, values: seq<string>, k: Key, v: string)
    requires |values| == |keys| && Distinct(keys + [k])
    ensures Distinct(keys) && k !in Zip(keys, values)
    ensures Zip(keys + [k], values + [v]) == Zip(keys, values)[k := v]
  {
    forall i | 0 <= i < |keys|
      ensures keys[i] != k && (keys + [k])[i] == keys[i]
    {
      assert (keys + [k])[i] != (keys + [k])[|keys|];
    }
    var a, b := Zip(keys + [k], values + [v]), Zip(keys, values)[k := v];
    forall i | 0 <= i < |keys + [k]|
      ensures b[(keys + [k])[i]] == (values + [v])[i]
    {
    }
    assert a.Keys == b.Keys;
  }

  method Append(attrs: seq<(Key, Value)>, k: Key, v: Value) returns (r: seq<(Key, Value)>)
    requires DistinctKeys(attrs) && k !in ToAttrs(attrs)
    ensures DistinctKeys(r) && ToAttrs(r) == ToAttrs(attrs)[k := v]
  {
    AppendKeepsKeysDistinct(attrs, k, v);
    r := attrs + [(k, v)];
  }

  /** A label that is empty is left out; one that is no identifier spoils the call. */
  method AppendLabel(attrs: seq<(Key, Value)>, k: Key, tag: string) returns (r: seq<(Key, Value)>, ok: bool)
    requires DistinctKeys(attrs) && k !in ToAttrs(attrs)
    ensures ok <==> LabelFits(tag)
    ensures ok ==> DistinctKeys(r) && ToAttrs(r) == Put(ToAttrs(attrs), k, NonEmpty(tag))
  {
    if tag == "" {
      return attrs, true;
    }
    ok := CheckIdentifier(tag);
    if !ok {
      return attrs, false;
    }
    r := Append(attrs, k, Text(tag));
    ok := true;
  }

  /** The end of the list RecordCounter and RecordDuration build: install ID, label, command. */
  method AppendContext(attrs: seq<(Key, Value)>, install: Option<string>, labelKey: Key, tag: string,
                       command: Option<string>)
      returns (r: seq<(Key, Value)>, ok: bool)
    requires labelKey == CounterLabel || labelKey == MeasureLabel
    requires DistinctKeys(attrs) && forall k :: k in ToAttrs(attrs) ==>
               k != InstallId && k != labelKey && k != CommandName
    ensures ok <==> LabelFits(tag)
    ensures ok ==> DistinctKeys(r)
    ensures ok ==>
              var labelled := Put(Put(ToAttrs(attrs), InstallId, TextField(install)), labelKey, NonEmpty(tag));
              ToAttrs(r) == Put(labelled, CommandName, TextField(command))
  {
    r := attrs;
    if install.Some? {
      r := Append(r, InstallId, Text(install.value));
    }
    r, ok := AppendLabel(r, labelKey, tag);
    if !ok {
      return;
    }
    if command.Some? {
      r := Append(r, CommandName, Text(command.value));
    }
  }

  lemma ReorderPuts(a: Attrs, install: Option<Value>, labelKey: Key, tag: Option<Value>, command: Option<Value>)
    requires labelKey == CounterLabel || labelKey == MeasureLabel
    ensures Put(Put(Put(a, InstallId, install), labelKey, tag), CommandName, command) ==
            Put(Put(Put(Put(a, CommandName, command), InstallId, install), labelKey, tag), ValueUnit, None)
  {
  }

  ghost predicate Unused(keys: seq<Key>, list: seq<(Key, Value)>) {
    forall i :: 0 <= i < |keys| ==> keys[i] !in ToAttrs(list)
  }

  /** The dimensions as a list, each key with the value at its own position. */
  function DimList(keys: seq<Key>, values: seq<string>): seq<(Key, Value)>
    requires |values| == |keys|
  {
    if keys == [] then []
    else
      var last := |keys| - 1;
      DimList(keys[..last], values[..last]) + [(keys[last], Text(values[last]))]
  }

  /** `attrs` is `list` with the dimensions added, as a list without repeated keys and as a set. */
  ghost predicate WithDims(attrs: seq<(Key, Value)>, list: seq<(Key, Value)>, dims: map<Key, string>) {
    DistinctKeys(attrs) && ToAttrs(attrs) == ToAttrs(list) + DimAttrs(dims)
  }

  lemma WithOneMoreDim(attrs: seq<(Key, Value)>, list: seq<(Key, Value)>, dims: map<Key, string>, k: Key, v: string)
    requires WithDims(attrs, list, dims) && k !in ToAttrs(list) && k !in dims
    ensures WithDims(attrs + [(k, Text(v))], list, dims[k := v])
  {
    DimAttrsSnoc(ToAttrs(list), dims, k, v);
    AppendKeepsKeysDistinct(attrs, k, Text(v));
  }

  lemma DimStep(list: seq<(Key, Value)>, more: seq<(Key, Value)>, keys: seq<Key>, values: seq<string>, k: Key,
                v: string)
    requires |values| == |keys| && Distinct(keys + [k]) && k !in ToAttrs(list)
    requires Distinct(keys) && WithDims(list + more, list, Zip(keys, values))
    ensures WithDims(list + (more + [(k, Text(v))]), list, Zip(keys + [k], values + [v]))
  {
    ZipAppend(keys, values, k, v);
    WithOneMoreDim(list + more, list, Zip(keys, values), k, v);
    Associative(list, more, [(k, Text(v))]);
  }

  lemma UnusedSplit(keys: seq<Key>, k: Key, list: seq<(Key, Value)>)
    requires Distinct(keys + [k]) && Unused(keys + [k], list)
    ensures Distinct(keys) && Unused(keys, list) && k !in ToAttrs(list)
  {
    var all := keys + [k];
    assert all[|keys|] == k && forall i :: 0 <= i < |keys| ==> all[i] == keys[i];
  }

  lemma {:induction false} DimListAddsDims(list: seq<(Key, Value)>, keys: seq<Key>, values: seq<string>)
    requires DistinctKeys(list) && |values| == |keys| && Distinct(keys) && Unused(keys, list)
    ensures WithDims(list + DimList(keys, values), list, Zip(keys, values))
  {
    if keys == [] {
      NoDims(list);
    } else {
      var last := |keys| - 1;
      var ks, vs := keys[..last], values[..last];
      assert keys == ks + [keys[last]] && values == vs + [values[last]];
      UnusedSplit(ks, keys[last], list);
      DimListAddsDims(list, ks, vs);
      DimStep(list, DimList(ks, vs), ks, vs, keys[last], values[last]);
    }
  }

  lemma NoDims(list: seq<(Key, Value)>)
    requires DistinctKeys(list)
    ensures WithDims(list + [], list, Zip([], []))
  {
    assert list + [] == list && DimAttrs(Zip([], [])) == map[];
  }

  lemma DimListSnoc(keys: seq<Key>, values: seq<string>, i: nat)
    requires |values| == |keys| && i < |keys|
    ensures DimList(keys[..i + 1], values[..i + 1]) == DimList(keys[..i], values[..i]) + [(keys[i], Text(values[i]))]
  {
    assert keys[..i + 1][..i] == keys[..i] && values[..i + 1][..i] == values[..i];
  }

  /** The loop of metricHandle.attrs: one attribute per declared key, unless a value is bad. */
  method AppendDims(list: seq<(Key, Value)>, keys: seq<Key>, values: seq<string>)
      returns (attrs: seq<(Key, Value)>, ok: bool)
    requires DistinctKeys(list) && |values| == |keys| && Distinct(keys) && Unused(keys, list)
    ensures ok <==> forall i :: 0 <= i < |values| ==> ValidIdentifier(values[i])
    ensures ok ==> WithDims(attrs, list, Zip(keys, values))
  {
    attrs := list;
    for i := 0 to |values|
      invariant attrs == list + DimList(keys[..i], values[..i])
      invariant forall j :: 0 <= j < i ==> ValidIdentifier(values[j])
    {
      ok := CheckIdentifier(values[i]);
      if !ok {
        return attrs, false;
      }
      DimListSnoc(keys, values, i);
      attrs := attrs + [(keys[i], Text(values[i]))];
    }
    ok := true;
    assert keys[..|keys|] == keys && values[..|values|] == values;
    DimListAddsDims(list, keys, values);
  }

  // ----- when two points fall into one series

  /** Two accepted calls on one instrument of one client fall into the same series exactly when
      name, label, unit, value per dimension, current command and attached install ID agree. No ID
      published yet and an empty one published, because it could not be persisted, attach the same:
      nothing. */
  lemma SeriesNeverMerge(c1: Call, c2: Call, tier: Tier, cmd1: Option<string>, cmd2: Option<string>,
                         id1: Option<string>, id2: Option<string>)
    requires Accepted(c1) && Accepted(c2) && IdentityOf(c1).instrument == IdentityOf(c2).instrument
    ensures PointAttrs(IdentityOf(c1), tier, cmd1, id1) == PointAttrs(IdentityOf(c2), tier, cmd2, id2)
       <==> IdentityOf(c1) == IdentityOf(c2) && cmd1 == cmd2 && InstallField(tier, id1) == InstallField(tier, id2)
  {
    var i1, i2 := IdentityOf(c1), IdentityOf(c2);
    if PointAttrs(i1, tier, cmd1, id1) == PointAttrs(i2, tier, cmd2, id2) {
      NamesAgree(i1, i2, tier, cmd1, cmd2, id1, id2);
      DimensionsAgree(i1, i2, tier, cmd1, cmd2, id1, id2);
      CommandsAgree(i1, i2, tier, cmd1, cmd2, id1, id2);
      if tier.Allows(Basic) {
        InstallIdsAgree(i1, i2, tier, cmd1, cmd2, id1, id2);
      }
    } else if i1 == i2 && cmd1 == cmd2 && InstallField(tier, id1) == InstallField(tier, id2) {
      IdentityDecidesAttrs(i1, tier, cmd1, id1, id2);
    }
  }

  /** Equal attribute sets describe equal fields, key by key. */
  lemma FieldsAgreeAt(i1: Identity, i2: Identity, tier: Tier, cmd1: Option<string>, cmd2: Option<string>,
                      id1: Option<string>, id2: Option<string>, k: Key)
    requires i1.Proper() && i2.Proper() && tier.Allows(k.MinTier())
    requires PointAttrs(i1, tier, cmd1, id1) == PointAttrs(i2, tier, cmd2, id2)
    ensures PointField(i1, tier, cmd1, id1, k) == PointField(i2, tier, cmd2, id2, k)
  {
    PointAttr(i1, tier, cmd1, id1, k);
    PointAttr(i2, tier, cmd2, id2, k);
  }

  lemma DimensionsAgree(i1: Identity, i2: Identity, tier: Tier, cmd1: Option<string>, cmd2: Option<string>,
                        id1: Option<string>, id2: Option<string>)
    requires i1.Proper() && i2.Proper()
    requires PointAttrs(i1, tier, cmd1, id1) == PointAttrs(i2, tier, cmd2, id2)
    ensures i1.dims == i2.dims
  {
    forall k: Key | k.Dim?
      ensures k in i1.dims <==> k in i2.dims
      ensures k in i1.dims ==> i1.dims[k] == i2.dims[k]
    {
      FieldsAgreeAt(i1, i2, tier, cmd1, cmd2, id1, id2, k);
    }
  }

  lemma NamesAgree(i1: Identity, i2: Identity, tier: Tier, cmd1: Option<string>, cmd2: Option<string>,
                   id1: Option<string>, id2: Option<string>)
    requires i1.Proper() && i2.Proper() && i1.instrument == i2.instrument
    requires PointAttrs(i1, tier, cmd1, id1) == PointAttrs(i2, tier, cmd2, id2)
    ensures i1.name == i2.name && i1.tag == i2.tag && i1.unit == i2.unit
  {
    FieldsAgreeAt(i1, i2, tier, cmd1, cmd2, id1, id2, NameKey(i1.instrument));
    FieldsAgreeAt(i1, i2, tier, cmd1, cmd2, id1, id2, LabelKey(i1.instrument));
    FieldsAgreeAt(i1, i2, tier, cmd1, cmd2, id1, id2, ValueUnit);
  }

  lemma CommandsAgree(i1: Identity, i2: Identity, tier: Tier, cmd1: Option<string>, cmd2: Option<string>,
                      id1: Option<string>, id2: Option<string>)
    requires i1.Proper() && i2.Proper()
    requires PointAttrs(i1, tier, cmd1, id1) == PointAttrs(i2, tier, cmd2, id2)
    ensures cmd1 == cmd2
  {
    FieldsAgreeAt(i1, i2, tier, cmd1, cmd2, id1, id2, CommandName);
  }

  lemma InstallIdsAgree(i1: Identity, i2: Identity, tier: Tier, cmd1: Option<string>, cmd2: Option<string>,
                        id1: Option<string>, id2: Option<string>)
    requires i1.Proper() && i2.Proper() && tier.Allows(Basic)
    requires PointAttrs(i1, tier, cmd1, id1) == PointAttrs(i2, tier, cmd2, id2)
    ensures InstallField(tier, id1) == InstallField(tier, id2)
  {
    FieldsAgreeAt(i1, i2, tier, cmd1, cmd2, id1, id2, InstallId);
  }

  lemma IdentityDecidesAttrs(i: Identity, tier: Tier, cmd: Option<string>, id1: Option<string>, id2: Option<string>)
    requires i.Proper() && InstallField(tier, id1) == InstallField(tier, id2)
    ensures PointAttrs(i, tier, cmd, id1) == PointAttrs(i, tier, cmd, id2)
  {
    AssembledIsPointAttrs(i, tier, cmd, id1);
    AssembledIsPointAttrs(i, tier, cmd, id2);
  }

  // ----- sums

  /** The points of one instrument, in the order they were added. */
  datatype Added = Added(attrs: Attrs, n: int)

  function AddedBy(r: Record): seq<Added> {
    if r.signal.Point? && r.signal.instrument == Counter && r.signal.amount.Count?
    then [Added(r.attrs, r.signal.amount.n)]
    else []
  }

  /** What data points add to the counter instrument, in order. */
  function CounterAdds(points: seq<Record>): seq<Added> {
    if points == [] then [] else CounterAdds(points[..|points| - 1]) + AddedBy(points[|points| - 1])
  }

  lemma CounterAddsAppend(points: seq<Record>, r: Record)
    ensures CounterAdds(points + [r]) == CounterAdds(points) + AddedBy(r)
  {
    assert (points + [r])[..|points|] == points;
  }

  function Total(points: seq<Added>, attrs: Attrs): int {
    if points == [] then 0
    else (if points[|points| - 1].attrs == attrs then points[|points| - 1].n else 0)
          + Total(points[..|points| - 1], attrs)
  }

  function GrandTotal(points: seq<Added>): int {
    if points == [] then 0 else points[|points| - 1].n + GrandTotal(points[..|points| - 1])
  }

  /** A counter instrument keeps one running sum per attribute set. */
  class CounterInstrument {
    var sums: map<Attrs, int>
    ghost var added: seq<Added>

    ghost predicate Valid()
      reads this
    {
      Sums(sums, added)
    }

    constructor ()
      ensures Valid() && sums == map[] && added == []
    {
      sums := map[];
      added := [];
    }

    method Add(n: int, attrs: Attrs)
      requires Valid()
      modifies this
      ensures Valid()
      ensures added == old(added) + [Added(attrs, n)]
      ensures sums == old(sums)[attrs := (if attrs in old(sums) then old(sums)[attrs] else 0) + n]
    {
      SumsStep(sums, added, Added(attrs, n));
      sums := sums[attrs := (if attrs in sums then sums[attrs] else 0) + n];
      added := added + [Added(attrs, n)];
    }
  }

  /** One sum for every attribute set that was added, and it is that set's total. */
  ghost predicate Sums(sums: map<Attrs, int>, added: seq<Added>) {
    && (forall a :: a in sums <==> exists i :: 0 <= i < |added| && added[i].attrs == a)
    && (forall a :: a in sums ==> sums[a] == Total(added, a))
  }

  lemma SumsStep(sums: map<Attrs, int>, added: seq<Added>, p: Added)
    requires Sums(sums, added)
    ensures Sums(sums[p.attrs := (if p.attrs in sums then sums[p.attrs] else 0) + p.n], added + [p])
  {
    var after := added + [p];
    assert after[..|after| - 1] == added && after[|added|] == p;
    assert forall i :: 0 <= i < |added| ==> after[i] == added[i];
    if p.attrs !in sums {
      TotalOfAbsent(added, p.attrs);
    }
  }

  lemma {:induction false} TotalOfAbsent(points: seq<Added>, attrs: Attrs)
    requires forall i :: 0 <= i < |points| ==> points[i].attrs != attrs
    ensures Total(points, attrs) == 0
  {
    if points != [] {
      TotalOfAbsent(points[..|points| - 1], attrs);
    }
  }

  /** The sum of `Total` over a list of attribute sets. */
  function SumOver(points: seq<Added>, all: seq<Attrs>): int {
    if all == [] then 0 else Total(points, all[0]) + SumOver(points, all[1..])
  }

  lemma {:induction false} SumOverStep(points: seq<Added>, all: seq<Attrs>)
    requires points != [] && Distinct(all)
    ensures SumOver(points, all) == SumOver(points[..|points| - 1], all) +
              (if points[|points| - 1].attrs in all then points[|points| - 1].n else 0)
  {
    if all != [] {
      assert Distinct(all[1..]);
      SumOverStep(points, all[1..]);
      var last := points[|points| - 1].attrs;
      assert last in all <==> last == all[0] || last in all[1..];
      if last == all[0] {
        assert last !in all[1..];
      }
    }
  }

  lemma {:induction false} SumOverNothing(all: seq<Attrs>)
    ensures SumOver([], all) == 0
  {
    if all != [] {
      SumOverNothing(all[1..]);
    }
  }

  /** Nothing is counted twice or lost: over any list of all series, each once, the per-series
      totals add up to everything that was added. */
  lemma {:induction false} SeriesTotalsAddUp(points: seq<Added>, all: seq<Attrs>)
    requires Distinct(all)
    requires forall i :: 0 <= i < |points| ==> points[i].attrs in all
    ensures SumOver(points, all) == GrandTotal(points)
  {
    if points == [] {
      SumOverNothing(all);
    } else {
      SumOverStep(points, all);
      SeriesTotalsAddUp(points[..|points| - 1], all);
    }
  }

  /** The values of a map over a list of its keys. */
  function SumOfValues(sums: map<Attrs, int>, all: seq<Attrs>): int
    requires forall a :: a in all ==> a in sums
  {
    if all == [] then 0 else sums[all[0]] + SumOfValues(sums, all[1..])
  }

  lemma {:induction false} ValuesAreTotals(sums: map<Attrs, int>, added: seq<Added>, all: seq<Attrs>)
    requires Sums(sums, added) && forall a :: a in all ==> a in sums
    ensures SumOfValues(sums, all) == SumOver(added, all)
  {
    if all != [] {
      assert all[0] in sums;
      ValuesAreTotals(sums, added, all[1..]);
    }
  }

  /** What a counter instrument holds, over all its series, is everything that was added to it. */
  lemma SumsAddUp(sums: map<Attrs, int>, added: seq<Added>, all: seq<Attrs>)
    requires Sums(sums, added) && Distinct(all) && forall a :: a in all <==> a in sums
    ensures SumOfValues(sums, all) == GrandTotal(added)
  {
    ValuesAreTotals(sums, added, all);
    SeriesTotalsAddUp(added, all);
  }
}
