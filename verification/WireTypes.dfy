/** What a successful parse returns has the requested type, up to defaults, permitted nulls and the raw
    values of enums that do not know them. */
module WireTypes {
  import opened Wrappers
  import opened Wire
  import opened WireRoundTrip

  // Types that turn null into None (or Nullable) by themselves.
  predicate AcceptsNull(ty: Ty) {
    match ty
    case NoneTy => true
    case NullableTy => true
    case AnyTy => true
    case UnionTy(alts) => exists i :: 0 <= i < |alts| && AcceptsNull(alts[i])
    case _ => false
  }

  /** r has type `ty`; the exceptions come first. */
  ghost predicate Inhabits(ctx: Context, name: string, r: Value, ty: Ty, allowNone: bool)
    decreases r, ty, 0
  {
    || (NullOnWire(r) && (allowNone || AcceptsNull(ty)))
    || (name == NOC && r == VBytes([]))
    || match ty
       case EnumTy(id, members) =>
         || (r.VEnum? && r.id == id && r.member in members)
         || (Hashable(r) && Canonical(r) !in members)
       case SeqTy(kind, element) =>
         && r.VSeq? && r.kind == kind
         && (forall i :: 0 <= i < |r.elements| ==> Inhabits(ctx, name, r.elements[i], element, false))
         && (kind == SetKind ==> IsSet(r.elements))
       case DictTy(key, value) =>
         && r.VDict? && DistinctKeys(r.entries)
         && forall i :: 0 <= i < |r.entries| ==> EntryInhabits(ctx, r.entries[i], key, value, allowNone)
       case UnionTy(alts) => exists i :: 0 <= i < |alts| && Inhabits(ctx, name, r, alts[i], allowNone)
       case ClassTy(c) =>
         && r.VObject? && r.cls == c && |r.fields| == |ctx.classes(c).fields|
         && forall i :: 0 <= i < |r.fields| ==> FieldInhabits(ctx, ctx.classes(c), i, r.fields[i], true)
       case AnyTy => true
       case _ => IsInstance(r, ty)
  }

  // A key that reads "NOCStruct.noc" is no bytes at all.
  ghost predicate EntryInhabits(ctx: Context, e: Entry, key: Ty, value: Ty, allowNone: bool)
    decreases e, value, 1
  {
    Inhabits(ctx, NOC, e.key, key, false) && Inhabits(ctx, "", e.value, value, allowNone)
  }

  ghost predicate FieldInhabits(ctx: Context, c: Class, i: nat, v: Value, allowNone: bool)
    requires i < |c.fields|
    decreases v, c.fields[i].ty, 1
  {
    c.fields[i].default == Some(v) || Inhabits(ctx, FieldName(c, i), v, c.fields[i].ty, allowNone)
  }

  /* ---- JSON in ---- */

  lemma {:induction false} RenamedJson(tags: map<nat, string>, es: seq<Entry>)
    requires IsJson(VDict(es))
    ensures IsJson(VDict(Renamed(tags, es)))
  {
    if es != [] {
      JsonTail(es);
      RenamedJson(tags, es[1..]);
      var out := Renamed(tags, es);
      forall i | 0 <= i < |out| ensures IsJsonEntry(out[i]) {
        if i > 0 { assert out[i] == Renamed(tags, es[1..])[i - 1]; } else { assert IsJsonEntry(es[0]); }
      }
    }
  }

  lemma JsonTail(es: seq<Entry>)
    requires es != [] && IsJson(VDict(es))
    ensures IsJson(VDict(es[1..])) && IsJsonEntry(es[0])
  {
    forall i | 0 <= i < |es[1..]| ensures IsJsonEntry(es[1..][i]) { assert es[1..][i] == es[i + 1]; }
  }

  lemma {:induction false} KeptJson(vs: seq<Value>)
    requires forall i :: 0 <= i < |vs| ==> IsJson(vs[i])
    ensures forall i :: 0 <= i < |NonNull(vs)| ==> IsJson(NonNull(vs)[i])
  {
    hide IsJson;
    if vs != [] {
      forall i | 0 <= i < |vs[1..]| ensures IsJson(vs[1..][i]) { assert vs[1..][i] == vs[i + 1]; }
      KeptJson(vs[1..]);
    }
  }

  lemma FoundJson(es: seq<Entry>, key: Value)
    requires IsJson(VDict(es))
    ensures Get(es, key).Some? ==> IsJson(Get(es, key).value)
  {
    if Get(es, key).Some? {
      var i := GetSomewhere(es, key);
      assert IsJsonEntry(es[i]);
    }
  }

  /* ---- Accumulators ---- */

  lemma AddedSet(vs: seq<Value>, v: Value)
    requires IsSet(vs) && Hashable(v)
    ensures IsSet(Added(SetKind, vs, v))
  {
    hide Hashable, Canonical;
  }

  lemma AddedElements(ctx: Context, name: string, kind: Kind, vs: seq<Value>, v: Value, element: Ty)
    requires forall i :: 0 <= i < |vs| ==> Inhabits(ctx, name, vs[i], element, false)
    requires Inhabits(ctx, name, v, element, false)
    ensures forall i :: 0 <= i < |Added(kind, vs, v)| ==> Inhabits(ctx, name, Added(kind, vs, v)[i], element, false)
  {
    hide Inhabits, Holds;
  }

  predicate HasKey(es: seq<Entry>, key: Value) {
    exists i :: 0 <= i < |es| && es[i].key == key
  }

  lemma {:induction false} PutKeys(es: seq<Entry>, k: Value, v: Value)
    requires DistinctKeys(es)
    ensures DistinctKeys(Put(es, k, v))
    ensures forall key :: HasKey(Put(es, k, v), key) ==> key == k || HasKey(es, key)
  {
    if es != [] && es[0].key != k {
      PutKeys(es[1..], k, v);
      var rest := Put(es[1..], k, v);
      forall key | HasKey(es[1..], key) ensures HasKey(es, key) && key != es[0].key {
        var j :| 0 <= j < |es[1..]| && es[1..][j].key == key;
        assert es[j + 1].key == key;
      }
      forall i | 0 <= i < |rest| ensures rest[i].key != es[0].key { assert HasKey(rest, rest[i].key); }
      assert Put(es, k, v) == [es[0]] + rest;
      forall key | HasKey(Put(es, k, v), key) ensures key == k || HasKey(es, key) {
        var j :| 0 <= j < |Put(es, k, v)| && Put(es, k, v)[j].key == key;
        if j > 0 { assert rest[j - 1].key == key && HasKey(rest, key); } else { assert es[0].key == key; }
      }
    } else if es != [] {
      assert Put(es, k, v) == [Entry(k, v)] + es[1..];
      forall key | HasKey(Put(es, k, v), key) ensures key == k || HasKey(es, key) {
        var j :| 0 <= j < |Put(es, k, v)| && Put(es, k, v)[j].key == key;
        if j > 0 { assert es[j].key == key; }
      }
    }
  }

  lemma PutInhabits(ctx: Context, es: seq<Entry>, k: Value, v: Value, key: Ty, value: Ty, allowNone: bool)
    requires forall i :: 0 <= i < |es| ==> EntryInhabits(ctx, es[i], key, value, allowNone)
    requires EntryInhabits(ctx, Entry(k, v), key, value, allowNone)
    ensures forall i :: 0 <= i < |Put(es, k, v)| ==> EntryInhabits(ctx, Put(es, k, v)[i], key, value, allowNone)
  {
    hide EntryInhabits;
    PutMembers(es, k, v);
    var out := Put(es, k, v);
    forall i | 0 <= i < |out| ensures EntryInhabits(ctx, out[i], key, value, allowNone) {
      assert out[i] in out;
      if out[i] != Entry(k, v) {
        var j :| 0 <= j < |es| && es[j] == out[i];
      }
    }
  }

  lemma {:induction false} PutMembers(es: seq<Entry>, k: Value, v: Value)
    ensures forall e :: e in Put(es, k, v) ==> e == Entry(k, v) || e in es
  {
    if es != [] { PutMembers(es[1..], k, v); }
  }

  /* ---- The parser, function by function ---- */

  /** Every successful parse of JSON returns the default of a null, or a value of the type. */
  lemma {:induction false} ParsedHasType(ctx: Context, name: string, v: Value, ty: Ty, default: Option<Value>,
                                         allowNone: bool, allowSdk: bool)
    requires IsJson(v) && ParseValue(ctx, name, v, ty, default, allowNone, allowSdk).Ok?
    ensures var r := ParseValue(ctx, name, v, ty, default, allowNone, allowSdk).value;
      (v.VNone? && default == Some(r)) || Inhabits(ctx, name, r, ty, allowNone)
    decreases Size(v), TySize(ty), 3
  {
    hide Inhabits, Get;
    if v.VNone? && (default.Some? || ty.NullableTy? || ty.NoneTy?) {
      NullInhabits(ctx, name, ty, allowNone);
    } else if v.VDict? {
      var es := Labelled(ctx, ty, v.entries);
      if ty.ClassTy? && ctx.classes(ty.cls).tags.Some? {
        RenamedSize(ctx.classes(ty.cls).tags.value, v.entries);
        RenamedJson(ctx.classes(ty.cls).tags.value, v.entries);
      }
      if Get(es, TLV_VALUE) == Some(VNone) {
        NullInhabits(ctx, name, ty, allowNone);
        if !ty.NullableTy? && !ty.AnyTy? { TypedHasType(ctx, name, VNone, ty, allowNone, allowSdk); }
      } else {
        TypedHasType(ctx, name, VDict(es), ty, allowNone, allowSdk);
      }
    } else {
      TypedHasType(ctx, name, v, ty, allowNone, allowSdk);
    }
  }

  lemma NullInhabits(ctx: Context, name: string, ty: Ty, allowNone: bool)
    ensures AcceptsNull(ty) || allowNone ==>
      Inhabits(ctx, name, VNone, ty, allowNone) && Inhabits(ctx, name, VNullable, ty, allowNone)
  {
  }

  lemma {:induction false} TypedHasType(ctx: Context, name: string, v: Value, ty: Ty, allowNone: bool, allowSdk: bool)
    requires IsJson(v) && ParseByType(ctx, name, v, ty, allowNone, allowSdk).Ok?
    ensures Inhabits(ctx, name, ParseByType(ctx, name, v, ty, allowNone, allowSdk).value, ty, allowNone)
    decreases Size(v), TySize(ty), 2
  {
    hide Inhabits;
    if ty.ClassTy? && v.VDict? {
      ObjectHasType(ctx, ty.cls, v.entries, false, false);
      ObjectInhabits(ctx, name, ParseByType(ctx, name, v, ty, allowNone, allowSdk).value, ty.cls, allowNone);
    } else if ty.SeqTy? && v.VSeq? {
      KeptJson(v.elements);
      ElementsHaveType(ctx, name, NonNull(v.elements), ty.element, ty.kind, []);
      SeqInhabits(ctx, name, ParseByType(ctx, name, v, ty, allowNone, allowSdk).value, ty.kind, ty.element, allowNone);
    } else if ty.DictTy? {
      EntriesHaveType(ctx, v.entries, ty.key, ty.value, allowNone, allowSdk, []);
      DictInhabits(ctx, name, ParseByType(ctx, name, v, ty, allowNone, allowSdk).value, ty.key, ty.value, allowNone);
    } else if ty.UnionTy? {
      var alts := ty.alternatives;
      if (v.VNone? && NullableTy in alts && allowSdk) || NoneTy in alts {
        var i :| 0 <= i < |alts| && (alts[i] == NullableTy || alts[i] == NoneTy);
        assert AcceptsNull(alts[i]);
        NullInhabits(ctx, name, ty, allowNone);
      }
      if ParseUnion(ctx, name, v, alts, allowNone, allowSdk).Ok? {
        UnionHasType(ctx, name, v, alts, allowNone, allowSdk);
        UnionInhabits(ctx, name, ParseUnion(ctx, name, v, alts, allowNone, allowSdk).value, alts, allowNone);
      }
    } else if ty.AnyTy? {
      AnyInhabits(ctx, name, v, allowNone);
    } else if v.VNone? {
      NullInhabits(ctx, name, ty, allowNone);
    } else {
      LeafHasType(ctx, name, v, ty, allowNone);
    }
  }

  lemma AnyInhabits(ctx: Context, name: string, v: Value, allowNone: bool)
    ensures Inhabits(ctx, name, v, AnyTy, allowNone)
  {
  }

  lemma LeafHasType(ctx: Context, name: string, v: Value, ty: Ty, allowNone: bool)
    requires ParseLeaf(ctx, name, v, ty).Ok? && IsJson(v)
    requires !ty.UnionTy? && !ty.AnyTy? && !ty.DictTy? && !v.VNone? && !(ty.SeqTy? && v.VSeq?)
    ensures Inhabits(ctx, name, ParseLeaf(ctx, name, v, ty).value, ty, allowNone)
  {
    hide DecodeBytes;
  }

  lemma ObjectInhabits(ctx: Context, name: string, r: Value, cls: nat, allowNone: bool)
    requires r.VObject? && r.cls == cls && |r.fields| == |ctx.classes(cls).fields|
    requires forall i :: 0 <= i < |r.fields| ==> FieldInhabits(ctx, ctx.classes(cls), i, r.fields[i], true)
    ensures Inhabits(ctx, name, r, ClassTy(cls), allowNone)
  {
    hide FieldInhabits;
  }

  lemma SeqInhabits(ctx: Context, name: string, r: Value, kind: Kind, element: Ty, allowNone: bool)
    requires r.VSeq? && r.kind == kind && (kind == SetKind ==> IsSet(r.elements))
    requires forall i :: 0 <= i < |r.elements| ==> Inhabits(ctx, name, r.elements[i], element, false)
    ensures Inhabits(ctx, name, r, SeqTy(kind, element), allowNone)
  {
  }

  lemma DictInhabits(ctx: Context, name: string, r: Value, key: Ty, value: Ty, allowNone: bool)
    requires r.VDict? && DistinctKeys(r.entries)
    requires forall i :: 0 <= i < |r.entries| ==> EntryInhabits(ctx, r.entries[i], key, value, allowNone)
    ensures Inhabits(ctx, name, r, DictTy(key, value), allowNone)
  {
    hide EntryInhabits;
  }

  lemma UnionInhabits(ctx: Context, name: string, r: Value, alts: seq<Ty>, allowNone: bool)
    requires exists i :: 0 <= i < |alts| && Inhabits(ctx, name, r, alts[i], allowNone)
    ensures Inhabits(ctx, name, r, UnionTy(alts), allowNone)
  {
  }

  lemma {:induction false} UnionHasType(ctx: Context, name: string, v: Value, alts: seq<Ty>, allowNone: bool,
                                        allowSdk: bool)
    requires IsJson(v) && ParseUnion(ctx, name, v, alts, allowNone, allowSdk).Ok?
    ensures var r := ParseUnion(ctx, name, v, alts, allowNone, allowSdk).value;
      exists i :: 0 <= i < |alts| && Inhabits(ctx, name, r, alts[i], allowNone)
    decreases Size(v), TySizes(alts), 4
  {
    hide Inhabits, ParseValue;
    var r := ParseValue(ctx, name, v, alts[0], None, allowNone, allowSdk);
    if r.Ok? {
      ParsedHasType(ctx, name, v, alts[0], None, allowNone, allowSdk);
    } else {
      UnionHasType(ctx, name, v, alts[1..], allowNone, allowSdk);
      var rest := alts[1..];
      var i :| 0 <= i < |rest|
        && Inhabits(ctx, name, ParseUnion(ctx, name, v, rest, allowNone, allowSdk).value, rest[i], allowNone);
      assert rest[i] == alts[i + 1];
    }
  }

  lemma {:induction false} ElementsHaveType(ctx: Context, name: string, vs: seq<Value>, element: Ty, kind: Kind,
                                            acc: seq<Value>)
    requires ParseElements(ctx, name, vs, element, kind, acc).Ok?
    requires forall i :: 0 <= i < |vs| ==> IsJson(vs[i])
    requires forall i :: 0 <= i < |acc| ==> Inhabits(ctx, name, acc[i], element, false)
    requires kind == SetKind ==> IsSet(acc)
    ensures var r := ParseElements(ctx, name, vs, element, kind, acc).value;
      && r.VSeq? && r.kind == kind && (kind == SetKind ==> IsSet(r.elements))
      && forall i :: 0 <= i < |r.elements| ==> Inhabits(ctx, name, r.elements[i], element, false)
    decreases SizeAll(vs), TySize(element), 4
  {
    hide Inhabits, ParseValue, IsJson, IsSet;
    if vs != [] {
      assert IsJson(vs[0]);
      ParsedHasType(ctx, name, vs[0], element, None, false, false);
      var x := ParseValue(ctx, name, vs[0], element, None, false, false).value;
      AddedElements(ctx, name, kind, acc, x, element);
      if kind == SetKind { AddedSet(acc, x); }
      forall i | 0 <= i < |vs[1..]| ensures IsJson(vs[1..][i]) { assert vs[1..][i] == vs[i + 1]; }
      ElementsHaveType(ctx, name, vs[1..], element, kind, Added(kind, acc, x));
    }
  }

  // A name that ends in ".value" is not "NOCStruct.noc".
  lemma ValueName(ctx: Context, key: string, r: Value, ty: Ty, allowNone: bool)
    requires Inhabits(ctx, key + ".value", r, ty, allowNone)
    ensures Inhabits(ctx, "", r, ty, allowNone)
  {
    var name := key + ".value";
    assert name[|name| - 1] == 'e' && NOC[|NOC| - 1] == 'c';
    NameOnlyMattersForNoc(ctx, name, "", r, ty, allowNone);
  }

  // And any name's values are allowed under "NOCStruct.noc".
  lemma {:induction false} NameOnlyMattersForNoc(ctx: Context, name: string, other: string, r: Value, ty: Ty,
                                                 allowNone: bool)
    requires Inhabits(ctx, name, r, ty, allowNone) && (name != NOC || other == NOC)
    ensures Inhabits(ctx, other, r, ty, allowNone)
    decreases r, ty
  {
    if !(NullOnWire(r) && (allowNone || AcceptsNull(ty))) && !(name == NOC && r == VBytes([])) {
      match ty
      case SeqTy(kind, element) =>
        forall i | 0 <= i < |r.elements| ensures Inhabits(ctx, other, r.elements[i], element, false) {
          NameOnlyMattersForNoc(ctx, name, other, r.elements[i], element, false);
        }
      case UnionTy(alts) =>
        var i :| 0 <= i < |alts| && Inhabits(ctx, name, r, alts[i], allowNone);
        NameOnlyMattersForNoc(ctx, name, other, r, alts[i], allowNone);
      case _ =>
    }
  }

  lemma {:induction false} EntriesHaveType(ctx: Context, es: seq<Entry>, key: Ty, value: Ty, allowNone: bool,
                                           allowSdk: bool, acc: seq<Entry>)
    requires ParseEntries(ctx, es, key, value, allowNone, allowSdk, acc).Ok? && IsJson(VDict(es))
    requires DistinctKeys(acc) && forall i :: 0 <= i < |acc| ==> EntryInhabits(ctx, acc[i], key, value, allowNone)
    ensures var r := ParseEntries(ctx, es, key, value, allowNone, allowSdk, acc).value;
      && r.VDict? && DistinctKeys(r.entries)
      && forall i :: 0 <= i < |r.entries| ==> EntryInhabits(ctx, r.entries[i], key, value, allowNone)
    decreases SizeEntries(es), TySize(key) + TySize(value), 5
  {
    hide ParseValue, EntryInhabits, DistinctKeys, IsJson, KeyName;
    if es != [] {
      HeadSize(es);
      JsonTail(es);
      var k := ParseValue(ctx, KeyName(es[0].key), es[0].key, key, None, false, false).value;
      var x := ParseValue(ctx, KeyName(es[0].key) + ".value", es[0].value, value, None, allowNone, allowSdk).value;
      EntryHasType(ctx, es[0], key, value, allowNone, allowSdk);
      PutInhabits(ctx, acc, k, x, key, value, allowNone);
      PutKeys(acc, k, x);
      EntriesHaveType(ctx, es[1..], key, value, allowNone, allowSdk, Put(acc, k, x));
    }
  }

  lemma {:induction false} EntryHasType(ctx: Context, e: Entry, key: Ty, value: Ty, allowNone: bool, allowSdk: bool)
    requires IsJsonEntry(e)
    requires ParseValue(ctx, KeyName(e.key), e.key, key, None, false, false).Ok?
    requires ParseValue(ctx, KeyName(e.key) + ".value", e.value, value, None, allowNone, allowSdk).Ok?
    ensures var k := ParseValue(ctx, KeyName(e.key), e.key, key, None, false, false).value;
      var x := ParseValue(ctx, KeyName(e.key) + ".value", e.value, value, None, allowNone, allowSdk).value;
      EntryInhabits(ctx, Entry(k, x), key, value, allowNone)
    decreases Size(e.key) + Size(e.value), TySize(key) + TySize(value), 4
  {
    hide ParseValue, Inhabits, IsJson, KeyName;
    JsonParts(e);
    var k := ParseValue(ctx, KeyName(e.key), e.key, key, None, false, false).value;
    var x := ParseValue(ctx, KeyName(e.key) + ".value", e.value, value, None, allowNone, allowSdk).value;
    ParsedHasType(ctx, KeyName(e.key), e.key, key, None, false, false);
    NameOnlyMattersForNoc(ctx, KeyName(e.key), NOC, k, key, false);
    ParsedHasType(ctx, KeyName(e.key) + ".value", e.value, value, None, allowNone, allowSdk);
    ValueName(ctx, KeyName(e.key), x, value, allowNone);
  }

  lemma JsonParts(e: Entry)
    requires IsJsonEntry(e)
    ensures IsJson(e.key) && IsJson(e.value)
  {
  }

  /** A dictionary turned into a dataclass gives an object of that class whose fields hold their defaults
      or values of their types; None only if the conversion is not strict. */
  lemma {:induction false} ObjectHasType(ctx: Context, cls: nat, es: seq<Entry>, strict: bool, allowSdk: bool)
    requires IsJson(VDict(es)) && FromDict(ctx, cls, es, strict, allowSdk).Ok?
    ensures var r := FromDict(ctx, cls, es, strict, allowSdk).value;
      && r.VObject? && r.cls == cls && |r.fields| == |ctx.classes(cls).fields|
      && forall i :: 0 <= i < |r.fields| ==> FieldInhabits(ctx, ctx.classes(cls), i, r.fields[i], !strict)
    decreases 2 + SizeEntries(es), 0, 1
  {
    hide FieldInhabits, ParseFields, IsJson;
    FieldsHaveType(ctx, cls, 0, es, !strict, allowSdk);
  }

  lemma {:induction false} FieldsHaveType(ctx: Context, cls: nat, i: nat, es: seq<Entry>, allowNone: bool,
                                          allowSdk: bool)
    requires i <= |ctx.classes(cls).fields| && IsJson(VDict(es))
    requires ParseFields(ctx, cls, i, es, allowNone, allowSdk).Ok?
    ensures var r := ParseFields(ctx, cls, i, es, allowNone, allowSdk).value;
      forall k :: 0 <= k < |r| ==> FieldInhabits(ctx, ctx.classes(cls), i + k, r[k], allowNone)
    decreases 2 + SizeEntries(es), 0, 0, |ctx.classes(cls).fields| - i
  {
    hide Inhabits, ParseValue, Get;
    var c := ctx.classes(cls);
    if i < |c.fields| {
      var f := c.fields[i];
      var raw := Raw(c, es, i);
      FoundJson(es, VStr(f.name));
      ParsedHasType(ctx, FieldName(c, i), raw, f.ty, f.default, allowNone, allowSdk);
      FieldsHaveType(ctx, cls, i + 1, es, allowNone, allowSdk);
      var r, rest := ParseFields(ctx, cls, i, es, allowNone, allowSdk).value,
        ParseFields(ctx, cls, i + 1, es, allowNone, allowSdk).value;
      forall k | 0 <= k < |r| ensures FieldInhabits(ctx, c, i + k, r[k], allowNone) {
        if k > 0 { assert r[k] == rest[k - 1]; }
      }
    }
  }
}
