/** What the encoder writes the typed parser reads back: for which values, and what becomes of the rest. */
module WireRoundTrip {
  import opened Wrappers
  import opened Decimal
  import Base64
  import opened Wire

  // Written as null.
  predicate NullOnWire(v: Value) {
    v.VNone? || v.VNullable?
  }

  predicate IsJson(v: Value)
    decreases v
  {
    match v
    case VSeq(kind, es) => kind == ListKind && forall i :: 0 <= i < |es| ==> IsJson(es[i])
    case VDict(es) => forall i :: 0 <= i < |es| ==> IsJsonEntry(es[i])
    case VNone => true
    case VInt(_) => true
    case VStr(_) => true
    case VBool(_) => true
    case _ => false
  }

  predicate IsJsonEntry(e: Entry)
    decreases e
  {
    e.key.VStr? && IsJson(e.value)
  }

  // {"TLVValue": null}, which the parser takes for a value the SDK could not parse.
  predicate NullTlv(v: Value) {
    v.VDict? && Get(v.entries, TLV_VALUE) == Some(VNone)
  }

  ghost predicate ClassOk(c: Class) {
    && (forall i, j :: 0 <= i < j < |c.fields| ==> c.fields[i].name != c.fields[j].name)
    && (forall i :: 0 <= i < |c.fields| ==> c.fields[i].name != TLV_VALUE.s && !IsNumeric(c.fields[i].name))
  }

  // Types for which a permitted null is None.
  predicate TakesNone(ty: Ty, allowSdk: bool) {
    !ty.DictTy? && !ty.UnionTy? && !(ty.NullableTy? && allowSdk)
  }

  ghost predicate Rejected(r: Result<Value>) {
    r.Err? && r.error != AttributeError
  }

  // A text or integer key, which travels as text and is its own name.
  ghost predicate KeyFits(ctx: Context, k: Value, ty: Ty)
    decreases k, ty, 1
  {
    if k.VStr? then Fits(ctx, k.s, k, ty, false, false) else k.VInt? && NumberKeyFits(ctx, k, ty)
  }

  ghost predicate NumberKeyFits(ctx: Context, k: Value, ty: Ty)
    requires k.VInt?
    decreases k, ty, 0
  {
    match ty
    case IntTy => k.n >= 0
    case UnionTy(alts) =>
      exists i :: 0 <= i < |alts| && NumberKeyFits(ctx, k, alts[i])
        && EarlierReject(ctx, EncodeKey(k).s, EncodeKey(k), alts, i, false, false)
    case _ => false
  }

  predicate DistinctKeys(es: seq<Entry>) {
    forall i, j :: 0 <= i < j < |es| ==> es[i].key != es[j].key
  }

  ghost predicate EntryFits(ctx: Context, e: Entry, key: Ty, value: Ty, allowNone: bool, allowSdk: bool)
    decreases e, value, 1
  {
    && KeyFits(ctx, e.key, key)
    && Fits(ctx, KeyName(EncodeKey(e.key)) + ".value", e.value, value, allowNone, allowSdk)
    && (e.key == TLV_VALUE ==> !NullOnWire(e.value))
  }

  ghost predicate FieldFits(ctx: Context, c: Class, i: nat, v: Value)
    requires i < |c.fields|
    decreases v, c.fields[i].ty, 1
  {
    if NullOnWire(v) && c.fields[i].default.Some? then v == c.fields[i].default.value
    else Fits(ctx, FieldName(c, i), v, c.fields[i].ty, true, false)
  }

  // Under the name "NOCStruct.noc" whatever is not bytes becomes no bytes, for these types.
  predicate EmptiedByName(ty: Ty) {
    !ty.EnumTy? && !ty.DictTy? && !ty.UnionTy? && !ty.AnyTy?
  }

  /** Values that survive the wire under a type. What is excluded: None inside a list, tuple or set; None in a
      field whose default is something else; a null under "TLVValue"; a dictionary key whose text does not
      read back as the key; and a union member that an earlier one accepts as something else. */
  ghost predicate Fits(ctx: Context, name: string, v: Value, ty: Ty, allowNone: bool, allowSdk: bool)
    decreases v, ty, 0
  {
    if v.VNone? && allowNone && TakesNone(ty, allowSdk) then true
    else if v == VBytes([]) && name == NOC && EmptiedByName(ty) then true
    else
      match ty
      case IntTy => (v.VInt? || v.VBool?) && name != NOC
      case StrTy => v.VStr? && name != NOC
      case BoolTy => v.VBool? && name != NOC
      case BytesTy => v.VBytes?
      case NoneTy => v.VNone?
      case NullableTy => v == if allowSdk then VNullable else VNone
      case AnyTy => IsJson(v) && !NullTlv(v)
      case EnumTy(id, members) =>
        // a member, or a raw value that belongs to none
        || (v.VEnum? && v.id == id && v.member in members && (v.member.VInt? || v.member.VStr?))
        || ((v.VInt? || v.VStr? || v.VBool?) && Canonical(v) !in members)
      case SeqTy(kind, element) =>
        && v.VSeq? && v.kind == kind
        && (forall i :: 0 <= i < |v.elements| ==>
          !NullOnWire(v.elements[i]) && Fits(ctx, name, v.elements[i], element, false, false))
        && (kind == SetKind ==> IsSet(v.elements))
      case DictTy(key, value) =>
        && v.VDict? && DistinctKeys(v.entries)
        && forall i :: 0 <= i < |v.entries| ==> EntryFits(ctx, v.entries[i], key, value, allowNone, allowSdk)
      case UnionTy(alts) =>
        if NullOnWire(v) && NullableTy in alts && allowSdk then v.VNullable?
        else if NullOnWire(v) && NoneTy in alts then v.VNone?
        else
          exists i :: 0 <= i < |alts| && Fits(ctx, name, v, alts[i], allowNone, allowSdk)
            && EarlierReject(ctx, name, Encode(ctx, v), alts, i, allowNone, allowSdk)
      case ClassTy(c) =>
        && v.VObject? && v.cls == c && ClassOk(ctx.classes(c)) && |v.fields| == |ctx.classes(c).fields|
        && forall i :: 0 <= i < |v.fields| ==> FieldFits(ctx, ctx.classes(c), i, v.fields[i])
  }

  predicate IsSet(vs: seq<Value>) {
    && (forall i :: 0 <= i < |vs| ==> Hashable(vs[i]))
    && forall i, j :: 0 <= i < j < |vs| ==> Canonical(vs[i]) != Canonical(vs[j])
  }

  // The members before the i-th do not accept the value.
  ghost predicate EarlierReject(ctx: Context, name: string, raw: Value, alts: seq<Ty>, i: nat, allowNone: bool,
                                allowSdk: bool)
    requires i <= |alts|
  {
    forall j :: 0 <= j < i ==> Rejected(ParseValue(ctx, name, raw, alts[j], None, allowNone, allowSdk))
  }

  /* ---- Lookups ---- */

  lemma {:induction false} GetAt(es: seq<Entry>, i: nat)
    requires i < |es| && DistinctKeys(es)
    ensures Get(es, es[i].key) == Some(es[i].value)
  {
    if i == 0 {
      GetAbsent(es[1..], es[0].key);
    } else {
      GetAt(es[1..], i - 1);
    }
  }

  lemma {:induction false} GetAbsent(es: seq<Entry>, key: Value)
    requires forall i :: 0 <= i < |es| ==> es[i].key != key
    ensures Get(es, key) == None
  {
    if es != [] { GetAbsent(es[1..], key); }
  }

  lemma {:induction false} GetSomewhere(es: seq<Entry>, key: Value) returns (i: nat)
    requires Get(es, key).Some?
    ensures i < |es| && es[i].key == key && es[i].value == Get(es, key).value
  {
    if Get(es[1..], key).Some? {
      var k := GetSomewhere(es[1..], key);
      i := k + 1;
    } else {
      i := 0;
    }
  }

  lemma {:induction false} PutNew(es: seq<Entry>, key: Value, v: Value)
    requires forall i :: 0 <= i < |es| ==> es[i].key != key
    ensures Put(es, key, v) == es + [Entry(key, v)]
  {
    if es != [] { PutNew(es[1..], key, v); }
  }

  lemma {:induction false} RenamedSame(tags: map<nat, string>, es: seq<Entry>)
    requires forall i :: 0 <= i < |es| ==> es[i].key.VStr? && !IsNumeric(es[i].key.s)
    ensures Renamed(tags, es) == es
  {
    if es != [] { RenamedSame(tags, es[1..]); }
  }

  lemma {:induction false} AllKept(vs: seq<Value>)
    requires forall i :: 0 <= i < |vs| ==> !vs[i].VNone?
    ensures NonNull(vs) == vs
  {
    if vs != [] { AllKept(vs[1..]); }
  }

  /* ---- Loops of the parser, given what it makes of the parts ---- */

  lemma {:induction false} ElementsBack(ctx: Context, name: string, raws: seq<Value>, vs: seq<Value>, element: Ty,
                                        kind: Kind, i: nat)
    requires |raws| == |vs| && i <= |vs|
    requires forall k :: i <= k < |vs| ==> ParseValue(ctx, name, raws[k], element, None, false, false) == Ok(vs[k])
    requires kind == SetKind ==> IsSet(vs)
    ensures ParseElements(ctx, name, raws[i..], element, kind, vs[..i]) == Ok(VSeq(kind, vs))
    decreases |vs| - i
  {
    hide ParseValue, Canonical, Hashable;
    if i == |vs| {
      assert vs[..i] == vs;
    } else {
      assert raws[i..][0] == raws[i] && raws[i..][1..] == raws[i + 1..];
      assert vs[..i] + [vs[i]] == vs[..i + 1];
      assert Added(kind, vs[..i], vs[i]) == vs[..i + 1];
      ElementsBack(ctx, name, raws, vs, element, kind, i + 1);
    }
  }

  ghost predicate EntryBack(ctx: Context, raw: Entry, e: Entry, key: Ty, value: Ty, allowNone: bool, allowSdk: bool) {
    && ParseValue(ctx, KeyName(raw.key), raw.key, key, None, false, false) == Ok(e.key)
    && ParseValue(ctx, KeyName(raw.key) + ".value", raw.value, value, None, allowNone, allowSdk) == Ok(e.value)
  }

  lemma {:induction false} EntriesBack(ctx: Context, raws: seq<Entry>, es: seq<Entry>, key: Ty, value: Ty,
                                       allowNone: bool, allowSdk: bool, i: nat)
    requires |raws| == |es| && i <= |es| && DistinctKeys(es)
    requires forall k :: i <= k < |es| ==> EntryBack(ctx, raws[k], es[k], key, value, allowNone, allowSdk)
    ensures ParseEntries(ctx, raws[i..], key, value, allowNone, allowSdk, es[..i]) == Ok(VDict(es))
    decreases |es| - i
  {
    hide ParseValue;
    if i == |es| {
      assert es[..i] == es;
    } else {
      assert raws[i..][0] == raws[i] && raws[i..][1..] == raws[i + 1..];
      assert EntryBack(ctx, raws[i], es[i], key, value, allowNone, allowSdk);
      PutNew(es[..i], es[i].key, es[i].value);
      assert es[..i] + [es[i]] == es[..i + 1];
      EntriesBack(ctx, raws, es, key, value, allowNone, allowSdk, i + 1);
    }
  }

  lemma {:induction false} UnionBack(ctx: Context, name: string, raw: Value, alts: seq<Ty>, i: nat, allowNone: bool,
                                     allowSdk: bool, v: Value)
    requires i < |alts| && EarlierReject(ctx, name, raw, alts, i, allowNone, allowSdk)
    requires ParseValue(ctx, name, raw, alts[i], None, allowNone, allowSdk) == Ok(v)
    ensures ParseUnion(ctx, name, raw, alts, allowNone, allowSdk) == Ok(v)
  {
    hide ParseValue;
    if i > 0 {
      assert Rejected(ParseValue(ctx, name, raw, alts[0], None, allowNone, allowSdk));
      forall j | 0 <= j < i - 1 ensures Rejected(ParseValue(ctx, name, raw, alts[1..][j], None, allowNone, allowSdk)) {
        assert alts[1..][j] == alts[j + 1];
      }
      UnionBack(ctx, name, raw, alts[1..], i - 1, allowNone, allowSdk, v);
    }
  }

  // The raw value of the i-th field.
  function Raw(c: Class, es: seq<Entry>, i: nat): Value
    requires i < |c.fields|
  {
    var found := Get(es, VStr(c.fields[i].name));
    if found.Some? then found.value else VNone
  }

  lemma {:induction false} FieldsBack(ctx: Context, cls: nat, es: seq<Entry>, fs: seq<Value>, i: nat)
    requires |fs| == |ctx.classes(cls).fields| && i <= |fs|
    requires forall k :: i <= k < |fs| ==>
      var c := ctx.classes(cls);
      ParseValue(ctx, FieldName(c, k), Raw(c, es, k), c.fields[k].ty, c.fields[k].default, true, false) == Ok(fs[k])
    ensures ParseFields(ctx, cls, i, es, true, false) == Ok(fs[i..])
    decreases |fs| - i
  {
    hide ParseValue;
    if i < |fs| {
      var c := ctx.classes(cls);
      assert ParseValue(ctx, FieldName(c, i), Raw(c, es, i), c.fields[i].ty, c.fields[i].default, true, false)
        == Ok(fs[i]);
      FieldsBack(ctx, cls, es, fs, i + 1);
      assert fs[i..] == [fs[i]] + fs[i + 1..];
    }
  }

  /* ---- The round trip, type by type ---- */

  lemma NullEncoded(ctx: Context, name: string, v: Value, ty: Ty, allowNone: bool, allowSdk: bool)
    requires Fits(ctx, name, v, ty, allowNone, allowSdk)
    ensures Encode(ctx, v).VNone? <==> NullOnWire(v)
  {
    if v.VEnum? { EnumIsScalar(ctx, name, v, ty, allowNone, allowSdk); }
  }

  lemma {:induction false} EnumIsScalar(ctx: Context, name: string, v: Value, ty: Ty, allowNone: bool, allowSdk: bool)
    requires v.VEnum? && Fits(ctx, name, v, ty, allowNone, allowSdk)
    ensures v.member.VInt? || v.member.VStr?
    decreases ty
  {
    if ty.UnionTy? {
      var i :| 0 <= i < |ty.alternatives| && Fits(ctx, name, v, ty.alternatives[i], allowNone, allowSdk);
      EnumIsScalar(ctx, name, v, ty.alternatives[i], allowNone, allowSdk);
    }
  }

  lemma {:induction false} JsonIsWritten(ctx: Context, v: Value)
    requires IsJson(v)
    ensures Encode(ctx, v) == v
    decreases v
  {
    match v
    case VSeq(_, es) =>
      forall i | 0 <= i < |es| ensures EncodeAll(ctx, es)[i] == es[i] { JsonIsWritten(ctx, es[i]); }
    case VDict(es) =>
      forall i | 0 <= i < |es| ensures EncodeEntries(ctx, es)[i] == es[i] { JsonEntryIsWritten(ctx, es[i]); }
    case _ =>
  }

  lemma {:induction false} JsonEntryIsWritten(ctx: Context, e: Entry)
    requires IsJsonEntry(e)
    ensures EncodeEntry(ctx, e) == e
    decreases e
  {
    JsonIsWritten(ctx, e.value);
  }

  // A text key of digits is not one of the special keys.
  lemma KeyText(k: Value)
    requires k.VStr? || k.VInt?
    ensures EncodeKey(k).VStr? && (EncodeKey(k) == TLV_VALUE <==> k == TLV_VALUE)
  {
    if k.VInt? { assert !IsDigit(TLV_VALUE.s[0]) && TLV_VALUE.s[0] != '-'; }
  }

  lemma TextOrNumber(ctx: Context, e: Entry, key: Ty, value: Ty, allowNone: bool, allowSdk: bool)
    requires EntryFits(ctx, e, key, value, allowNone, allowSdk)
    ensures e.key.VStr? || e.key.VInt?
  {
    assert KeyFits(ctx, e.key, key);
  }

  lemma {:induction false} NumberKeyBack(ctx: Context, k: Value, ty: Ty)
    requires k.VInt? && NumberKeyFits(ctx, k, ty)
    ensures ParseValue(ctx, EncodeKey(k).s, EncodeKey(k), ty, None, false, false) == Ok(k)
    decreases ty
  {
    match ty
    case IntTy => ToNatOfStr(k.n);
    case UnionTy(alts) =>
      hide ParseValue;
      var raw := EncodeKey(k);
      var i :| 0 <= i < |alts| && NumberKeyFits(ctx, k, alts[i])
        && EarlierReject(ctx, raw.s, raw, alts, i, false, false);
      NumberKeyBack(ctx, k, alts[i]);
      UnionBack(ctx, raw.s, raw, alts, i, false, false, k);
      UnionReaches(ctx, raw.s, raw, alts, false, false);
  }

  lemma {:induction false} DictHasNoNullTlv(ctx: Context, es: seq<Entry>, key: Ty, value: Ty, allowNone: bool,
                                            allowSdk: bool)
    requires forall i :: 0 <= i < |es| ==> EntryFits(ctx, es[i], key, value, allowNone, allowSdk)
    ensures Get(EncodeEntries(ctx, es), TLV_VALUE) != Some(VNone)
  {
    hide Encode, Fits, EncodeKey, NumberKeyFits;
    var out := EncodeEntries(ctx, es);
    if Get(out, TLV_VALUE) == Some(VNone) {
      var i := GetSomewhere(out, TLV_VALUE);
      assert EntryFits(ctx, es[i], key, value, allowNone, allowSdk);
      TextOrNumber(ctx, es[i], key, value, allowNone, allowSdk);
      KeyText(es[i].key);
      NullEncoded(ctx, KeyName(EncodeKey(es[i].key)) + ".value", es[i].value, value, allowNone, allowSdk);
    }
  }

  lemma ObjectHasNoNullTlv(ctx: Context, c: Class, fs: seq<Value>)
    requires ClassOk(c) && |fs| == |c.fields|
    ensures Get(EncodeFields(ctx, c.fields, fs), TLV_VALUE) == None
  {
    hide Encode;
    GetAbsent(EncodeFields(ctx, c.fields, fs), TLV_VALUE);
  }

  lemma {:induction false} NoNullTlv(ctx: Context, name: string, v: Value, ty: Ty, allowNone: bool, allowSdk: bool)
    requires Fits(ctx, name, v, ty, allowNone, allowSdk)
    ensures !NullTlv(Encode(ctx, v))
    decreases ty
  {
    hide Get;
    match ty
    case AnyTy => if IsJson(v) { JsonIsWritten(ctx, v); }
    case DictTy(key, value) => if v.VDict? { DictHasNoNullTlv(ctx, v.entries, key, value, allowNone, allowSdk); }
    case ClassTy(c) => if v.VObject? { ObjectHasNoNullTlv(ctx, ctx.classes(c), v.fields); }
    case UnionTy(alts) =>
      if !NullOnWire(v) {
        var i :| 0 <= i < |alts| && Fits(ctx, name, v, alts[i], allowNone, allowSdk);
        NoNullTlv(ctx, name, v, alts[i], allowNone, allowSdk);
      }
    case _ =>
  }

  // Nothing is renamed or missing: the parser gets to the type.
  lemma ReachesType(ctx: Context, name: string, raw: Value, ty: Ty, default: Option<Value>, allowNone: bool,
                    allowSdk: bool)
    requires !raw.VNone? && !NullTlv(raw)
    requires raw.VDict? ==> Labelled(ctx, ty, raw.entries) == raw.entries
    ensures ParseValue(ctx, name, raw, ty, default, allowNone, allowSdk)
      == ParseByType(ctx, name, raw, ty, allowNone, allowSdk)
  {
    hide ParseByType;
  }

  lemma LeafBack(ctx: Context, name: string, v: Value, ty: Ty, allowNone: bool, allowSdk: bool)
    requires Fits(ctx, name, v, ty, allowNone, allowSdk)
    requires !ty.SeqTy? && !ty.DictTy? && !ty.UnionTy? && !ty.ClassTy?
    ensures ParseValue(ctx, name, Encode(ctx, v), ty, None, allowNone, allowSdk) == Ok(v)
  {
    hide Fits, Get;
    LeafCases(ctx, name, v, ty, allowNone, allowSdk);
    match ty
    case BytesTy => if v.VBytes? { Base64.RoundTrip(v.bytes); }
    case AnyTy =>
      if !v.VNone? {
        JsonIsWritten(ctx, v);
        ReachesType(ctx, name, v, ty, None, allowNone, allowSdk);
      }
    case _ =>
  }

  lemma LeafCases(ctx: Context, name: string, v: Value, ty: Ty, allowNone: bool, allowSdk: bool)
    requires Fits(ctx, name, v, ty, allowNone, allowSdk)
    ensures (v.VNone? && allowNone && TakesNone(ty, allowSdk)) || (v == VBytes([]) && name == NOC && EmptiedByName(ty))
      || match ty
      case IntTy => (v.VInt? || v.VBool?) && name != NOC
      case StrTy => v.VStr? && name != NOC
      case BoolTy => v.VBool? && name != NOC
      case BytesTy => v.VBytes?
      case NoneTy => v.VNone?
      case NullableTy => v == if allowSdk then VNullable else VNone
      case AnyTy => IsJson(v) && !NullTlv(v)
      case EnumTy(id, members) =>
        || (v.VEnum? && v.id == id && v.member in members && (v.member.VInt? || v.member.VStr?))
        || ((v.VInt? || v.VStr? || v.VBool?) && Canonical(v) !in members)
      case _ => true
  {
  }

  lemma NoneBack(ctx: Context, name: string, ty: Ty, allowSdk: bool)
    requires TakesNone(ty, allowSdk)
    ensures ParseValue(ctx, name, VNone, ty, None, true, allowSdk) == Ok(VNone)
  {
  }

  lemma EmptiedBack(ctx: Context, ty: Ty, allowNone: bool, allowSdk: bool)
    requires EmptiedByName(ty)
    ensures ParseValue(ctx, NOC, Encode(ctx, VBytes([])), ty, None, allowNone, allowSdk) == Ok(VBytes([]))
  {
    Base64.RoundTrip([]);
    assert Encode(ctx, VBytes([])) == VStr("");
  }

  // A list, tuple or set whose elements are read back.
  lemma SeqBack(ctx: Context, name: string, vs: seq<Value>, kind: Kind, element: Ty, allowNone: bool, allowSdk: bool)
    requires forall i :: 0 <= i < |vs| ==> !Encode(ctx, vs[i]).VNone?
    requires forall i :: 0 <= i < |vs| ==>
      ParseValue(ctx, name, Encode(ctx, vs[i]), element, None, false, false) == Ok(vs[i])
    requires kind == SetKind ==> IsSet(vs)
    ensures ParseValue(ctx, name, Encode(ctx, VSeq(kind, vs)), SeqTy(kind, element), None, allowNone, allowSdk)
      == Ok(VSeq(kind, vs))
  {
    var raws := EncodeAll(ctx, vs);
    SeqReaches(ctx, name, raws, kind, element, allowNone, allowSdk);
    assert Encode(ctx, VSeq(kind, vs)) == VSeq(ListKind, raws);
    hide ParseValue, Encode;
    AllKept(raws);
    ElementsBack(ctx, name, raws, vs, element, kind, 0);
    assert raws[0..] == raws && vs[..0] == [];
  }

  lemma SeqReaches(ctx: Context, name: string, raws: seq<Value>, kind: Kind, element: Ty, allowNone: bool,
                   allowSdk: bool)
    ensures ParseValue(ctx, name, VSeq(ListKind, raws), SeqTy(kind, element), None, allowNone, allowSdk)
      == ParseElements(ctx, name, NonNull(raws), element, kind, [])
  {
    hide ParseElements;
  }

  lemma DictReaches(ctx: Context, name: string, raws: seq<Entry>, key: Ty, value: Ty, allowNone: bool, allowSdk: bool)
    ensures ParseValue(ctx, name, VDict(raws), DictTy(key, value), None, allowNone, allowSdk)
      == if Get(raws, TLV_VALUE) == Some(VNone) then Err(AttributeError)
        else ParseEntries(ctx, raws, key, value, allowNone, allowSdk, [])
  {
    hide ParseEntries, Get;
  }

  lemma DictBack(ctx: Context, name: string, es: seq<Entry>, key: Ty, value: Ty, allowNone: bool, allowSdk: bool)
    requires DistinctKeys(es) && forall i :: 0 <= i < |es| ==> EntryFits(ctx, es[i], key, value, allowNone, allowSdk)
    requires forall i :: 0 <= i < |es| ==>
      EntryBack(ctx, EncodeEntry(ctx, es[i]), es[i], key, value, allowNone, allowSdk)
    ensures ParseValue(ctx, name, Encode(ctx, VDict(es)), DictTy(key, value), None, allowNone, allowSdk)
      == Ok(VDict(es))
  {
    var raws := EncodeEntries(ctx, es);
    assert Encode(ctx, VDict(es)) == VDict(raws);
    DictHasNoNullTlv(ctx, es, key, value, allowNone, allowSdk);
    DictReaches(ctx, name, raws, key, value, allowNone, allowSdk);
    hide ParseValue, Encode, EntryFits, EntryBack, Get;
    EntriesBack(ctx, raws, es, key, value, allowNone, allowSdk, 0);
    assert raws[0..] == raws && es[..0] == [];
  }

  lemma UnionReaches(ctx: Context, name: string, raw: Value, alts: seq<Ty>, allowNone: bool, allowSdk: bool)
    requires !NullTlv(raw) && ParseUnion(ctx, name, raw, alts, allowNone, allowSdk).Ok?
    requires raw.VNone? ==> !(NullableTy in alts && allowSdk) && NoneTy !in alts
    ensures ParseValue(ctx, name, raw, UnionTy(alts), None, allowNone, allowSdk)
      == ParseUnion(ctx, name, raw, alts, allowNone, allowSdk)
  {
    hide Get, ParseUnion;
    if !raw.VNone? { ReachesType(ctx, name, raw, UnionTy(alts), None, allowNone, allowSdk); }
  }

  lemma NullUnion(ctx: Context, name: string, v: Value, alts: seq<Ty>, allowNone: bool, allowSdk: bool)
    requires if NullableTy in alts && allowSdk then v.VNullable? else NoneTy in alts && v.VNone?
    ensures ParseValue(ctx, name, VNone, UnionTy(alts), None, allowNone, allowSdk) == Ok(v)
  {
    hide ParseUnion;
  }

  /* ---- Dataclasses: a null field takes its default ---- */

  // What comes back in the place of a field.
  function RestoredField(f: Field, v: Value): Value {
    if NullOnWire(v) && f.default.Some? then f.default.value else v
  }

  function Restored(c: Class, fs: seq<Value>): (restored: seq<Value>)
    requires |fs| == |c.fields|
    ensures |restored| == |fs|
  {
    seq(|fs|, i requires 0 <= i < |fs| => RestoredField(c.fields[i], fs[i]))
  }

  ghost predicate FieldBack(ctx: Context, c: Class, i: nat, v: Value)
    requires i < |c.fields|
  {
    || (NullOnWire(v) && c.fields[i].default.Some?)
    || ParseValue(ctx, FieldName(c, i), Encode(ctx, v), c.fields[i].ty, None, true, false) == Ok(v)
  }

  lemma WithDefault(ctx: Context, name: string, raw: Value, ty: Ty, default: Option<Value>, allowNone: bool,
                    allowSdk: bool)
    ensures ParseValue(ctx, name, raw, ty, default, allowNone, allowSdk) ==
      if raw.VNone? && default.Some? then Ok(default.value)
        else ParseValue(ctx, name, raw, ty, None, allowNone, allowSdk)
  {
    hide ParseByType, Get;
  }

  lemma FieldRestored(ctx: Context, c: Class, i: nat, v: Value)
    requires i < |c.fields| && FieldBack(ctx, c, i, v) && (Encode(ctx, v).VNone? <==> NullOnWire(v))
    ensures ParseValue(ctx, FieldName(c, i), Encode(ctx, v), c.fields[i].ty, c.fields[i].default, true, false)
      == Ok(RestoredField(c.fields[i], v))
  {
    hide ParseValue, Encode;
    WithDefault(ctx, FieldName(c, i), Encode(ctx, v), c.fields[i].ty, c.fields[i].default, true, false);
  }

  lemma FieldFound(ctx: Context, c: Class, fs: seq<Value>, i: nat)
    requires ClassOk(c) && |fs| == |c.fields| && i < |fs|
    ensures Raw(c, EncodeFields(ctx, c.fields, fs), i) == Encode(ctx, fs[i])
  {
    hide Encode;
    GetAt(EncodeFields(ctx, c.fields, fs), i);
  }

  lemma ObjectReaches(ctx: Context, name: string, cls: nat, es: seq<Entry>, allowNone: bool, allowSdk: bool)
    requires Get(es, TLV_VALUE) == None && forall i :: 0 <= i < |es| ==> es[i].key.VStr? && !IsNumeric(es[i].key.s)
    ensures ParseValue(ctx, name, VDict(es), ClassTy(cls), None, allowNone, allowSdk)
      == FromDict(ctx, cls, es, false, false)
  {
    hide FromDict, Get;
    if ctx.classes(cls).tags.Some? { RenamedSame(ctx.classes(cls).tags.value, es); }
    ReachesType(ctx, name, VDict(es), ClassTy(cls), None, allowNone, allowSdk);
  }

  /** An object comes back with the fields that are null replaced by their defaults, where they have one. */
  lemma ObjectComesBackRestored(ctx: Context, name: string, cls: nat, fs: seq<Value>, allowNone: bool, allowSdk: bool)
    requires ClassOk(ctx.classes(cls)) && |fs| == |ctx.classes(cls).fields|
    requires forall i :: 0 <= i < |fs| ==>
      FieldBack(ctx, ctx.classes(cls), i, fs[i]) && (Encode(ctx, fs[i]).VNone? <==> NullOnWire(fs[i]))
    ensures ParseValue(ctx, name, Encode(ctx, VObject(cls, fs)), ClassTy(cls), None, allowNone, allowSdk)
      == Ok(VObject(cls, Restored(ctx.classes(cls), fs)))
  {
    var c := ctx.classes(cls);
    var es := EncodeFields(ctx, c.fields, fs);
    assert Encode(ctx, VObject(cls, fs)) == VDict(es);
    hide ParseValue, Encode, FieldBack, Get, ParseFields;
    ObjectHasNoNullTlv(ctx, c, fs);
    ObjectReaches(ctx, name, cls, es, allowNone, allowSdk);
    forall i | 0 <= i < |fs|
      ensures ParseValue(ctx, FieldName(c, i), Raw(c, es, i), c.fields[i].ty, c.fields[i].default, true, false)
        == Ok(Restored(c, fs)[i])
    {
      FieldFound(ctx, c, fs, i);
      FieldRestored(ctx, c, i, fs[i]);
    }
    FieldsBack(ctx, cls, es, Restored(c, fs), 0);
    assert Restored(c, fs)[0..] == Restored(c, fs);
  }

  /** So it survives exactly when every null field with a default holds that default. */
  lemma ObjectRoundTripIff(ctx: Context, name: string, cls: nat, fs: seq<Value>, allowNone: bool, allowSdk: bool)
    requires ClassOk(ctx.classes(cls)) && |fs| == |ctx.classes(cls).fields|
    requires forall i :: 0 <= i < |fs| ==>
      FieldBack(ctx, ctx.classes(cls), i, fs[i]) && (Encode(ctx, fs[i]).VNone? <==> NullOnWire(fs[i]))
    ensures ParseValue(ctx, name, Encode(ctx, VObject(cls, fs)), ClassTy(cls), None, allowNone, allowSdk)
      == Ok(VObject(cls, fs))
      <==> forall i :: 0 <= i < |fs| && NullOnWire(fs[i]) && ctx.classes(cls).fields[i].default.Some? ==>
             fs[i] == ctx.classes(cls).fields[i].default.value
  {
    hide ParseValue, Encode, FieldBack, NullOnWire;
    ObjectComesBackRestored(ctx, name, cls, fs, allowNone, allowSdk);
    var restored := Restored(ctx.classes(cls), fs);
    if restored == fs {
      forall i | 0 <= i < |fs| && NullOnWire(fs[i]) && ctx.classes(cls).fields[i].default.Some?
        ensures fs[i] == ctx.classes(cls).fields[i].default.value
      {
        assert restored[i] == fs[i];
      }
    }
  }

  /* ---- The round trip ---- */

  /** Whatever fits its type is read back as it was written: integers, text, booleans, bytes, enum members,
      optionals, unions, lists, tuples, sets, dictionaries and dataclasses, nested to any depth. */
  lemma {:induction false} RoundTrip(ctx: Context, name: string, v: Value, ty: Ty, allowNone: bool, allowSdk: bool)
    requires Fits(ctx, name, v, ty, allowNone, allowSdk)
    ensures ParseValue(ctx, name, Encode(ctx, v), ty, None, allowNone, allowSdk) == Ok(v)
    decreases v, ty, 1
  {
    if v.VNone? && allowNone && TakesNone(ty, allowSdk) {
      NoneBack(ctx, name, ty, allowSdk);
    } else if v == VBytes([]) && name == NOC && EmptiedByName(ty) {
      EmptiedBack(ctx, ty, allowNone, allowSdk);
    } else {
      NullEncoded(ctx, name, v, ty, allowNone, allowSdk);
      match ty
      case SeqTy(kind, element) =>
        hide ParseValue, Encode;
        forall i | 0 <= i < |v.elements|
          ensures !Encode(ctx, v.elements[i]).VNone?
          ensures ParseValue(ctx, name, Encode(ctx, v.elements[i]), element, None, false, false) == Ok(v.elements[i])
        {
          RoundTrip(ctx, name, v.elements[i], element, false, false);
          NullEncoded(ctx, name, v.elements[i], element, false, false);
        }
        SeqBack(ctx, name, v.elements, kind, element, allowNone, allowSdk);
      case DictTy(key, value) =>
        hide ParseValue, Encode;
        forall i | 0 <= i < |v.entries|
          ensures EntryBack(ctx, EncodeEntry(ctx, v.entries[i]), v.entries[i], key, value, allowNone, allowSdk)
        {
          EntryRoundTrip(ctx, v.entries[i], key, value, allowNone, allowSdk);
        }
        DictBack(ctx, name, v.entries, key, value, allowNone, allowSdk);
      case UnionTy(alts) => UnionRoundTrip(ctx, name, v, ty, allowNone, allowSdk);
      case ClassTy(cls) =>
        hide ParseValue, Encode;
        forall i | 0 <= i < |v.fields|
          ensures FieldBack(ctx, ctx.classes(cls), i, v.fields[i])
          ensures Encode(ctx, v.fields[i]).VNone? <==> NullOnWire(v.fields[i])
        {
          FieldRoundTrip(ctx, ctx.classes(cls), i, v.fields[i]);
        }
        ObjectRoundTripIff(ctx, name, cls, v.fields, allowNone, allowSdk);
      case _ => LeafBack(ctx, name, v, ty, allowNone, allowSdk);
    }
  }

  lemma {:induction false} UnionRoundTrip(ctx: Context, name: string, v: Value, ty: Ty, allowNone: bool, allowSdk: bool)
    requires ty.UnionTy? && Fits(ctx, name, v, ty, allowNone, allowSdk)
    ensures ParseValue(ctx, name, Encode(ctx, v), ty, None, allowNone, allowSdk) == Ok(v)
    decreases v, ty, 0
  {
    var alts := ty.alternatives;
    NullEncoded(ctx, name, v, ty, allowNone, allowSdk);
    if NullOnWire(v) && ((NullableTy in alts && allowSdk) || NoneTy in alts) {
      hide ParseValue;
      NullUnion(ctx, name, v, alts, allowNone, allowSdk);
    } else {
      hide ParseValue, Encode;
      var i :| 0 <= i < |alts| && Fits(ctx, name, v, alts[i], allowNone, allowSdk)
        && EarlierReject(ctx, name, Encode(ctx, v), alts, i, allowNone, allowSdk);
      RoundTrip(ctx, name, v, alts[i], allowNone, allowSdk);
      NoNullTlv(ctx, name, v, alts[i], allowNone, allowSdk);
      UnionBack(ctx, name, Encode(ctx, v), alts, i, allowNone, allowSdk, v);
      UnionReaches(ctx, name, Encode(ctx, v), alts, allowNone, allowSdk);
    }
  }

  lemma {:induction false} EntryRoundTrip(ctx: Context, e: Entry, key: Ty, value: Ty, allowNone: bool, allowSdk: bool)
    requires EntryFits(ctx, e, key, value, allowNone, allowSdk)
    ensures EntryBack(ctx, EncodeEntry(ctx, e), e, key, value, allowNone, allowSdk)
    decreases e, value, 2
  {
    hide ParseValue, Encode;
    KeyBack(ctx, e.key, key);
    RoundTrip(ctx, KeyName(EncodeKey(e.key)) + ".value", e.value, value, allowNone, allowSdk);
  }

  lemma {:induction false} KeyBack(ctx: Context, k: Value, ty: Ty)
    requires KeyFits(ctx, k, ty)
    ensures ParseValue(ctx, KeyName(EncodeKey(k)), EncodeKey(k), ty, None, false, false) == Ok(k)
    decreases k, ty, 2
  {
    hide ParseValue;
    if k.VStr? { RoundTrip(ctx, k.s, k, ty, false, false); } else { NumberKeyBack(ctx, k, ty); }
  }

  lemma {:induction false} FieldRoundTrip(ctx: Context, c: Class, i: nat, v: Value)
    requires i < |c.fields| && FieldFits(ctx, c, i, v)
    ensures FieldBack(ctx, c, i, v) && (Encode(ctx, v).VNone? <==> NullOnWire(v))
    decreases v, c.fields[i].ty, 2
  {
    if !(NullOnWire(v) && c.fields[i].default.Some?) {
      NullEncoded(ctx, FieldName(c, i), v, c.fields[i].ty, true, false);
      RoundTrip(ctx, FieldName(c, i), v, c.fields[i].ty, true, false);
    }
  }
}
