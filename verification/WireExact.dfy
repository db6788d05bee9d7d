/** The round trip is exact: a value is read back as it was written only if it fits its type. */
module WireExact {
  import opened Wrappers
  import opened Decimal
  import opened Wire
  import opened WireRoundTrip

  /** Values the program can hold: enum members are integers or text, dictionary keys are distinct integers
      or texts, objects have the fields of their class. */
  ghost predicate Proper(ctx: Context, v: Value)
    decreases v
  {
    match v
    case VEnum(_, m) => m.VInt? || m.VStr?
    case VSeq(_, es) => forall i :: 0 <= i < |es| ==> Proper(ctx, es[i])
    case VDict(es) => DistinctKeys(es) && forall i :: 0 <= i < |es| ==> ProperEntry(ctx, es[i])
    case VObject(c, fs) =>
      && ClassOk(ctx.classes(c)) && |fs| == |ctx.classes(c).fields|
      && forall i :: 0 <= i < |fs| ==> Proper(ctx, fs[i])
    case _ => true
  }

  ghost predicate ProperEntry(ctx: Context, e: Entry)
    decreases e
  {
    (e.key.VStr? || e.key.VInt?) && Proper(ctx, e.value)
  }

  lemma ProperNull(ctx: Context, v: Value)
    requires Proper(ctx, v)
    ensures Encode(ctx, v).VNone? <==> NullOnWire(v)
  {
  }

  // What is written as itself is JSON.
  lemma {:induction false} WrittenAsItself(ctx: Context, v: Value)
    requires Proper(ctx, v) && Encode(ctx, v) == v
    ensures IsJson(v)
    decreases v
  {
    match v
    case VSeq(_, es) =>
      forall i | 0 <= i < |es| ensures IsJson(es[i]) {
        assert EncodeAll(ctx, es)[i] == es[i];
        WrittenAsItself(ctx, es[i]);
      }
    case VDict(es) =>
      forall i | 0 <= i < |es| ensures IsJsonEntry(es[i]) {
        assert ProperEntry(ctx, es[i]) && EncodeEntries(ctx, es)[i] == es[i];
        EntryWrittenAsItself(ctx, es[i]);
      }
    case _ =>
  }

  lemma {:induction false} EntryWrittenAsItself(ctx: Context, e: Entry)
    requires ProperEntry(ctx, e) && EncodeEntry(ctx, e) == e
    ensures IsJsonEntry(e)
    decreases e
  {
    WrittenAsItself(ctx, e.value);
  }

  /* ---- Loops of the parser, read backwards ---- */

  lemma {:induction false} ElementsForward(ctx: Context, name: string, raws: seq<Value>, element: Ty, kind: Kind,
                                           acc: seq<Value>)
    returns (out: seq<Value>)
    requires kind == SetKind ==> IsSet(acc)
    requires ParseElements(ctx, name, raws, element, kind, acc).Ok?
    ensures ParseElements(ctx, name, raws, element, kind, acc) == Ok(VSeq(kind, out))
    ensures |out| <= |acc| + |raws| && (kind == SetKind ==> IsSet(out))
    ensures |out| == |acc| + |raws| ==> out[..|acc|] == acc && forall k :: 0 <= k < |raws| ==>
      ParseValue(ctx, name, raws[k], element, None, false, false) == Ok(out[|acc| + k])
    decreases raws
  {
    hide ParseValue, Hashable, Canonical;
    if raws == [] {
      out := acc;
    } else {
      var v := ParseValue(ctx, name, raws[0], element, None, false, false).value;
      var acc' := Added(kind, acc, v);
      out := ElementsForward(ctx, name, raws[1..], element, kind, acc');
      if |out| == |acc| + |raws| {
        assert acc' == acc + [v];
        assert out[..|acc|] == out[..|acc'|][..|acc|] && out[|acc|] == out[..|acc'|][|acc|];
        forall k | 0 <= k < |raws|
          ensures ParseValue(ctx, name, raws[k], element, None, false, false) == Ok(out[|acc| + k])
        {
          if k > 0 { assert raws[1..][k - 1] == raws[k]; }
        }
      }
    }
  }

  lemma {:induction false} PutLength(es: seq<Entry>, k: Value, v: Value)
    ensures |es| <= |Put(es, k, v)| <= |es| + 1
    ensures |Put(es, k, v)| == |es| + 1 ==> Put(es, k, v) == es + [Entry(k, v)]
  {
    if es != [] { PutLength(es[1..], k, v); }
  }

  lemma {:induction false} EntriesForward(ctx: Context, raws: seq<Entry>, key: Ty, value: Ty, allowNone: bool,
                                          allowSdk: bool, acc: seq<Entry>)
    returns (out: seq<Entry>)
    requires ParseEntries(ctx, raws, key, value, allowNone, allowSdk, acc).Ok?
    ensures ParseEntries(ctx, raws, key, value, allowNone, allowSdk, acc) == Ok(VDict(out))
    ensures |out| <= |acc| + |raws|
    ensures |out| == |acc| + |raws| ==> out[..|acc|] == acc && forall k :: 0 <= k < |raws| ==>
      EntryBack(ctx, raws[k], out[|acc| + k], key, value, allowNone, allowSdk)
    decreases raws
  {
    hide ParseValue;
    if raws == [] {
      out := acc;
    } else {
      var k := ParseValue(ctx, KeyName(raws[0].key), raws[0].key, key, None, false, false).value;
      var x := ParseValue(ctx, KeyName(raws[0].key) + ".value", raws[0].value, value, None, allowNone, allowSdk).value;
      PutLength(acc, k, x);
      var acc' := Put(acc, k, x);
      out := EntriesForward(ctx, raws[1..], key, value, allowNone, allowSdk, acc');
      if |out| == |acc| + |raws| {
        assert acc' == acc + [Entry(k, x)];
        assert EntryBack(ctx, raws[0], Entry(k, x), key, value, allowNone, allowSdk);
        hide ParseEntries, EntryBack;
        assert out[..|acc|] == out[..|acc'|][..|acc|] && out[|acc|] == out[..|acc'|][|acc|];
        forall j | 0 <= j < |raws| ensures EntryBack(ctx, raws[j], out[|acc| + j], key, value, allowNone, allowSdk) {
          if j > 0 { assert raws[1..][j - 1] == raws[j]; }
        }
      }
    }
  }

  lemma {:induction false} FieldsForward(ctx: Context, cls: nat, es: seq<Entry>, fs: seq<Value>, i: nat, k: nat)
    requires |fs| == |ctx.classes(cls).fields| && i <= k < |fs|
    requires ParseFields(ctx, cls, i, es, true, false) == Ok(fs[i..])
    ensures var c := ctx.classes(cls);
      ParseValue(ctx, FieldName(c, k), Raw(c, es, k), c.fields[k].ty, c.fields[k].default, true, false) == Ok(fs[k])
    decreases k - i
  {
    hide ParseValue;
    if i < k {
      assert fs[i..][1..] == fs[i + 1..];
      FieldsForward(ctx, cls, es, fs, i + 1, k);
    }
  }

  /** A union takes the value of its first member that does not reject; so it returns v if and only if some
      member does and all before it reject. */
  lemma {:induction false} UnionFirstIff(ctx: Context, name: string, raw: Value, alts: seq<Ty>, allowNone: bool,
                                         allowSdk: bool, v: Value)
    ensures ParseUnion(ctx, name, raw, alts, allowNone, allowSdk) == Ok(v)
      <==> exists i :: 0 <= i < |alts| && EarlierReject(ctx, name, raw, alts, i, allowNone, allowSdk)
             && ParseValue(ctx, name, raw, alts[i], None, allowNone, allowSdk) == Ok(v)
  {
    hide ParseValue;
    if exists i :: 0 <= i < |alts| && EarlierReject(ctx, name, raw, alts, i, allowNone, allowSdk)
         && ParseValue(ctx, name, raw, alts[i], None, allowNone, allowSdk) == Ok(v) {
      var i :| 0 <= i < |alts| && EarlierReject(ctx, name, raw, alts, i, allowNone, allowSdk)
        && ParseValue(ctx, name, raw, alts[i], None, allowNone, allowSdk) == Ok(v);
      UnionBack(ctx, name, raw, alts, i, allowNone, allowSdk, v);
    }
    if ParseUnion(ctx, name, raw, alts, allowNone, allowSdk) == Ok(v) {
      var i := FirstAccepting(ctx, name, raw, alts, allowNone, allowSdk);
    }
  }

  lemma {:induction false} FirstAccepting(ctx: Context, name: string, raw: Value, alts: seq<Ty>, allowNone: bool,
                                          allowSdk: bool)
    returns (i: nat)
    requires ParseUnion(ctx, name, raw, alts, allowNone, allowSdk).Ok?
    ensures i < |alts| && EarlierReject(ctx, name, raw, alts, i, allowNone, allowSdk)
    ensures ParseValue(ctx, name, raw, alts[i], None, allowNone, allowSdk)
      == ParseUnion(ctx, name, raw, alts, allowNone, allowSdk)
    decreases alts
  {
    hide ParseValue;
    if ParseValue(ctx, name, raw, alts[0], None, allowNone, allowSdk).Ok? {
      i := 0;
    } else {
      var k := FirstAccepting(ctx, name, raw, alts[1..], allowNone, allowSdk);
      i := k + 1;
      forall j | 0 <= j < i ensures Rejected(ParseValue(ctx, name, raw, alts[j], None, allowNone, allowSdk)) {
        if j > 0 { assert alts[1..][j - 1] == alts[j]; }
      }
    }
  }

  /* ---- Nothing but null comes of null ---- */

  lemma {:induction false} NullStaysNull(ctx: Context, name: string, ty: Ty, allowNone: bool, allowSdk: bool)
    ensures var r := ParseByType(ctx, name, VNone, ty, allowNone, allowSdk); r.Ok? ==> NullOnWire(r.value)
    ensures var r := ParseValue(ctx, name, VNone, ty, None, allowNone, allowSdk); r.Ok? ==> NullOnWire(r.value)
    decreases ty
  {
    if ty.UnionTy? {
      hide ParseUnion;
      var r := ParseUnion(ctx, name, VNone, ty.alternatives, allowNone, allowSdk);
      if r.Ok? {
        var i := FirstAccepting(ctx, name, VNone, ty.alternatives, allowNone, allowSdk);
        NullStaysNull(ctx, name, ty.alternatives[i], allowNone, allowSdk);
      }
    }
  }

  // A dictionary with a null under "TLVValue" is read as null.
  lemma NullTlvIsNull(ctx: Context, name: string, raw: Value, ty: Ty, allowNone: bool, allowSdk: bool)
    requires NullTlv(raw) && !ty.ClassTy?
    ensures var r := ParseValue(ctx, name, raw, ty, None, allowNone, allowSdk); r.Ok? ==> NullOnWire(r.value)
  {
    hide Get, ParseByType;
    NullStaysNull(ctx, name, ty, allowNone, allowSdk);
  }

  /* ---- Type by type ---- */

  lemma NullExact(ctx: Context, name: string, v: Value, ty: Ty, allowNone: bool, allowSdk: bool)
    requires NullOnWire(v) && !ty.UnionTy?
    requires ParseValue(ctx, name, Encode(ctx, v), ty, None, allowNone, allowSdk) == Ok(v)
    ensures Fits(ctx, name, v, ty, allowNone, allowSdk)
  {
  }

  predicate HasParts(v: Value) {
    v.VSeq? || v.VDict? || v.VObject?
  }

  // What has parts does not come back under a type without.
  lemma PartsExact(ctx: Context, name: string, v: Value, ty: Ty, allowNone: bool, allowSdk: bool)
    requires HasParts(v) && !ty.UnionTy? && !ty.SeqTy? && !ty.DictTy? && !ty.ClassTy? && !ty.AnyTy?
    ensures ParseValue(ctx, name, Encode(ctx, v), ty, None, allowNone, allowSdk) != Ok(v)
  {
    hide Get;
    if NullTlv(Encode(ctx, v)) { NullTlvIsNull(ctx, name, Encode(ctx, v), ty, allowNone, allowSdk); }
  }

  // Types without parts.
  lemma LeafExact(ctx: Context, name: string, v: Value, ty: Ty, allowNone: bool, allowSdk: bool)
    requires Proper(ctx, v) && !NullOnWire(v) && !ty.UnionTy? && !ty.SeqTy? && !ty.DictTy? && !ty.ClassTy?
    requires ParseValue(ctx, name, Encode(ctx, v), ty, None, allowNone, allowSdk) == Ok(v)
    ensures Fits(ctx, name, v, ty, allowNone, allowSdk)
  {
    if ty.AnyTy? {
      hide ParseValue, Encode;
      if NullTlv(Encode(ctx, v)) { NullTlvIsNull(ctx, name, Encode(ctx, v), ty, allowNone, allowSdk); }
      else { AnyExact(ctx, name, v, allowNone, allowSdk); }
    } else if HasParts(v) {
      hide ParseValue, Encode;
      PartsExact(ctx, name, v, ty, allowNone, allowSdk);
    } else {
      ScalarExact(ctx, name, v, ty, allowNone, allowSdk);
    }
  }

  lemma ScalarExact(ctx: Context, name: string, v: Value, ty: Ty, allowNone: bool, allowSdk: bool)
    requires Proper(ctx, v) && !NullOnWire(v) && !HasParts(v)
    requires !ty.UnionTy? && !ty.SeqTy? && !ty.DictTy? && !ty.ClassTy? && !ty.AnyTy?
    requires ParseValue(ctx, name, Encode(ctx, v), ty, None, allowNone, allowSdk) == Ok(v)
    ensures Fits(ctx, name, v, ty, allowNone, allowSdk)
  {
    hide Get, Base64.Decode, Base64.Encode;
  }

  lemma AnyExact(ctx: Context, name: string, v: Value, allowNone: bool, allowSdk: bool)
    requires Proper(ctx, v) && !NullTlv(Encode(ctx, v))
    requires ParseValue(ctx, name, Encode(ctx, v), AnyTy, None, allowNone, allowSdk) == Ok(v)
    ensures IsJson(v) && !NullTlv(v)
  {
    hide Get, Encode, IsJson;
    WrittenAsItself(ctx, v);
  }

  // A type with parts given something else.
  lemma OtherExact(ctx: Context, name: string, v: Value, ty: Ty, allowNone: bool, allowSdk: bool)
    requires Proper(ctx, v) && !NullOnWire(v)
    requires ParseValue(ctx, name, Encode(ctx, v), ty, None, allowNone, allowSdk) == Ok(v)
    ensures ty.SeqTy? && !(v == VBytes([]) && name == NOC) ==> v.VSeq? && v.kind == ty.kind
    ensures ty.DictTy? ==> v.VDict? && !NullTlv(Encode(ctx, v))
    ensures ty.ClassTy? && !(v == VBytes([]) && name == NOC) ==> v.VObject? && v.cls == ty.cls
  {
    hide Get, ParseFields;
    var raw := Encode(ctx, v);
    if ty.SeqTy? && raw.VSeq? {
      SeqReaches(ctx, name, raw.elements, ty.kind, ty.element, allowNone, allowSdk);
      var _ := ElementsForward(ctx, name, NonNull(raw.elements), ty.element, ty.kind, []);
    } else if ty.DictTy? && raw.VDict? {
      DictReaches(ctx, name, raw.entries, ty.key, ty.value, allowNone, allowSdk);
      var _ := EntriesForward(ctx, raw.entries, ty.key, ty.value, allowNone, allowSdk, []);
    } else if ty.ClassTy? {
      ClassShape(ctx, name, raw, ty.cls, allowNone, allowSdk);
    } else if NullTlv(raw) {
      NullTlvIsNull(ctx, name, raw, ty, allowNone, allowSdk);
    }
  }

  lemma ClassShape(ctx: Context, name: string, raw: Value, cls: nat, allowNone: bool, allowSdk: bool)
    requires ParseValue(ctx, name, raw, ClassTy(cls), None, allowNone, allowSdk).Ok? && !raw.VObject?
    ensures var r := ParseValue(ctx, name, raw, ClassTy(cls), None, allowNone, allowSdk).value;
      (r.VObject? && r.cls == cls) || NullOnWire(r) || (r == VBytes([]) && name == NOC)
  {
    hide Get, ParseFields, Renamed, FromDict;
    if raw.VDict? {
      var es := Labelled(ctx, ClassTy(cls), raw.entries);
      ObjectShape(ctx, cls, es);
      NullStaysNull(ctx, name, ClassTy(cls), allowNone, allowSdk);
    }
  }

  lemma ObjectShape(ctx: Context, cls: nat, es: seq<Entry>)
    ensures var r := FromDict(ctx, cls, es, false, false); r.Ok? ==> r.value.VObject? && r.value.cls == cls
  {
    hide ParseFields;
  }

  lemma {:induction false} NoNulls(vs: seq<Value>)
    ensures |NonNull(vs)| <= |vs|
    ensures |NonNull(vs)| == |vs| ==> NonNull(vs) == vs && forall i :: 0 <= i < |vs| ==> !vs[i].VNone?
  {
    if vs != [] {
      NoNulls(vs[1..]);
      if |NonNull(vs)| == |vs| {
        forall i | 0 <= i < |vs| ensures !vs[i].VNone? {
          if i > 0 { assert vs[1..][i - 1] == vs[i]; }
        }
      }
    }
  }

  // The parts of a sequence that is read back.
  lemma SeqParts(ctx: Context, name: string, vs: seq<Value>, kind: Kind, element: Ty, allowNone: bool, allowSdk: bool)
    requires ParseValue(ctx, name, Encode(ctx, VSeq(kind, vs)), SeqTy(kind, element), None, allowNone, allowSdk)
      == Ok(VSeq(kind, vs))
    ensures kind == SetKind ==> IsSet(vs)
    ensures forall k :: 0 <= k < |vs| ==> !Encode(ctx, vs[k]).VNone?
    ensures forall k :: 0 <= k < |vs| ==>
      ParseValue(ctx, name, Encode(ctx, vs[k]), element, None, false, false) == Ok(vs[k])
  {
    var raws := EncodeAll(ctx, vs);
    assert Encode(ctx, VSeq(kind, vs)) == VSeq(ListKind, raws);
    hide ParseValue, Encode, IsSet;
    SeqReaches(ctx, name, raws, kind, element, allowNone, allowSdk);
    assert IsSet([]) by { EmptySet(); }
    var out := ElementsForward(ctx, name, NonNull(raws), element, kind, []);
    NoNulls(raws);
    assert out == vs;
  }

  lemma EmptySet()
    ensures IsSet([])
  {
  }

  // The parts of a dictionary that is read back.
  lemma DictParts(ctx: Context, name: string, es: seq<Entry>, key: Ty, value: Ty, allowNone: bool, allowSdk: bool)
    requires ParseValue(ctx, name, Encode(ctx, VDict(es)), DictTy(key, value), None, allowNone, allowSdk)
      == Ok(VDict(es))
    ensures Get(EncodeEntries(ctx, es), TLV_VALUE) != Some(VNone)
    ensures forall k :: 0 <= k < |es| ==>
      EntryBack(ctx, EncodeEntry(ctx, es[k]), es[k], key, value, allowNone, allowSdk)
  {
    var raws := EncodeEntries(ctx, es);
    assert Encode(ctx, VDict(es)) == VDict(raws);
    hide ParseValue, Encode, Get, EntryBack, EncodeEntry, ParseEntries;
    DictReaches(ctx, name, raws, key, value, allowNone, allowSdk);
    var out := EntriesForward(ctx, raws, key, value, allowNone, allowSdk, []);
    forall k | 0 <= k < |es| ensures EntryBack(ctx, EncodeEntry(ctx, es[k]), es[k], key, value, allowNone, allowSdk) {
      assert raws[k] == EncodeEntry(ctx, es[k]) && out[0 + k] == es[k];
    }
  }

  // The fields of an object that is read back.
  lemma ClassParts(ctx: Context, name: string, cls: nat, fs: seq<Value>, allowNone: bool, allowSdk: bool, k: nat)
    requires ClassOk(ctx.classes(cls)) && |fs| == |ctx.classes(cls).fields| && k < |fs|
    requires ParseValue(ctx, name, Encode(ctx, VObject(cls, fs)), ClassTy(cls), None, allowNone, allowSdk)
      == Ok(VObject(cls, fs))
    ensures var c := ctx.classes(cls);
      ParseValue(ctx, FieldName(c, k), Encode(ctx, fs[k]), c.fields[k].ty, c.fields[k].default, true, false)
        == Ok(fs[k])
  {
    var c := ctx.classes(cls);
    var es := EncodeFields(ctx, c.fields, fs);
    assert Encode(ctx, VObject(cls, fs)) == VDict(es);
    hide ParseValue, Encode, Get, ParseFields;
    ObjectHasNoNullTlv(ctx, c, fs);
    ObjectReaches(ctx, name, cls, es, allowNone, allowSdk);
    assert fs[0..] == fs;
    FieldsForward(ctx, cls, es, fs, 0, k);
    FieldFound(ctx, c, fs, k);
  }

  lemma {:induction false} NumberKeyExact(ctx: Context, k: Value, ty: Ty)
    requires k.VInt? && ParseValue(ctx, EncodeKey(k).s, EncodeKey(k), ty, None, false, false) == Ok(k)
    ensures NumberKeyFits(ctx, k, ty)
    decreases ty
  {
    var raw := EncodeKey(k);
    assert raw != VStr(NOC) by { assert !IsDigit(NOC[0]) && NOC[0] != '-'; }
    assert k.n < 0 ==> !IsDigit(raw.s[0]);
    match ty
    case IntTy =>
    case UnionTy(alts) =>
      UnionOfNumber(ctx, raw.s, raw, alts, k);
      hide ParseValue;
      var i := FirstAccepting(ctx, raw.s, raw, alts, false, false);
      NumberKeyExact(ctx, k, alts[i]);
    case _ => hide ParseUnion;
  }

  // A union that returns something of text returns what its first accepting member does, or None.
  lemma UnionOfNumber(ctx: Context, name: string, raw: Value, alts: seq<Ty>, v: Value)
    requires !raw.VNone? && !raw.VDict? && !v.VNone?
    requires ParseValue(ctx, name, raw, UnionTy(alts), None, false, false) == Ok(v)
    ensures ParseUnion(ctx, name, raw, alts, false, false) == Ok(v)
  {
    hide ParseUnion;
    ReachesType(ctx, name, raw, UnionTy(alts), None, false, false);
  }

  // The same for any value that is not a null in disguise.
  lemma UnionParts(ctx: Context, name: string, v: Value, alts: seq<Ty>, allowNone: bool, allowSdk: bool)
    requires Proper(ctx, v)
    requires ParseValue(ctx, name, Encode(ctx, v), UnionTy(alts), None, allowNone, allowSdk) == Ok(v)
    requires !(NullOnWire(v) && ((NullableTy in alts && allowSdk) || NoneTy in alts))
    ensures ParseUnion(ctx, name, Encode(ctx, v), alts, allowNone, allowSdk) == Ok(v)
  {
    hide ParseUnion, Get;
    var raw := Encode(ctx, v);
    ProperNull(ctx, v);
    if NullTlv(raw) {
      NullTlvIsNull(ctx, name, raw, UnionTy(alts), allowNone, allowSdk);
    } else if !raw.VNone? {
      ReachesType(ctx, name, raw, UnionTy(alts), None, allowNone, allowSdk);
    }
  }

  /* ---- The exact round trip ---- */

  /** Whatever is read back as it was written fits its type. */
  lemma {:induction false} BackFits(ctx: Context, name: string, v: Value, ty: Ty, allowNone: bool, allowSdk: bool)
    requires Proper(ctx, v)
    requires ParseValue(ctx, name, Encode(ctx, v), ty, None, allowNone, allowSdk) == Ok(v)
    ensures Fits(ctx, name, v, ty, allowNone, allowSdk)
    decreases v, ty, 1
  {
    if ty.UnionTy? {
      UnionFits(ctx, name, v, ty.alternatives, allowNone, allowSdk);
    } else if NullOnWire(v) {
      NullExact(ctx, name, v, ty, allowNone, allowSdk);
    } else if !ty.SeqTy? && !ty.DictTy? && !ty.ClassTy? {
      LeafExact(ctx, name, v, ty, allowNone, allowSdk);
    } else if !(v == VBytes([]) && name == NOC && !ty.DictTy?) {
      OtherExact(ctx, name, v, ty, allowNone, allowSdk);
      hide ParseValue, Encode;
      match ty
      case SeqTy(kind, element) =>
        SeqParts(ctx, name, v.elements, kind, element, allowNone, allowSdk);
        forall i | 0 <= i < |v.elements|
          ensures !NullOnWire(v.elements[i]) && Fits(ctx, name, v.elements[i], element, false, false)
        {
          ProperNull(ctx, v.elements[i]);
          BackFits(ctx, name, v.elements[i], element, false, false);
        }
      case DictTy(key, value) =>
        DictParts(ctx, name, v.entries, key, value, allowNone, allowSdk);
        forall i | 0 <= i < |v.entries| ensures EntryFits(ctx, v.entries[i], key, value, allowNone, allowSdk) {
          assert ProperEntry(ctx, v.entries[i]);
          TlvEntry(ctx, v.entries, i);
          EntryBackFits(ctx, v.entries[i], key, value, allowNone, allowSdk);
        }
      case ClassTy(c) =>
        forall i | 0 <= i < |v.fields| ensures FieldFits(ctx, ctx.classes(c), i, v.fields[i]) {
          ClassParts(ctx, name, c, v.fields, allowNone, allowSdk, i);
          FieldBackFits(ctx, ctx.classes(c), i, v.fields[i]);
        }
    }
  }

  // The entry under "TLVValue", if it is the i-th, is not null.
  lemma TlvEntry(ctx: Context, es: seq<Entry>, i: nat)
    requires DistinctKeys(es) && (forall k :: 0 <= k < |es| ==> ProperEntry(ctx, es[k])) && i < |es|
    requires Get(EncodeEntries(ctx, es), TLV_VALUE) != Some(VNone)
    ensures es[i].key == TLV_VALUE ==> !NullOnWire(es[i].value)
  {
    hide Get, Encode, Proper;
    if es[i].key == TLV_VALUE {
      var out := EncodeEntries(ctx, es);
      forall k | 0 <= k < |es| && k != i ensures out[k].key != TLV_VALUE {
        assert ProperEntry(ctx, es[k]);
        KeyText(es[k].key);
      }
      GetOnly(out, i);
      ProperEntryNull(ctx, es[i]);
    }
  }

  lemma ProperEntryNull(ctx: Context, e: Entry)
    requires ProperEntry(ctx, e)
    ensures Encode(ctx, e.value).VNone? <==> NullOnWire(e.value)
  {
    ProperNull(ctx, e.value);
  }

  lemma {:induction false} GetOnly(es: seq<Entry>, i: nat)
    requires i < |es| && forall k :: 0 <= k < |es| && k != i ==> es[k].key != es[i].key
    ensures Get(es, es[i].key) == Some(es[i].value)
  {
    if i == 0 { GetAbsent(es[1..], es[0].key); } else { GetOnly(es[1..], i - 1); }
  }

  lemma {:induction false} UnionFits(ctx: Context, name: string, v: Value, alts: seq<Ty>, allowNone: bool,
                                     allowSdk: bool)
    requires Proper(ctx, v)
    requires ParseValue(ctx, name, Encode(ctx, v), UnionTy(alts), None, allowNone, allowSdk) == Ok(v)
    ensures Fits(ctx, name, v, UnionTy(alts), allowNone, allowSdk)
    decreases v, UnionTy(alts), 0
  {
    if NullOnWire(v) && ((NullableTy in alts && allowSdk) || NoneTy in alts) {
      hide ParseUnion;
    } else {
      UnionParts(ctx, name, v, alts, allowNone, allowSdk);
      hide ParseValue, Encode;
      var i := FirstAccepting(ctx, name, Encode(ctx, v), alts, allowNone, allowSdk);
      BackFits(ctx, name, v, alts[i], allowNone, allowSdk);
    }
  }

  lemma {:induction false} EntryBackFits(ctx: Context, e: Entry, key: Ty, value: Ty, allowNone: bool, allowSdk: bool)
    requires ProperEntry(ctx, e) && (e.key == TLV_VALUE ==> !NullOnWire(e.value))
    requires EntryBack(ctx, EncodeEntry(ctx, e), e, key, value, allowNone, allowSdk)
    ensures EntryFits(ctx, e, key, value, allowNone, allowSdk)
    decreases e, value, 2
  {
    hide ParseValue;
    if e.key.VStr? { BackFits(ctx, e.key.s, e.key, key, false, false); } else { NumberKeyExact(ctx, e.key, key); }
    BackFits(ctx, KeyName(EncodeKey(e.key)) + ".value", e.value, value, allowNone, allowSdk);
  }

  lemma {:induction false} FieldBackFits(ctx: Context, c: Class, i: nat, v: Value)
    requires Proper(ctx, v) && i < |c.fields|
    requires ParseValue(ctx, FieldName(c, i), Encode(ctx, v), c.fields[i].ty, c.fields[i].default, true, false) == Ok(v)
    ensures FieldFits(ctx, c, i, v)
    decreases v, c.fields[i].ty, 2
  {
    hide ParseValue;
    ProperNull(ctx, v);
    WithDefault(ctx, FieldName(c, i), Encode(ctx, v), c.fields[i].ty, c.fields[i].default, true, false);
    if !(NullOnWire(v) && c.fields[i].default.Some?) {
      BackFits(ctx, FieldName(c, i), v, c.fields[i].ty, true, false);
    }
  }

  /** A value of the program is read back as it was written if and only if it fits its type, for every type,
      nested to any depth, unions, dictionary keys and the special name included. */
  lemma RoundTripIff(ctx: Context, name: string, v: Value, ty: Ty, allowNone: bool, allowSdk: bool)
    requires Proper(ctx, v)
    ensures ParseValue(ctx, name, Encode(ctx, v), ty, None, allowNone, allowSdk) == Ok(v)
      <==> Fits(ctx, name, v, ty, allowNone, allowSdk)
  {
    hide ParseValue, Fits, Encode;
    if ParseValue(ctx, name, Encode(ctx, v), ty, None, allowNone, allowSdk) == Ok(v) {
      BackFits(ctx, name, v, ty, allowNone, allowSdk);
    }
    if Fits(ctx, name, v, ty, allowNone, allowSdk) { RoundTrip(ctx, name, v, ty, allowNone, allowSdk); }
  }
}
