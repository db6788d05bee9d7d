/** Structs as the devices send them, keyed by the tags of their fields instead of their names, and keys that
    belong to no field. */
module WireTags {
  import opened Wrappers
  import opened Decimal
  import opened Wire
  import opened WireRoundTrip
  import opened WireExact

  /* ---- Keys ---- */

  // The key reads as the number, as text of digits or as an integer.
  predicate Reads(key: Value, t: nat) {
    (key.VStr? && IsNumeric(key.s) && ToNat(key.s) == t) || key == VInt(t)
  }

  // The key is the name of the i-th field, or a tag that has this name as its label.
  ghost predicate Denotes(c: Class, i: nat, key: Value)
    requires i < |c.fields|
  {
    || key == VStr(c.fields[i].name)
    || (c.tags.Some? && exists t :: t in c.tags.value && c.tags.value[t] == c.fields[i].name && Reads(key, t))
  }

  // The key is text that is no tag.
  predicate Stray(c: Class, key: Value) {
    key.VStr? && key != TLV_VALUE
      && (c.tags.Some? && IsNumeric(key.s) ==> ToNat(key.s) !in c.tags.value)
  }

  /** The key of a tag becomes its label, whether it is text or an integer; text that is no number, numbers that are
      no tag and negative ones stay as they are. */
  lemma TagKeyIs(tags: map<nat, string>, key: Value, t: nat)
    ensures TagKey(tags, VStr(Str(t))) == if t in tags then VStr(tags[t]) else VStr(Str(t))
    ensures Reads(key, t) ==> TagKey(tags, key) == if t in tags then VStr(tags[t]) else key
    ensures key.VStr? && !IsNumeric(key.s) ==> TagKey(tags, key) == key
    ensures key.VInt? && key.n < 0 ==> TagKey(tags, key) == key
  {
    ToNatOfStr(t);
  }

  // What a key is looked up as.
  function LabelOf(c: Class, key: Value): Value {
    if c.tags.Some? then TagKey(c.tags.value, key) else key
  }

  lemma DenotesIs(c: Class, i: nat, key: Value)
    requires ClassOk(c) && i < |c.fields| && (key.VStr? || key.VInt?)
    ensures Denotes(c, i, key) <==> LabelOf(c, key) == VStr(c.fields[i].name)
  {
    if c.tags.Some? && LabelOf(c, key) != key { assert Reads(key, TagNumber(key).value); }
  }

  lemma {:induction false} RenamedAt(tags: map<nat, string>, es: seq<Entry>, i: nat)
    requires i < |es|
    ensures Renamed(tags, es)[i] == Entry(TagKey(tags, es[i].key), es[i].value)
  {
    if i > 0 { RenamedAt(tags, es[1..], i - 1); }
  }

  lemma LabelledAt(ctx: Context, cls: nat, es: seq<Entry>)
    ensures |Labelled(ctx, ClassTy(cls), es)| == |es|
    ensures forall i :: 0 <= i < |es| ==>
      Labelled(ctx, ClassTy(cls), es)[i] == Entry(LabelOf(ctx.classes(cls), es[i].key), es[i].value)
  {
    var c := ctx.classes(cls);
    if c.tags.Some? {
      forall i | 0 <= i < |es| ensures Renamed(c.tags.value, es)[i] == Entry(LabelOf(c, es[i].key), es[i].value) {
        RenamedAt(c.tags.value, es, i);
      }
    }
  }

  /* ---- Dictionaries keyed by tags ---- */

  // Exactly one entry denotes the i-th field.
  ghost predicate EntryOf(c: Class, es: seq<Entry>, i: nat, j: nat)
    requires i < |c.fields|
  {
    j < |es| && forall k :: 0 <= k < |es| ==> (Denotes(c, i, es[k].key) <==> k == j)
  }

  // Every key denotes a field or is no tag, whatever the order of the entries.
  ghost predicate KeysOk(c: Class, es: seq<Entry>) {
    forall k :: 0 <= k < |es| ==>
      && (es[k].key.VStr? || es[k].key.VInt?)
      && (Stray(c, es[k].key) || exists i :: 0 <= i < |c.fields| && Denotes(c, i, es[k].key))
  }

  /** `raw` is one of the ways to write `v`: as the encoder does, or with the structs it holds keyed by tags,
      in any order, beside entries that belong to no field; at any depth of structs, lists, dictionaries and unions. */
  ghost predicate Written(ctx: Context, name: string, raw: Value, v: Value, ty: Ty, allowNone: bool, allowSdk: bool)
    decreases v, ty, 0
  {
    if raw == Encode(ctx, v) then true
    else if NullOnWire(v) then false
    else
      match ty
      case ClassTy(cls) =>
        && raw.VDict? && v.VObject? && v.cls == cls && |v.fields| == |ctx.classes(cls).fields|
        && KeysOk(ctx.classes(cls), raw.entries)
        && forall i :: 0 <= i < |v.fields| ==> FieldSomewhere(ctx, cls, raw.entries, i, v.fields[i])
      case SeqTy(kind, element) =>
        && v.VSeq? && raw.VSeq? && raw.kind == ListKind && |raw.elements| == |v.elements|
        && forall i :: 0 <= i < |v.elements| ==>
          Written(ctx, name, raw.elements[i], v.elements[i], element, false, false)
      case DictTy(key, value) =>
        && v.VDict? && raw.VDict? && |raw.entries| == |v.entries|
        && forall i :: 0 <= i < |v.entries| ==>
          EntryWritten(ctx, raw.entries[i], v.entries[i], value, allowNone, allowSdk)
      case UnionTy(alts) =>
        exists i :: 0 <= i < |alts| && WrittenAs(ctx, name, raw, v, alts, i, allowNone, allowSdk)
      case _ => false
  }

  ghost predicate EntryWritten(ctx: Context, raw: Entry, e: Entry, value: Ty, allowNone: bool, allowSdk: bool)
    decreases e, value, 1
  {
    && raw.key == EncodeKey(e.key)
    && Written(ctx, KeyName(raw.key) + ".value", raw.value, e.value, value, allowNone, allowSdk)
  }

  ghost predicate FieldSomewhere(ctx: Context, cls: nat, es: seq<Entry>, i: nat, v: Value)
    requires i < |ctx.classes(cls).fields|
    decreases v, ctx.classes(cls).fields[i].ty, 2
  {
    exists j :: FieldWritten(ctx, cls, es, i, j, v)
  }

  ghost predicate FieldWritten(ctx: Context, cls: nat, es: seq<Entry>, i: nat, j: nat, v: Value)
    requires i < |ctx.classes(cls).fields|
    decreases v, ctx.classes(cls).fields[i].ty, 1
  {
    var c := ctx.classes(cls);
    EntryOf(c, es, i, j) && Written(ctx, FieldName(c, i), es[j].value, v, c.fields[i].ty, true, false)
  }

  ghost predicate WrittenAs(ctx: Context, name: string, raw: Value, v: Value, alts: seq<Ty>, i: nat, allowNone: bool,
                            allowSdk: bool)
    requires i < |alts|
    decreases v, alts[i], 1
  {
    && Fits(ctx, name, v, alts[i], allowNone, allowSdk) && Written(ctx, name, raw, v, alts[i], allowNone, allowSdk)
    && EarlierReject(ctx, name, raw, alts, i, allowNone, allowSdk)
  }

  // Neither null nor a value the SDK could not parse.
  lemma {:induction false} WrittenProper(ctx: Context, name: string, raw: Value, v: Value, ty: Ty, allowNone: bool,
                                         allowSdk: bool)
    requires raw != Encode(ctx, v) && Written(ctx, name, raw, v, ty, allowNone, allowSdk)
    requires Fits(ctx, name, v, ty, allowNone, allowSdk)
    ensures !raw.VNone? && !NullTlv(raw)
    decreases v, ty, 1
  {
    hide Fits, NullTlv, Written, KeysOk, EarlierReject, Encode, ClassOk, FieldFits;
    WrittenCases(ctx, name, raw, v, ty, allowNone, allowSdk);
    match ty
    case ClassTy(cls) =>
      ClassFits(ctx, name, v, cls, allowNone, allowSdk);
      NotNullTlv(ctx.classes(cls), raw.entries);
    case SeqTy(_, _) => assert !NullTlv(raw) by { ListIsNoDict(raw); }
    case DictTy(key, value) => EntriesProper(ctx, name, raw, v, key, value, allowNone, allowSdk);
    case UnionTy(alts) =>
      var i :| 0 <= i < |alts| && WrittenAs(ctx, name, raw, v, alts, i, allowNone, allowSdk);
      WrittenProper(ctx, name, raw, v, alts[i], allowNone, allowSdk);
  }

  lemma {:induction false} EntriesProper(ctx: Context, name: string, raw: Value, v: Value, key: Ty, value: Ty,
                                         allowNone: bool, allowSdk: bool)
    requires raw != Encode(ctx, v) && Written(ctx, name, raw, v, DictTy(key, value), allowNone, allowSdk)
    requires Fits(ctx, name, v, DictTy(key, value), allowNone, allowSdk)
    ensures raw.VDict? && !NullTlv(raw)
    decreases v, DictTy(key, value), 0
  {
    hide Encode, Get, EncodeKey, KeyFits, IsJson, FieldFits, EarlierReject;
    if NullTlv(raw) {
      var i := GetSomewhere(raw.entries, TLV_VALUE);
      var e := v.entries[i];
      assert EntryWritten(ctx, raw.entries[i], e, value, allowNone, allowSdk);
      assert EntryFits(ctx, e, key, value, allowNone, allowSdk);
      TextOrNumber(ctx, e, key, value, allowNone, allowSdk);
      KeyText(e.key);
      EntryNotNull(ctx, raw.entries[i], e, key, value, allowNone, allowSdk);
    }
  }

  lemma {:induction false} EntryNotNull(ctx: Context, raw: Entry, e: Entry, key: Ty, value: Ty, allowNone: bool,
                                        allowSdk: bool)
    requires EntryFits(ctx, e, key, value, allowNone, allowSdk) && !NullOnWire(e.value)
    requires EntryWritten(ctx, raw, e, value, allowNone, allowSdk)
    ensures !raw.value.VNone?
    decreases e, value, 1
  {
    hide Encode, Fits, Written;
    var name := KeyName(raw.key) + ".value";
    if raw.value == Encode(ctx, e.value) {
      NullEncoded(ctx, name, e.value, value, allowNone, allowSdk);
    } else {
      WrittenProper(ctx, name, raw.value, e.value, value, allowNone, allowSdk);
    }
  }

  lemma ListIsNoDict(raw: Value)
    requires raw.VSeq?
    ensures !NullTlv(raw)
  {
  }

  lemma NotNullTlv(c: Class, es: seq<Entry>)
    requires ClassOk(c) && KeysOk(c, es)
    ensures !NullTlv(VDict(es))
  {
    NoTlvKey(c, es);
    GetAbsent(es, TLV_VALUE);
  }

  lemma WrittenCases(ctx: Context, name: string, raw: Value, v: Value, ty: Ty, allowNone: bool, allowSdk: bool)
    requires raw != Encode(ctx, v) && Written(ctx, name, raw, v, ty, allowNone, allowSdk)
    ensures match ty
      case ClassTy(cls) => raw.VDict? && v.VObject? && KeysOk(ctx.classes(cls), raw.entries)
      case SeqTy(_, _) => raw.VSeq?
      case DictTy(_, _) => raw.VDict? && v.VDict?
      case UnionTy(alts) => exists i :: 0 <= i < |alts| && WrittenAs(ctx, name, raw, v, alts, i, allowNone, allowSdk)
      case _ => false
  {
    hide KeysOk, WrittenAs, FieldSomewhere, EntryWritten, Encode;
  }

  lemma ClassFits(ctx: Context, name: string, v: Value, cls: nat, allowNone: bool, allowSdk: bool)
    requires Fits(ctx, name, v, ClassTy(cls), allowNone, allowSdk) && v.VObject?
    ensures ClassOk(ctx.classes(cls)) && |v.fields| == |ctx.classes(cls).fields|
    ensures forall i :: 0 <= i < |v.fields| ==> FieldFits(ctx, ctx.classes(cls), i, v.fields[i])
  {
    hide ClassOk, FieldFits;
  }

  lemma NoTlvKey(c: Class, es: seq<Entry>)
    requires ClassOk(c) && KeysOk(c, es)
    ensures forall k :: 0 <= k < |es| ==> es[k].key != TLV_VALUE && LabelOf(c, es[k].key) != TLV_VALUE
  {
    forall k | 0 <= k < |es| ensures es[k].key != TLV_VALUE && LabelOf(c, es[k].key) != TLV_VALUE {
      assert !IsDigit(TLV_VALUE.s[0]) && !IsNumeric(TLV_VALUE.s);
      if !Stray(c, es[k].key) {
        var i :| 0 <= i < |c.fields| && Denotes(c, i, es[k].key);
        DenotesIs(c, i, es[k].key);
      }
    }
  }

  lemma ParsedRead(ctx: Context, cls: nat, es: seq<Entry>, i: nat, j: nat, v: Value)
    requires ClassOk(ctx.classes(cls)) && KeysOk(ctx.classes(cls), es)
    requires i < |ctx.classes(cls).fields| && FieldParsed(ctx, cls, es, i, j, v)
    ensures var c := ctx.classes(cls);
      ParseValue(ctx, FieldName(c, i), Raw(c, Labelled(ctx, ClassTy(cls), es), i), c.fields[i].ty, c.fields[i].default,
                 true, false) == Ok(v)
  {
    hide ClassOk, KeysOk, ParseValue, EntryOf;
    FieldRead(ctx, cls, es, i, j);
  }

  // The parser reads the entry that denotes the field.
  lemma FieldRead(ctx: Context, cls: nat, es: seq<Entry>, i: nat, j: nat)
    requires ClassOk(ctx.classes(cls)) && KeysOk(ctx.classes(cls), es)
    requires i < |ctx.classes(cls).fields| && EntryOf(ctx.classes(cls), es, i, j)
    ensures Raw(ctx.classes(cls), Labelled(ctx, ClassTy(cls), es), i) == es[j].value
  {
    hide ClassOk, Denotes;
    var c := ctx.classes(cls);
    var out := Labelled(ctx, ClassTy(cls), es);
    LabelledAt(ctx, cls, es);
    forall k | 0 <= k < |es| ensures out[k].key == VStr(c.fields[i].name) <==> k == j { DenotesIs(c, i, es[k].key); }
    GetOnly(out, j);
  }

  // The entry that denotes the field is parsed to `v`.
  ghost predicate FieldParsed(ctx: Context, cls: nat, es: seq<Entry>, i: nat, j: nat, v: Value)
    requires i < |ctx.classes(cls).fields|
  {
    var c := ctx.classes(cls);
    EntryOf(c, es, i, j)
    && ParseValue(ctx, FieldName(c, i), es[j].value, c.fields[i].ty, c.fields[i].default, true, false) == Ok(v)
  }

  ghost predicate FieldComesBack(ctx: Context, cls: nat, es: seq<Entry>, i: nat, v: Value)
    requires i < |ctx.classes(cls).fields|
  {
    exists j :: FieldParsed(ctx, cls, es, i, j, v)
  }

  // A struct of which every field is read back is read back.
  lemma TaggedBack(ctx: Context, name: string, cls: nat, es: seq<Entry>, fs: seq<Value>, allowNone: bool,
                   allowSdk: bool)
    requires var c := ctx.classes(cls); ClassOk(c) && KeysOk(c, es) && |fs| == |c.fields|
    requires forall i :: 0 <= i < |fs| ==> FieldComesBack(ctx, cls, es, i, fs[i])
    ensures ParseValue(ctx, name, VDict(es), ClassTy(cls), None, allowNone, allowSdk) == Ok(VObject(cls, fs))
  {
    hide ClassOk, KeysOk, EntryOf, Get, ParseFields;
    var c := ctx.classes(cls);
    var out := Labelled(ctx, ClassTy(cls), es);
    NoTlvKey(c, es);
    LabelledAt(ctx, cls, es);
    GetAbsent(out, TLV_VALUE);
    assert ParseValue(ctx, name, VDict(es), ClassTy(cls), None, allowNone, allowSdk)
      == FromDict(ctx, cls, out, false, false);
    hide ParseValue, FieldParsed;
    forall i | 0 <= i < |fs|
      ensures ParseValue(ctx, FieldName(c, i), Raw(c, out, i), c.fields[i].ty, c.fields[i].default, true, false)
        == Ok(fs[i])
    {
      var j :| FieldParsed(ctx, cls, es, i, j, fs[i]);
      ParsedRead(ctx, cls, es, i, j, fs[i]);
    }
    FieldsBack(ctx, cls, out, fs, 0);
    assert fs[0..] == fs;
  }

  /** Whichever of these ways a value that fits its type is written, it is read back. */
  lemma {:induction false} TaggedRoundTrip(ctx: Context, name: string, raw: Value, v: Value, ty: Ty, allowNone: bool,
                                           allowSdk: bool)
    requires Fits(ctx, name, v, ty, allowNone, allowSdk) && Written(ctx, name, raw, v, ty, allowNone, allowSdk)
    ensures ParseValue(ctx, name, raw, ty, None, allowNone, allowSdk) == Ok(v)
    decreases v, ty, 1
  {
    hide ParseValue, Encode, Fits, Written, EarlierReject, ParseUnion;
    if raw == Encode(ctx, v) {
      RoundTrip(ctx, name, v, ty, allowNone, allowSdk);
    } else {
      WrittenCases(ctx, name, raw, v, ty, allowNone, allowSdk);
      match ty
      case ClassTy(cls) => TaggedObject(ctx, name, raw, v, cls, allowNone, allowSdk);
      case SeqTy(kind, element) => TaggedElements(ctx, name, raw, v, kind, element, allowNone, allowSdk);
      case DictTy(key, value) => TaggedEntries(ctx, name, raw, v, key, value, allowNone, allowSdk);
      case UnionTy(alts) =>
        WrittenProper(ctx, name, raw, v, ty, allowNone, allowSdk);
        var i :| 0 <= i < |alts| && WrittenAs(ctx, name, raw, v, alts, i, allowNone, allowSdk);
        TaggedRoundTrip(ctx, name, raw, v, alts[i], allowNone, allowSdk);
        UnionBack(ctx, name, raw, alts, i, allowNone, allowSdk, v);
        UnionReaches(ctx, name, raw, alts, allowNone, allowSdk);
    }
  }

  lemma WrittenAt(ctx: Context, cls: nat, es: seq<Entry>, i: nat, v: Value) returns (j: nat)
    requires i < |ctx.classes(cls).fields| && FieldSomewhere(ctx, cls, es, i, v)
    ensures FieldWritten(ctx, cls, es, i, j, v)
  {
    hide FieldWritten;
    j :| FieldWritten(ctx, cls, es, i, j, v);
  }

  lemma {:induction false} TaggedObject(ctx: Context, name: string, raw: Value, v: Value, cls: nat, allowNone: bool,
                                        allowSdk: bool)
    requires Fits(ctx, name, v, ClassTy(cls), allowNone, allowSdk) && raw != Encode(ctx, v)
    requires Written(ctx, name, raw, v, ClassTy(cls), allowNone, allowSdk)
    ensures ParseValue(ctx, name, raw, ClassTy(cls), None, allowNone, allowSdk) == Ok(v)
    decreases v, ClassTy(cls), 0
  {
    hide ParseValue, Encode, Fits, FieldFits, KeysOk, ClassOk, FieldParsed, FieldSomewhere;
    ClassFits(ctx, name, v, cls, allowNone, allowSdk);
    var c, es := ctx.classes(cls), raw.entries;
    var fs := v.fields;
    forall i | 0 <= i < |fs| ensures FieldComesBack(ctx, cls, es, i, fs[i]) {
      var j := WrittenAt(ctx, cls, es, i, fs[i]);
      TaggedField(ctx, cls, es, i, j, fs[i]);
    }
    TaggedBack(ctx, name, cls, es, fs, allowNone, allowSdk);
  }

  lemma {:induction false} TaggedField(ctx: Context, cls: nat, es: seq<Entry>, i: nat, j: nat, v: Value)
    requires i < |ctx.classes(cls).fields| && FieldFits(ctx, ctx.classes(cls), i, v)
    requires FieldWritten(ctx, cls, es, i, j, v)
    ensures FieldParsed(ctx, cls, es, i, j, v)
    decreases v, ctx.classes(cls).fields[i].ty, 2
  {
    hide ParseValue, Encode, Fits, Denotes;
    var c, raw := ctx.classes(cls), es[j].value;
    if NullOnWire(v) && c.fields[i].default.Some? {
      NullWritten(ctx, v);
    } else {
      TaggedRoundTrip(ctx, FieldName(c, i), raw, v, c.fields[i].ty, true, false);
      if raw == Encode(ctx, v) {
        NullEncoded(ctx, FieldName(c, i), v, c.fields[i].ty, true, false);
      } else {
        WrittenProper(ctx, FieldName(c, i), raw, v, c.fields[i].ty, true, false);
      }
    }
    WithDefault(ctx, FieldName(c, i), raw, c.fields[i].ty, c.fields[i].default, true, false);
  }

  lemma NullWritten(ctx: Context, v: Value)
    requires NullOnWire(v)
    ensures Encode(ctx, v) == VNone
  {
  }

  lemma {:induction false} TaggedElements(ctx: Context, name: string, raw: Value, v: Value, kind: Kind, element: Ty,
                                          allowNone: bool, allowSdk: bool)
    requires Fits(ctx, name, v, SeqTy(kind, element), allowNone, allowSdk) && raw != Encode(ctx, v)
    requires Written(ctx, name, raw, v, SeqTy(kind, element), allowNone, allowSdk)
    ensures ParseValue(ctx, name, raw, SeqTy(kind, element), None, allowNone, allowSdk) == Ok(v)
    decreases v, SeqTy(kind, element), 0
  {
    hide ParseValue, Encode, Fits;
    ElementsFit(ctx, name, v, kind, element, allowNone, allowSdk);
    var raws, vs := raw.elements, v.elements;
    forall i | 0 <= i < |vs|
      ensures !raws[i].VNone? && ParseValue(ctx, name, raws[i], element, None, false, false) == Ok(vs[i])
    {
      TaggedRoundTrip(ctx, name, raws[i], vs[i], element, false, false);
      if raws[i] == Encode(ctx, vs[i]) {
        NullEncoded(ctx, name, vs[i], element, false, false);
      } else {
        WrittenProper(ctx, name, raws[i], vs[i], element, false, false);
      }
    }
    SeqReaches(ctx, name, raws, kind, element, allowNone, allowSdk);
    AllKept(raws);
    ElementsBack(ctx, name, raws, vs, element, kind, 0);
    assert raws[0..] == raws && vs[..0] == [];
  }

  lemma {:induction false} TaggedEntries(ctx: Context, name: string, raw: Value, v: Value, key: Ty, value: Ty,
                                         allowNone: bool, allowSdk: bool)
    requires Fits(ctx, name, v, DictTy(key, value), allowNone, allowSdk) && raw != Encode(ctx, v)
    requires Written(ctx, name, raw, v, DictTy(key, value), allowNone, allowSdk)
    ensures ParseValue(ctx, name, raw, DictTy(key, value), None, allowNone, allowSdk) == Ok(v)
    decreases v, DictTy(key, value), 0
  {
    hide ParseValue, Encode, Fits, EntryFits, EntryBack, EntryWritten;
    DictionaryFits(ctx, name, v, key, value, allowNone, allowSdk);
    EntriesProper(ctx, name, raw, v, key, value, allowNone, allowSdk);
    var raws, es := raw.entries, v.entries;
    forall i | 0 <= i < |es| ensures EntryBack(ctx, raws[i], es[i], key, value, allowNone, allowSdk) {
      TaggedEntry(ctx, raws[i], es[i], key, value, allowNone, allowSdk);
    }
    DictReaches(ctx, name, raws, key, value, allowNone, allowSdk);
    EntriesBack(ctx, raws, es, key, value, allowNone, allowSdk, 0);
    assert raws[0..] == raws && es[..0] == [];
  }

  lemma {:induction false} TaggedEntry(ctx: Context, raw: Entry, e: Entry, key: Ty, value: Ty, allowNone: bool,
                                       allowSdk: bool)
    requires EntryFits(ctx, e, key, value, allowNone, allowSdk)
    requires EntryWritten(ctx, raw, e, value, allowNone, allowSdk)
    ensures EntryBack(ctx, raw, e, key, value, allowNone, allowSdk)
    decreases e, value, 2
  {
    hide ParseValue, Encode, Fits, KeyFits, Written;
    KeyBack(ctx, e.key, key);
    TaggedRoundTrip(ctx, KeyName(raw.key) + ".value", raw.value, e.value, value, allowNone, allowSdk);
  }

  lemma DictionaryFits(ctx: Context, name: string, v: Value, key: Ty, value: Ty, allowNone: bool, allowSdk: bool)
    requires Fits(ctx, name, v, DictTy(key, value), allowNone, allowSdk) && v.VDict?
    ensures DistinctKeys(v.entries)
    ensures forall i :: 0 <= i < |v.entries| ==> EntryFits(ctx, v.entries[i], key, value, allowNone, allowSdk)
  {
  }

  lemma ElementsFit(ctx: Context, name: string, v: Value, kind: Kind, element: Ty, allowNone: bool, allowSdk: bool)
    requires Fits(ctx, name, v, SeqTy(kind, element), allowNone, allowSdk) && v.VSeq?
    ensures v.kind == kind && (kind == SetKind ==> IsSet(v.elements))
    ensures forall i :: 0 <= i < |v.elements| ==>
      !NullOnWire(v.elements[i]) && Fits(ctx, name, v.elements[i], element, false, false)
  {
  }

  /* ---- By tag alone ---- */

  ghost predicate TagsOf(c: Class, at: seq<nat>) {
    && c.tags.Some? && |at| == |c.fields|
    && forall i :: 0 <= i < |at| ==> at[i] in c.tags.value && c.tags.value[at[i]] == c.fields[i].name
  }

  function ByTag(ctx: Context, at: seq<nat>, fs: seq<Value>): seq<Entry>
    requires |at| == |fs|
  {
    seq(|fs|, i requires 0 <= i < |fs| => Entry(VStr(Str(at[i])), Encode(ctx, fs[i])))
  }

  /** A struct written as the dictionary of its fields by the decimal text of their tags is read back. */
  lemma TagsRoundTrip(ctx: Context, name: string, cls: nat, at: seq<nat>, fs: seq<Value>, allowNone: bool,
                      allowSdk: bool)
    requires TagsOf(ctx.classes(cls), at) && |fs| == |at|
    requires Fits(ctx, name, VObject(cls, fs), ClassTy(cls), allowNone, allowSdk)
    ensures ParseValue(ctx, name, VDict(ByTag(ctx, at, fs)), ClassTy(cls), None, allowNone, allowSdk)
      == Ok(VObject(cls, fs))
  {
    hide ParseValue, Encode, Fits, FieldFits, ClassOk, Denotes, Stray;
    var c, es := ctx.classes(cls), ByTag(ctx, at, fs);
    ClassFits(ctx, name, VObject(cls, fs), cls, allowNone, allowSdk);
    forall i, k | 0 <= i < |fs| && 0 <= k < |fs| ensures Denotes(c, i, es[k].key) <==> k == i {
      DenotesTag(c, at, i, k);
    }
    forall k | 0 <= k < |es| ensures exists i :: 0 <= i < |c.fields| && Denotes(c, i, es[k].key) {
      assert Denotes(c, k, es[k].key);
    }
    forall i | 0 <= i < |fs| ensures FieldSomewhere(ctx, cls, es, i, fs[i]) {
      assert FieldWritten(ctx, cls, es, i, i, fs[i]);
    }
    ObjectWritten(ctx, name, cls, es, fs, allowNone, allowSdk);
    TaggedRoundTrip(ctx, name, VDict(es), VObject(cls, fs), ClassTy(cls), allowNone, allowSdk);
  }

  lemma ObjectWritten(ctx: Context, name: string, cls: nat, es: seq<Entry>, fs: seq<Value>, allowNone: bool,
                      allowSdk: bool)
    requires |fs| == |ctx.classes(cls).fields| && KeysOk(ctx.classes(cls), es)
    requires forall i :: 0 <= i < |fs| ==> FieldSomewhere(ctx, cls, es, i, fs[i])
    ensures Written(ctx, name, VDict(es), VObject(cls, fs), ClassTy(cls), allowNone, allowSdk)
  {
    hide KeysOk, FieldSomewhere, Encode;
    NotNullObject(VObject(cls, fs));
  }

  lemma NotNullObject(v: Value)
    requires v.VObject?
    ensures !NullOnWire(v)
  {
  }

  lemma DenotesTag(c: Class, at: seq<nat>, i: nat, k: nat)
    requires ClassOk(c) && TagsOf(c, at) && i < |at| && k < |at|
    ensures Denotes(c, i, VStr(Str(at[k]))) <==> k == i
  {
    DenotesIs(c, i, VStr(Str(at[k])));
    TagKeyIs(c.tags.value, VStr(Str(at[k])), at[k]);
  }

  // One class, with one integer field.
  function OneField(tags: Option<map<nat, string>>): Context {
    Context(_ => Class("C", [Field("label", IntTy, None)], tags), _ => [])
  }

  /** {"0": 5} is C(label=5) if the class has a descriptor with that tag; without one the key belongs to no
      field, and the field is null. */
  lemma TagNeedsDescriptor()
    ensures var struct := VDict([Entry(VStr("0"), VInt(5))]);
      && ParseValue(OneField(Some(map[0 := "label"])), "", struct, ClassTy(0), None, false, false)
        == Ok(VObject(0, [VInt(5)]))
      && ParseValue(OneField(None), "", struct, ClassTy(0), None, false, false) == Ok(VObject(0, [VNone]))
  {
    hide ParseValue;
    FoundByTag(OneField(Some(map[0 := "label"])));
    NoSuchKey(OneField(None), [Entry(VStr("0"), VInt(5))]);
  }

  lemma FoundByTag(tagged: Context)
    requires tagged == OneField(Some(map[0 := "label"]))
    ensures ParseValue(tagged, "", VDict([Entry(VStr("0"), VInt(5))]), ClassTy(0), None, false, false)
      == Ok(VObject(0, [VInt(5)]))
  {
    hide ParseValue;
    assert Str(0) == "0" && ByTag(tagged, [0], [VInt(5)]) == [Entry(VStr("0"), VInt(5))];
    OneFieldFits(tagged);
    TagsRoundTrip(tagged, "", 0, [0], [VInt(5)], false, false);
  }

  lemma OneFieldFits(tagged: Context)
    requires tagged == OneField(Some(map[0 := "label"]))
    ensures Fits(tagged, "", VObject(0, [VInt(5)]), ClassTy(0), false, false)
  {
    var c := tagged.classes(0);
    assert FieldName(c, 0) == "C.label" != NOC;
    assert Fits(tagged, "C.label", VInt(5), IntTy, true, false);
    assert FieldFits(tagged, c, 0, VInt(5));
    assert !IsDigit("label"[0]);
    assert ClassOk(c);
  }

  lemma NoSuchKey(plain: Context, es: seq<Entry>)
    requires plain == OneField(None) && es == [Entry(VStr("0"), VInt(5))]
    ensures ParseValue(plain, "", VDict(es), ClassTy(0), None, false, false) == Ok(VObject(0, [VNone]))
  {
    GetAbsent(es, VStr("label"));
    GetAbsent(es, TLV_VALUE);
    assert ParseFields(plain, 0, 1, es, true, false) == Ok([]);
    assert ParseValue(plain, FieldName(plain.classes(0), 0), VNone, IntTy, None, true, false) == Ok(VNone);
    assert [VNone] + [] == [VNone];
    assert ParseFields(plain, 0, 0, es, true, false) == Ok([VNone] + []);
    assert FromDict(plain, 0, es, false, false) == Ok(VObject(0, [VNone]));
    assert ParseByType(plain, "", VDict(es), ClassTy(0), false, false) == FromDict(plain, 0, es, false, false);
  }

  /* ---- Keys that belong to no field ---- */

  /** Unless strict, only what the names of the fields are looked up as matters. */
  lemma {:induction false} LenientIgnores(ctx: Context, cls: nat, es: seq<Entry>, es': seq<Entry>, allowSdk: bool)
    requires forall f :: f in ctx.classes(cls).fields ==> Get(es, VStr(f.name)) == Get(es', VStr(f.name))
    ensures FromDict(ctx, cls, es, false, allowSdk) == FromDict(ctx, cls, es', false, allowSdk)
  {
    SameFields(ctx, cls, 0, es, es', true, allowSdk);
  }

  lemma {:induction false} SameFields(ctx: Context, cls: nat, i: nat, es: seq<Entry>, es': seq<Entry>, allowNone: bool,
                                      allowSdk: bool)
    requires forall f :: f in ctx.classes(cls).fields ==> Get(es, VStr(f.name)) == Get(es', VStr(f.name))
    requires i <= |ctx.classes(cls).fields|
    ensures ParseFields(ctx, cls, i, es, allowNone, allowSdk) == ParseFields(ctx, cls, i, es', allowNone, allowSdk)
    decreases |ctx.classes(cls).fields| - i
  {
    hide Get, ParseValue;
    if i < |ctx.classes(cls).fields| {
      assert ctx.classes(cls).fields[i] in ctx.classes(cls).fields;
      SameFields(ctx, cls, i + 1, es, es', allowNone, allowSdk);
    }
  }

  lemma IsField(fields: seq<Field>, es: seq<Entry>, k: nat)
    requires k < |es| && OnlyFields(fields, es)
    ensures exists f :: f in fields && es[k].key == VStr(f.name)
  {
    var key := es[k].key;
    var f :| f in fields && key == VStr(f.name);
  }

  /** Strict, a key that is no field's name is a KeyError, whatever the values. */
  lemma StrictRejects(ctx: Context, cls: nat, es: seq<Entry>, k: nat, allowSdk: bool)
    requires k < |es| && forall f :: f in ctx.classes(cls).fields ==> es[k].key != VStr(f.name)
    requires forall i :: 0 <= i < |es| ==> es[i].key.VStr?
    ensures FromDict(ctx, cls, es, true, allowSdk) == Err(KeyError)
  {
    if OnlyFields(ctx.classes(cls).fields, es) { IsField(ctx.classes(cls).fields, es, k); }
  }
}
