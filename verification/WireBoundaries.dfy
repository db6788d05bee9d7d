/** Where the wire does lose something, and exactly when. */
module WireBoundaries {
  import opened Wrappers
  import opened Decimal
  import opened Wire
  import opened WireRoundTrip
  import opened WireExact

  function Kept(vs: seq<Value>): seq<Value> {
    if vs == [] then [] else if NullOnWire(vs[0]) then Kept(vs[1..]) else [vs[0]] + Kept(vs[1..])
  }

  lemma {:induction false} KeptLength(vs: seq<Value>)
    ensures |Kept(vs)| <= |vs|
    ensures |Kept(vs)| == |vs| <==> forall i :: 0 <= i < |vs| ==> !NullOnWire(vs[i])
  {
    if vs != [] {
      KeptLength(vs[1..]);
      if forall i :: 0 <= i < |vs| ==> !NullOnWire(vs[i]) {
        forall i | 0 <= i < |vs[1..]| ensures !NullOnWire(vs[1..][i]) { assert vs[1..][i] == vs[i + 1]; }
      } else if !NullOnWire(vs[0]) {
        var i :| 0 <= i < |vs| && NullOnWire(vs[i]);
        assert vs[1..][i - 1] == vs[i];
      }
    }
  }

  lemma {:induction false} AllKeptInOrder(vs: seq<Value>)
    requires |Kept(vs)| == |vs|
    ensures Kept(vs) == vs
  {
    KeptLength(vs);
    if vs != [] {
      KeptLength(vs[1..]);
      AllKeptInOrder(vs[1..]);
    }
  }

  lemma {:induction false} NullsEncoded(ctx: Context, vs: seq<Value>)
    requires forall i :: 0 <= i < |vs| ==> (Encode(ctx, vs[i]).VNone? <==> NullOnWire(vs[i]))
    ensures NonNull(EncodeAll(ctx, vs)) == EncodeAll(ctx, Kept(vs))
    ensures forall x :: x in Kept(vs) ==> x in vs && !NullOnWire(x)
  {
    hide Encode;
    if vs != [] {
      forall i | 0 <= i < |vs[1..]| ensures Encode(ctx, vs[1..][i]).VNone? <==> NullOnWire(vs[1..][i]) {
        assert vs[1..][i] == vs[i + 1];
      }
      NullsEncoded(ctx, vs[1..]);
      assert EncodeAll(ctx, vs)[1..] == EncodeAll(ctx, vs[1..]);
      assert ([vs[0]] + Kept(vs[1..]))[1..] == Kept(vs[1..]);
    }
  }

  ghost predicate ElementFits(ctx: Context, name: string, v: Value, element: Ty) {
    NullOnWire(v) || Fits(ctx, name, v, element, false, false)
  }

  /** A list, tuple or set comes back without its nulls, so it survives exactly when it has none. */
  lemma NullsAreDropped(ctx: Context, name: string, kind: Kind, vs: seq<Value>, element: Ty)
    requires forall i :: 0 <= i < |vs| ==> ElementFits(ctx, name, vs[i], element)
    requires kind == SetKind ==> IsSet(vs)
    ensures var back := ParseValue(ctx, name, Encode(ctx, VSeq(kind, vs)), SeqTy(kind, element), None, false, false);
      && back == Ok(VSeq(kind, Kept(vs)))
      && (back == Ok(VSeq(kind, vs)) <==> forall i :: 0 <= i < |vs| ==> !NullOnWire(vs[i]))
  {
    assert Encode(ctx, VSeq(kind, vs)) == VSeq(ListKind, EncodeAll(ctx, vs));
    assert Encode(ctx, VSeq(kind, Kept(vs))) == VSeq(ListKind, EncodeAll(ctx, Kept(vs)));
    if kind == SetKind { KeptSet(vs); }
    hide ParseValue, ElementFits, IsSet;
    forall i | 0 <= i < |vs| ensures Encode(ctx, vs[i]).VNone? <==> NullOnWire(vs[i]) {
      ElementNull(ctx, name, vs[i], element);
    }
    hide Encode, Fits;
    NullsEncoded(ctx, vs);
    var kept := Kept(vs);
    forall i | 0 <= i < |kept|
      ensures !Encode(ctx, kept[i]).VNone?
      ensures ParseValue(ctx, name, Encode(ctx, kept[i]), element, None, false, false) == Ok(kept[i])
    {
      assert kept[i] in kept;
      var k :| 0 <= k < |vs| && vs[k] == kept[i];
      ElementBack(ctx, name, vs[k], element);
    }
    SeqBack(ctx, name, kept, kind, element, false, false);
    SeqReaches(ctx, name, EncodeAll(ctx, vs), kind, element, false, false);
    SeqReaches(ctx, name, EncodeAll(ctx, kept), kind, element, false, false);
    NullsEncoded(ctx, kept);
    KeptTwice(vs);
    KeptLength(vs);
    if |kept| == |vs| { AllKeptInOrder(vs); }
  }

  lemma {:induction false} KeptSet(vs: seq<Value>)
    requires IsSet(vs)
    ensures IsSet(Kept(vs))
    ensures forall x :: x in Kept(vs) ==> x in vs
  {
    hide Hashable, Canonical;
    if vs != [] {
      var rest := vs[1..];
      forall i | 0 <= i < |rest| ensures rest[i] == vs[i + 1] { }
      KeptSet(rest);
      forall x | x in Kept(rest) ensures Canonical(x) != Canonical(vs[0]) {
        var i :| 0 <= i < |rest| && rest[i] == x;
        assert Canonical(vs[i + 1]) != Canonical(vs[0]);
      }
    }
  }

  lemma {:induction false} KeptTwice(vs: seq<Value>)
    ensures Kept(Kept(vs)) == Kept(vs)
  {
    if vs != [] {
      KeptTwice(vs[1..]);
      assert ([vs[0]] + Kept(vs[1..]))[1..] == Kept(vs[1..]);
    }
  }

  lemma ElementNull(ctx: Context, name: string, v: Value, element: Ty)
    requires ElementFits(ctx, name, v, element)
    ensures Encode(ctx, v).VNone? <==> NullOnWire(v)
  {
    if !NullOnWire(v) { NullEncoded(ctx, name, v, element, false, false); }
  }

  lemma ElementBack(ctx: Context, name: string, v: Value, element: Ty)
    requires ElementFits(ctx, name, v, element) && !NullOnWire(v)
    ensures ParseValue(ctx, name, Encode(ctx, v), element, None, false, false) == Ok(v)
  {
    RoundTrip(ctx, name, v, element, false, false);
  }

  ghost predicate TextEntryFits(ctx: Context, e: Entry, value: Ty) {
    e.key.VStr? && e.key.s != NOC && Fits(ctx, KeyName(EncodeKey(e.key)) + ".value", e.value, value, false, false)
  }

  /** A dictionary is read back exactly when it has no null under "TLVValue"; otherwise the parser takes the
      whole dictionary for null and asks None for its items, an error no union catches. */
  lemma DictRoundTripIff(ctx: Context, name: string, es: seq<Entry>, value: Ty)
    requires DistinctKeys(es) && forall i :: 0 <= i < |es| ==> TextEntryFits(ctx, es[i], value)
    ensures var back := ParseValue(ctx, name, Encode(ctx, VDict(es)), DictTy(StrTy, value), None, false, false);
      if forall i :: 0 <= i < |es| && es[i].key == TLV_VALUE ==> !NullOnWire(es[i].value) then back == Ok(VDict(es))
      else back == Err(AttributeError)
  {
    hide ParseValue, Encode, TextEntryFits, Fits, EntryFits;
    if forall i :: 0 <= i < |es| && es[i].key == TLV_VALUE ==> !NullOnWire(es[i].value) {
      forall i | 0 <= i < |es| ensures EntryFits(ctx, es[i], StrTy, value, false, false) {
        TextEntry(ctx, es[i], value);
      }
      DictFits(ctx, name, es, value);
      RoundTrip(ctx, name, VDict(es), DictTy(StrTy, value), false, false);
    } else {
      var k :| 0 <= k < |es| && es[k].key == TLV_VALUE && NullOnWire(es[k].value);
      NullTlvIsLost(ctx, name, es, value, k);
    }
  }

  /** A value the SDK could not parse, a dictionary with a null under "TLVValue", is parsed as null is, if and only
      if the type is neither Nullable, where the SDK's own type is asked for, nor None, where none is permitted. A
      default does not take its place. */
  lemma UnparsedIsNullIff(ctx: Context, name: string, es: seq<Entry>, ty: Ty, default: Option<Value>, allowNone: bool,
                          allowSdk: bool)
    requires Get(Labelled(ctx, ty, es), TLV_VALUE) == Some(VNone)
    ensures ParseValue(ctx, name, VDict(es), ty, default, allowNone, allowSdk)
      == ParseValue(ctx, name, VNone, ty, None, allowNone, allowSdk)
      <==> !(ty.NullableTy? && allowSdk) && !(ty.NoneTy? && !allowNone)
  {
    hide Get, Labelled, ParseUnion;
  }

  lemma NullTlvIsLost(ctx: Context, name: string, es: seq<Entry>, value: Ty, k: nat)
    requires DistinctKeys(es) && forall i :: 0 <= i < |es| ==> TextEntryFits(ctx, es[i], value)
    requires k < |es| && es[k].key == TLV_VALUE && NullOnWire(es[k].value)
    ensures ParseValue(ctx, name, Encode(ctx, VDict(es)), DictTy(StrTy, value), None, false, false)
      == Err(AttributeError)
  {
    var raws := EncodeEntries(ctx, es);
    assert Encode(ctx, VDict(es)) == VDict(raws);
    hide ParseValue, Get, Fits;
    forall i | 0 <= i < |es| ensures raws[i].key == es[i].key {
      assert TextEntryFits(ctx, es[i], value);
    }
    GetAt(raws, k);
    DictReaches(ctx, name, raws, StrTy, value, false, false);
  }

  lemma TextEntry(ctx: Context, e: Entry, value: Ty)
    requires TextEntryFits(ctx, e, value) && (e.key == TLV_VALUE ==> !NullOnWire(e.value))
    ensures EntryFits(ctx, e, StrTy, value, false, false)
  {
  }

  lemma DictFits(ctx: Context, name: string, es: seq<Entry>, value: Ty)
    requires DistinctKeys(es) && forall i :: 0 <= i < |es| ==> EntryFits(ctx, es[i], StrTy, value, false, false)
    ensures Fits(ctx, name, VDict(es), DictTy(StrTy, value), false, false)
  {
    hide EntryFits;
  }

  /** A text is read back under the name "NOCStruct.noc", which is also the name of a dictionary key of that
      text, as no bytes at all; so it survives if and only if the name is another. */
  lemma TextRoundTripIff(ctx: Context, name: string, s: string)
    ensures ParseValue(ctx, name, VStr(s), StrTy, None, false, false) == Ok(VStr(s)) <==> name != NOC
    ensures name == NOC ==> ParseValue(ctx, name, VStr(s), StrTy, None, false, false) == Ok(VBytes([]))
  {
  }

  /* ---- Unions ---- */

  // The first member up to the i-th that does not reject.
  lemma {:induction false} FirstNotRejecting(ctx: Context, name: string, raw: Value, alts: seq<Ty>, i: nat,
                                             allowNone: bool, allowSdk: bool)
    returns (k: nat)
    requires i < |alts|
    ensures k <= i && EarlierReject(ctx, name, raw, alts, k, allowNone, allowSdk)
    ensures k == i || !Rejected(ParseValue(ctx, name, raw, alts[k], None, allowNone, allowSdk))
    decreases i
  {
    hide ParseValue;
    if i == 0 {
      k := 0;
    } else {
      k := FirstNotRejecting(ctx, name, raw, alts, i - 1, allowNone, allowSdk);
      if k == i - 1 && Rejected(ParseValue(ctx, name, raw, alts[k], None, allowNone, allowSdk)) { k := i; }
    }
  }

  /** What a value other than null is under a union: what the first member makes of it that does not reject it, be
      it an error; and if all reject it, None where the union has None, and a TypeError where it has not. */
  lemma UnionDecides(ctx: Context, name: string, raw: Value, alts: seq<Ty>, k: nat, allowNone: bool, allowSdk: bool)
    requires !raw.VNone? && !NullTlv(raw) && k <= |alts|
    requires EarlierReject(ctx, name, raw, alts, k, allowNone, allowSdk)
    requires k < |alts| ==> !Rejected(ParseValue(ctx, name, raw, alts[k], None, allowNone, allowSdk))
    ensures ParseValue(ctx, name, raw, UnionTy(alts), None, allowNone, allowSdk) ==
      if k < |alts| then ParseValue(ctx, name, raw, alts[k], None, allowNone, allowSdk)
      else if NoneTy in alts then Ok(VNone)
      else Err(TypeError)
  {
    FirstDecides(ctx, name, raw, alts, k, allowNone, allowSdk);
    ReachesType(ctx, name, raw, UnionTy(alts), None, allowNone, allowSdk);
    hide ParseValue, ParseUnion;
  }

  lemma {:induction false} FirstDecides(ctx: Context, name: string, raw: Value, alts: seq<Ty>, k: nat,
                                        allowNone: bool, allowSdk: bool)
    requires k <= |alts| && EarlierReject(ctx, name, raw, alts, k, allowNone, allowSdk)
    requires k < |alts| ==> !Rejected(ParseValue(ctx, name, raw, alts[k], None, allowNone, allowSdk))
    ensures ParseUnion(ctx, name, raw, alts, allowNone, allowSdk) ==
      if k < |alts| then ParseValue(ctx, name, raw, alts[k], None, allowNone, allowSdk) else Err(TypeError)
    decreases k
  {
    hide ParseValue;
    if k > 0 {
      assert Rejected(ParseValue(ctx, name, raw, alts[0], None, allowNone, allowSdk));
      forall j | 0 <= j < k - 1 ensures Rejected(ParseValue(ctx, name, raw, alts[1..][j], None, allowNone, allowSdk)) {
        assert alts[1..][j] == alts[j + 1];
      }
      FirstDecides(ctx, name, raw, alts[1..], k - 1, allowNone, allowSdk);
    }
  }

  // Every member before the i-th that is reached rejects the raw value, or gives `v` too.
  ghost predicate EarlierKeep(ctx: Context, name: string, raw: Value, alts: seq<Ty>, i: nat, allowNone: bool,
                              allowSdk: bool, v: Value)
    requires i <= |alts|
  {
    forall j :: 0 <= j < i && EarlierReject(ctx, name, raw, alts, j, allowNone, allowSdk) ==>
      var r := ParseValue(ctx, name, raw, alts[j], None, allowNone, allowSdk);
      Rejected(r) || r == Ok(v)
  }

  lemma UnionKeepsIff(ctx: Context, name: string, raw: Value, alts: seq<Ty>, i: nat, allowNone: bool, allowSdk: bool,
                      v: Value)
    requires i < |alts| && ParseValue(ctx, name, raw, alts[i], None, allowNone, allowSdk) == Ok(v)
    ensures ParseUnion(ctx, name, raw, alts, allowNone, allowSdk) == Ok(v)
      <==> EarlierKeep(ctx, name, raw, alts, i, allowNone, allowSdk, v)
  {
    hide ParseValue, ParseUnion;
    if ParseUnion(ctx, name, raw, alts, allowNone, allowSdk) == Ok(v) {
      var k := FirstAccepting(ctx, name, raw, alts, allowNone, allowSdk);
    }
    if EarlierKeep(ctx, name, raw, alts, i, allowNone, allowSdk, v) {
      var k := FirstNotRejecting(ctx, name, raw, alts, i, allowNone, allowSdk);
      UnionBack(ctx, name, raw, alts, k, allowNone, allowSdk, v);
    }
  }

  /** A value that some member of a union gives back survives under the union if and only if no earlier member
      that is reached takes it for something else or fails with an error the union does not catch. */
  lemma UnionRoundTripIff(ctx: Context, name: string, v: Value, alts: seq<Ty>, i: nat, allowNone: bool,
                          allowSdk: bool)
    requires Proper(ctx, v) && !NullOnWire(v) && i < |alts|
    requires ParseValue(ctx, name, Encode(ctx, v), alts[i], None, allowNone, allowSdk) == Ok(v)
    ensures ParseValue(ctx, name, Encode(ctx, v), UnionTy(alts), None, allowNone, allowSdk) == Ok(v)
      <==> EarlierKeep(ctx, name, Encode(ctx, v), alts, i, allowNone, allowSdk, v)
  {
    var raw := Encode(ctx, v);
    ProperNull(ctx, v);
    hide ParseValue, Encode, Proper, ParseUnion, EarlierKeep, Fits, Get;
    BackFits(ctx, name, v, alts[i], allowNone, allowSdk);
    NoNullTlv(ctx, name, v, alts[i], allowNone, allowSdk);
    UnionKeepsIff(ctx, name, raw, alts, i, allowNone, allowSdk, v);
    if ParseValue(ctx, name, raw, UnionTy(alts), None, allowNone, allowSdk) == Ok(v) {
      UnionParts(ctx, name, v, alts, allowNone, allowSdk);
    }
    if ParseUnion(ctx, name, raw, alts, allowNone, allowSdk) == Ok(v) {
      UnionReaches(ctx, name, raw, alts, allowNone, allowSdk);
    }
  }

  /** A text offered to `int | str` survives exactly when it is not a number. */
  lemma NumericTextIff(ctx: Context, name: string, s: string)
    requires name != NOC
    ensures ParseValue(ctx, name, Encode(ctx, VStr(s)), UnionTy([IntTy, StrTy]), None, false, false) == Ok(VStr(s))
      <==> !IsNumeric(s)
  {
    TextAlone(ctx, name, s);
    UnionRoundTripIff(ctx, name, VStr(s), [IntTy, StrTy], 1, false, false);
    hide ParseValue;
    assert EarlierReject(ctx, name, VStr(s), [IntTy, StrTy], 0, false, false);
  }

  // What single types make of text.
  lemma TextAlone(ctx: Context, name: string, s: string)
    ensures name != NOC && IsNumeric(s) ==>
      ParseValue(ctx, name, VStr(s), IntTy, None, false, false) == Ok(VInt(ToNat(s)))
    ensures name != NOC && !IsNumeric(s) ==>
      ParseValue(ctx, name, VStr(s), IntTy, None, false, false) == Err(TypeError)
    ensures name != NOC ==> ParseValue(ctx, name, VStr(s), StrTy, None, false, false) == Ok(VStr(s))
    ensures ParseValue(ctx, name, VStr(s), BytesTy, None, false, false) == Ok(VBytes(DecodeBytes(ctx, s)))
  {
  }

  /** Under a union that begins with bytes every text comes back as bytes, so none survives. */
  lemma BytesTakeText(ctx: Context, name: string, s: string, others: seq<Ty>)
    ensures ParseValue(ctx, name, Encode(ctx, VStr(s)), UnionTy([BytesTy] + others), None, false, false)
      == Ok(VBytes(DecodeBytes(ctx, s)))
  {
    TextAlone(ctx, name, s);
    TakenFirst(ctx, name, VStr(s), BytesTy, others);
  }

  /** An enum in the first place takes every integer and text: one of its values becomes the member, and any
      other survives, whatever types follow. */
  lemma EnumTakesScalars(ctx: Context, name: string, v: Value, id: nat, members: set<Value>, others: seq<Ty>)
    requires v.VInt? || v.VStr?
    ensures ParseValue(ctx, name, Encode(ctx, v), UnionTy([EnumTy(id, members)] + others), None, false, false)
      == Ok(if v in members then VEnum(id, v) else v)
  {
    TakenFirst(ctx, name, v, EnumTy(id, members), others);
  }

  lemma TakenFirst(ctx: Context, name: string, raw: Value, first: Ty, others: seq<Ty>)
    requires !raw.VNone? && !raw.VDict? && ParseValue(ctx, name, raw, first, None, false, false).Ok?
    ensures ParseValue(ctx, name, raw, UnionTy([first] + others), None, false, false)
      == ParseValue(ctx, name, raw, first, None, false, false)
  {
    hide ParseValue;
    var v := ParseValue(ctx, name, raw, first, None, false, false).value;
    UnionBack(ctx, name, raw, [first] + others, 0, false, false, v);
    UnionReaches(ctx, name, raw, [first] + others, false, false);
  }

  /* ---- Tuples of several types ---- */

  // What the parser sees of `tuple[A, B, ...]`: its first type argument, for every element.
  function TupleTy(types: seq<Ty>): Ty
    requires types != []
  {
    SeqTy(TupleKind, types[0])
  }

  /** A tuple survives exactly when it has no null and each element fits the first type of the annotation,
      whatever types the annotation gives to the others. */
  lemma TupleRoundTripIff(ctx: Context, name: string, vs: seq<Value>, types: seq<Ty>)
    requires types != [] && Proper(ctx, VSeq(TupleKind, vs))
    ensures ParseValue(ctx, name, Encode(ctx, VSeq(TupleKind, vs)), TupleTy(types), None, false, false)
        == Ok(VSeq(TupleKind, vs))
      <==> forall i :: 0 <= i < |vs| ==> !NullOnWire(vs[i]) && Fits(ctx, name, vs[i], types[0], false, false)
  {
    hide ParseValue, Encode, Proper;
    RoundTripIff(ctx, name, VSeq(TupleKind, vs), TupleTy(types), false, false);
  }

  /** For instance (1, "a") under `tuple[int, str]`. */
  lemma MixedTupleFails(ctx: Context, name: string)
    ensures var v := VSeq(TupleKind, [VInt(1), VStr("a")]);
      ParseValue(ctx, name, Encode(ctx, v), TupleTy([IntTy, StrTy]), None, false, false) != Ok(v)
  {
    var vs := [VInt(1), VStr("a")];
    hide ParseValue, Encode;
    TupleRoundTripIff(ctx, name, vs, [IntTy, StrTy]);
    assert vs[1] == VStr("a") && !Fits(ctx, name, vs[1], IntTy, false, false);
  }
}
