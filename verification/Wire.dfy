/** Values on the wire: the JSON encoder and the typed parser that reads its output back.

    The parser works over a value and a type at once. A dataclass may refer to itself; the measure that
    ends the recursion is the size of the value, then the size of the type. */
module Wire {
  import opened Wrappers
  import opened Decimal
  import Base64

  datatype Kind = ListKind | TupleKind | SetKind

  /** Type annotations. */
  datatype Ty =
    | IntTy | StrTy | BoolTy | BytesTy
    | NoneTy | NullableTy | AnyTy
    | EnumTy(id: nat, members: set<Value>)        // by member value, integers or strings
    | SeqTy(kind: Kind, element: Ty)
    | DictTy(key: Ty, value: Ty)
    | UnionTy(alternatives: seq<Ty>)
    | ClassTy(cls: nat)

  /** JSON values and parsed values. The elements of a set are listed, without repetition, in the order
      in which it is iterated; the entries of a dictionary in the order of insertion. */
  datatype Value =
    | VNone | VNullable
    | VInt(n: int) | VStr(s: string) | VBool(b: bool)
    | VBytes(bytes: seq<Base64.Byte>)
    | VEnum(id: nat, member: Value)
    | VSeq(kind: Kind, elements: seq<Value>)
    | VDict(entries: seq<Entry>)
    | VObject(cls: nat, fields: seq<Value>)

  datatype Entry = Entry(key: Value, value: Value)

  datatype Field = Field(name: string, ty: Ty, default: Option<Value>)

  // `tags` are the field labels by tag of an SDK class, which has a descriptor.
  datatype Class = Class(name: string, fields: seq<Field>, tags: Option<map<nat, string>>)

  // The dataclasses, and what b64decode makes of text that is not base64.
  datatype Context = Context(classes: nat -> Class, lenient: string -> seq<Base64.Byte>)

  datatype Error = KeyError | TypeError | AttributeError
  datatype Result<+T> = Ok(value: T) | Err(error: Error)

  const TLV_VALUE: Value := VStr("TLVValue")
  const NOC: string := "NOCStruct.noc"

  /* ---- Sizes ---- */

  function Size(v: Value): (n: nat)
    ensures n >= 1
  {
    match v
    case VEnum(_, m) => 1 + Size(m)
    case VSeq(_, es) => 1 + SizeAll(es)
    case VDict(es) => 2 + SizeEntries(es)
    case VObject(_, fs) => 1 + SizeAll(fs)
    case _ => 1
  }

  function SizeAll(vs: seq<Value>): nat {
    if vs == [] then 0 else Size(vs[0]) + SizeAll(vs[1..])
  }

  function SizeEntries(es: seq<Entry>): nat {
    if es == [] then 0 else EntrySize(es[0]) + SizeEntries(es[1..])
  }

  function EntrySize(e: Entry): nat {
    Size(e.key) + Size(e.value)
  }

  lemma HeadSize(es: seq<Entry>)
    requires es != []
    ensures SizeEntries(es) == Size(es[0].key) + Size(es[0].value) + SizeEntries(es[1..])
  {
    assert EntrySize(es[0]) == Size(es[0].key) + Size(es[0].value);
  }

  function TySize(ty: Ty): (n: nat)
    ensures n >= 1
  {
    match ty
    case SeqTy(_, e) => 1 + TySize(e)
    case DictTy(k, t) => 1 + TySize(k) + TySize(t)
    case UnionTy(alts) => 1 + TySizes(alts)
    case _ => 1
  }

  function TySizes(tys: seq<Ty>): nat {
    if tys == [] then 0 else TySize(tys[0]) + TySizes(tys[1..])
  }

  /* ---- Dictionaries, sets ---- */

  // dict.get; a later entry overrides an earlier one.
  function Get(es: seq<Entry>, key: Value): (found: Option<Value>)
    ensures found.Some? ==> Size(found.value) < 2 + SizeEntries(es)
  {
    if es == [] then None
    else
      var rest := Get(es[1..], key);
      if rest.Some? then rest else if es[0].key == key then Some(es[0].value) else None
  }

  function Put(es: seq<Entry>, key: Value, v: Value): seq<Entry> {
    if es == [] then [Entry(key, v)]
    else if es[0].key == key then [Entry(key, v)] + es[1..]
    else [es[0]] + Put(es[1..], key, v)
  }

  // True and 1 are equal.
  function Canonical(v: Value): Value {
    if v.VBool? then VInt(if v.b then 1 else 0) else v
  }

  predicate Hashable(v: Value) {
    match v
    case VSeq(kind, es) => kind == TupleKind && forall i :: 0 <= i < |es| ==> Hashable(es[i])
    case VDict(_) => false
    case VObject(_, _) => false
    case _ => true
  }

  predicate Holds(vs: seq<Value>, v: Value) {
    exists i :: 0 <= i < |vs| && Canonical(vs[i]) == Canonical(v)
  }

  // One element more for a list, tuple or set.
  function Added(kind: Kind, vs: seq<Value>, v: Value): seq<Value> {
    if kind == SetKind && Holds(vs, v) then vs else vs + [v]
  }

  function NonNull(vs: seq<Value>): (kept: seq<Value>)
    ensures SizeAll(kept) <= SizeAll(vs)
  {
    if vs == [] then []
    else if vs[0].VNone? then NonNull(vs[1..])
    else
      var kept := [vs[0]] + NonNull(vs[1..]);
      assert kept[1..] == NonNull(vs[1..]);
      kept
  }

  /* ---- The encoder ---- */

  // json_encoder_default on top of what orjson writes itself.
  function Encode(ctx: Context, v: Value): Value
    decreases v
  {
    match v
    case VNullable => VNone
    case VBytes(bytes) => VStr(Base64.Encode(bytes))
    case VEnum(_, m) => m
    case VSeq(_, es) => VSeq(ListKind, EncodeAll(ctx, es))
    case VDict(es) => VDict(EncodeEntries(ctx, es))
    case VObject(c, fs) => VDict(EncodeFields(ctx, ctx.classes(c).fields, fs))
    case _ => v
  }

  function EncodeAll(ctx: Context, vs: seq<Value>): (es: seq<Value>)
    ensures |es| == |vs| && forall i :: 0 <= i < |vs| ==> es[i] == Encode(ctx, vs[i])
    decreases vs
  {
    if vs == [] then [] else [Encode(ctx, vs[0])] + EncodeAll(ctx, vs[1..])
  }

  // OPT_NON_STR_KEYS: an integer key is written as text.
  function EncodeKey(k: Value): Value {
    if !k.VInt? then k else VStr(if k.n >= 0 then Str(k.n) else "-" + Str(-k.n))
  }

  function EncodeEntries(ctx: Context, es: seq<Entry>): (out: seq<Entry>)
    ensures |out| == |es| && forall i :: 0 <= i < |es| ==> out[i] == EncodeEntry(ctx, es[i])
    decreases es
  {
    if es == [] then [] else [EncodeEntry(ctx, es[0])] + EncodeEntries(ctx, es[1..])
  }

  function EncodeEntry(ctx: Context, e: Entry): Entry
    decreases e
  {
    Entry(EncodeKey(e.key), Encode(ctx, e.value))
  }

  function EncodeFields(ctx: Context, fields: seq<Field>, fs: seq<Value>): (out: seq<Entry>)
    ensures |out| == if |fields| <= |fs| then |fields| else |fs|
    ensures forall i :: 0 <= i < |out| ==> out[i] == Entry(VStr(fields[i].name), Encode(ctx, fs[i]))
    decreases fs
  {
    if fields == [] || fs == [] then []
    else [Entry(VStr(fields[0].name), Encode(ctx, fs[0]))] + EncodeFields(ctx, fields[1..], fs[1..])
  }

  /* ---- The parser ---- */

  // The number a key stands for: text of digits, or an integer, which True is too.
  function TagNumber(key: Value): Option<nat> {
    if key.VStr? && IsNumeric(key.s) then Some(ToNat(key.s))
    else if Canonical(key).VInt? && Canonical(key).n >= 0 then Some(Canonical(key).n)
    else None
  }

  // `_get_descriptor_key`
  function TagKey(tags: map<nat, string>, key: Value): Value {
    var tag := TagNumber(key);
    if tag.Some? && tag.value in tags then VStr(tags[tag.value]) else key
  }

  function Renamed(tags: map<nat, string>, es: seq<Entry>): (out: seq<Entry>)
    ensures |out| == |es|
  {
    if es == [] then [] else [Entry(TagKey(tags, es[0].key), es[0].value)] + Renamed(tags, es[1..])
  }

  // The dictionary with tags replaced by labels, for a class that has them.
  function Labelled(ctx: Context, ty: Ty, es: seq<Entry>): seq<Entry> {
    if ty.ClassTy? && ctx.classes(ty.cls).tags.Some? then Renamed(ctx.classes(ty.cls).tags.value, es) else es
  }

  lemma {:induction false} RenamedSize(tags: map<nat, string>, es: seq<Entry>)
    ensures SizeEntries(Renamed(tags, es)) == SizeEntries(es)
  {
    if es != [] {
      RenamedSize(tags, es[1..]);
      assert Renamed(tags, es)[1..] == Renamed(tags, es[1..]);
      HeadSize(es);
      HeadSize(Renamed(tags, es));
    }
  }

  function ParseValue(ctx: Context, name: string, v: Value, ty: Ty, default: Option<Value>, allowNone: bool,
                      allowSdk: bool)
    : Result<Value>
    decreases Size(v), TySize(ty), 3
  {
    if v.VNone? && default.Some? then Ok(default.value)
    else if v.VNone? && ty.NullableTy? then Ok(if allowSdk then VNullable else VNone)
    else if v.VNone? && ty.NoneTy? then Ok(VNone)
    else if v.VDict? then
      var es := Labelled(ctx, ty, v.entries);
      assert SizeEntries(es) == SizeEntries(v.entries) by {
        if ty.ClassTy? && ctx.classes(ty.cls).tags.Some? { RenamedSize(ctx.classes(ty.cls).tags.value, v.entries); }
      }
      // A value the SDK could not parse.
      if Get(es, TLV_VALUE) == Some(VNone) then
        if ty.NullableTy? || ty.AnyTy? then Ok(VNone) else ParseByType(ctx, name, VNone, ty, allowNone, allowSdk)
      else ParseByType(ctx, name, VDict(es), ty, allowNone, allowSdk)
    else ParseByType(ctx, name, v, ty, allowNone, allowSdk)
  }

  function ParseByType(ctx: Context, name: string, v: Value, ty: Ty, allowNone: bool, allowSdk: bool): Result<Value>
    decreases Size(v), TySize(ty), 2
  {
    if ty.ClassTy? && v.VDict? then FromDict(ctx, ty.cls, v.entries, false, false)
    else if ty.SeqTy? && v.VSeq? then ParseElements(ctx, name, NonNull(v.elements), ty.element, ty.kind, [])
    else if ty.DictTy? then
      if v.VDict? then ParseEntries(ctx, v.entries, ty.key, ty.value, allowNone, allowSdk, []) else Err(AttributeError)
    else if ty.UnionTy? then
      if v.VNone? && NullableTy in ty.alternatives && allowSdk then Ok(VNullable)
      else if v.VNone? && NoneTy in ty.alternatives then Ok(VNone)
      else
        var r := ParseUnion(ctx, name, v, ty.alternatives, allowNone, allowSdk);
        if r == Err(TypeError) && NoneTy in ty.alternatives then Ok(VNone) else r
    else if ty.AnyTy? then Ok(v)
    else if v.VNone? then if allowNone then Ok(VNone) else Err(KeyError)
    else ParseLeaf(ctx, name, v, ty)
  }

  // The first alternative that accepts; AttributeError is not caught.
  function ParseUnion(ctx: Context, name: string, v: Value, alternatives: seq<Ty>, allowNone: bool, allowSdk: bool)
    : (r: Result<Value>)
    ensures r != Err(KeyError)
    decreases Size(v), TySizes(alternatives), 4
  {
    if alternatives == [] then Err(TypeError)
    else
      var r := ParseValue(ctx, name, v, alternatives[0], None, allowNone, allowSdk);
      if r.Err? && r.error != AttributeError then ParseUnion(ctx, name, v, alternatives[1..], allowNone, allowSdk)
        else r
  }

  function ParseElements(ctx: Context, name: string, vs: seq<Value>, element: Ty, kind: Kind,
                         acc: seq<Value>): Result<Value>
    decreases SizeAll(vs), TySize(element), 4
  {
    if vs == [] then Ok(VSeq(kind, acc))
    else
      var r := ParseValue(ctx, name, vs[0], element, None, false, false);
      if r.Err? then r
      else if kind == SetKind && !Hashable(r.value) then Err(TypeError)
      else ParseElements(ctx, name, vs[1..], element, kind, Added(kind, acc, r.value))
  }

  function KeyName(key: Value): string {
    if key.VStr? then key.s else ""
  }

  function ParseEntries(ctx: Context, es: seq<Entry>, key: Ty, value: Ty, allowNone: bool, allowSdk: bool,
                        acc: seq<Entry>)
    : Result<Value>
    decreases SizeEntries(es), TySize(key) + TySize(value), 4
  {
    if es == [] then Ok(VDict(acc))
    else
      assert SizeEntries(es) == Size(es[0].key) + Size(es[0].value) + SizeEntries(es[1..]) by { HeadSize(es); }
      var k := ParseValue(ctx, KeyName(es[0].key), es[0].key, key, None, false, false);
      if k.Err? then k
      else
        var x := ParseValue(ctx, KeyName(es[0].key) + ".value", es[0].value, value, None, allowNone, allowSdk);
        if x.Err? then x
        else ParseEntries(ctx, es[1..], key, value, allowNone, allowSdk, Put(acc, k.value, x.value))
  }

  // Enums, conversions of single values, and the final isinstance.
  function ParseLeaf(ctx: Context, name: string, v: Value, ty: Ty): Result<Value> {
    if ty.EnumTy? && Hashable(v) then
      if Canonical(v) in ty.members then Ok(VEnum(ty.id, Canonical(v))) else Ok(v)
    else if ty.IntTy? && v.VStr? && IsNumeric(v.s) then Ok(VInt(ToNat(v.s)))
    else if ty.BytesTy? && v.VStr? then Ok(VBytes(DecodeBytes(ctx, v.s)))
    else if name == NOC && !v.VBytes? then Ok(VBytes([]))
    else if IsInstance(v, ty) then Ok(v)
    else Err(TypeError)
  }

  function DecodeBytes(ctx: Context, text: string): seq<Base64.Byte> {
    var bytes := Base64.Decode(text);
    if bytes.Some? then bytes.value else ctx.lenient(text)
  }

  predicate IsInstance(v: Value, ty: Ty) {
    match ty
    case IntTy => v.VInt? || v.VBool?
    case StrTy => v.VStr?
    case BoolTy => v.VBool?
    case BytesTy => v.VBytes?
    case NoneTy => v.VNone?
    case NullableTy => v.VNullable?
    case EnumTy(id, _) => v.VEnum? && v.id == id
    case ClassTy(c) => v.VObject? && v.cls == c
    case _ => false
  }

  // `dataclass_from_dict`
  function FromDict(ctx: Context, cls: nat, es: seq<Entry>, strict: bool, allowSdk: bool): Result<Value>
    decreases 2 + SizeEntries(es), 0, 1
  {
    if strict && !OnlyFields(ctx.classes(cls).fields, es) then
      // the message of the KeyError joins the extra keys
      Err(if forall i :: 0 <= i < |es| ==> es[i].key.VStr? then KeyError else TypeError)
    else
      var r := ParseFields(ctx, cls, 0, es, !strict, allowSdk);
      if r.Err? then Err(r.error) else Ok(VObject(cls, r.value))
  }

  predicate OnlyFields(fields: seq<Field>, es: seq<Entry>) {
    forall i :: 0 <= i < |es| ==> exists f :: f in fields && es[i].key == VStr(f.name)
  }

  function FieldName(cls: Class, i: nat): string
    requires i < |cls.fields|
  {
    cls.name + "." + cls.fields[i].name
  }

  // The fields from the i-th on.
  function ParseFields(ctx: Context, cls: nat, i: nat, es: seq<Entry>, allowNone: bool,
                       allowSdk: bool): (r: Result<seq<Value>>)
    requires i <= |ctx.classes(cls).fields|
    ensures r.Ok? ==> |r.value| == |ctx.classes(cls).fields| - i
    decreases 2 + SizeEntries(es), 0, 0, |ctx.classes(cls).fields| - i
  {
    var c := ctx.classes(cls);
    if i == |c.fields| then Ok([])
    else
      var f := c.fields[i];
      var found := Get(es, VStr(f.name));
      var raw := if found.Some? then found.value else VNone;
      var r := ParseValue(ctx, FieldName(c, i), raw, f.ty, f.default, allowNone, allowSdk);
      if r.Err? then Err(r.error)
      else
        var rest := ParseFields(ctx, cls, i + 1, es, allowNone, allowSdk);
        if rest.Err? then rest else Ok([r.value] + rest.value)
  }
}
