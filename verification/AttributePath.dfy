/** Attribute paths `endpoint/cluster/attribute`, the flattening of a nested read result
    into a dictionary of paths, and the removal of one endpoint's paths. */
module AttributePath {
  import opened Wrappers
  import opened Decimal

  const SEPARATOR: char := '/'

  // The text of one path component; Python prints a wildcard as `None`.
  function Component(id: Option<nat>): (s: string)
    ensures SEPARATOR !in s
  {
    match id
    case None => "None"
    case Some(n) => Str(n)
  }

  function CreateAttributePath(endpoint: Option<nat>, cluster: Option<nat>, attribute: Option<nat>): string {
    Component(endpoint) + [SEPARATOR] + Component(cluster) + [SEPARATOR] + Component(attribute)
  }

  function Split(s: string): (parts: seq<string>)
    ensures parts != []
  {
    if s == [] then [""]
    else
      var rest := Split(s[1..]);
      if s[0] == SEPARATOR then [""] + rest else [[s[0]] + rest[0]] + rest[1..]
  }

  function ParseComponent(s: string): Option<nat> {
    if IsNumeric(s) then Some(ToNat(s)) else None
  }

  // Unpacking into three names raises ValueError (here: None) for any other number of parts.
  function ParseAttributePath(path: string): Option<(Option<nat>, Option<nat>, Option<nat>)> {
    var parts := Split(path);
    if |parts| != 3 then None
    else Some((ParseComponent(parts[0]), ParseComponent(parts[1]), ParseComponent(parts[2])))
  }

  lemma {:induction false} SplitAtFirst(head: string, tail: string)
    requires SEPARATOR !in head
    ensures Split(head + [SEPARATOR] + tail) == [head] + Split(tail)
  {
    if head == [] {
      assert head + [SEPARATOR] + tail == [SEPARATOR] + tail;
    } else {
      SplitAtFirst(head[1..], tail);
      var s := head + [SEPARATOR] + tail;
      assert s[1..] == head[1..] + [SEPARATOR] + tail;
      assert [head[0]] + head[1..] == head;
    }
  }

  lemma {:induction false} SplitLast(s: string)
    requires SEPARATOR !in s
    ensures Split(s) == [s]
  {
    if s != [] {
      SplitLast(s[1..]);
      assert [s[0]] + s[1..] == s;
    }
  }

  lemma ParseOfComponent(id: Option<nat>)
    ensures ParseComponent(Component(id)) == id
  {
    match id
    case None => assert !IsDigit("None"[0]);
    case Some(n) => ToNatOfStr(n);
  }

  /** Parsing a created path gives the three components back, wildcards included. */
  lemma PathRoundTrip(e: Option<nat>, c: Option<nat>, a: Option<nat>)
    ensures ParseAttributePath(CreateAttributePath(e, c, a)) == Some((e, c, a))
  {
    var tail := Component(c) + [SEPARATOR] + Component(a);
    assert CreateAttributePath(e, c, a) == Component(e) + [SEPARATOR] + tail;
    SplitAtFirst(Component(e), tail);
    SplitAtFirst(Component(c), Component(a));
    SplitLast(Component(a));
    ParseOfComponent(e);
    ParseOfComponent(c);
    ParseOfComponent(a);
  }

  function PathOf(e: nat, c: nat, a: nat): string {
    CreateAttributePath(Some(e), Some(c), Some(a))
  }

  lemma PathText()
    ensures PathOf(1, 29, 3) == "1/29/3" && CreateAttributePath(Some(0), None, Some(3)) == "0/None/3"
  {
    DigitTexts();
    hide Str;
  }

  lemma DigitTexts()
    ensures Str(0) == "0" && Str(1) == "1" && Str(3) == "3" && Str(29) == "29"
  {
    StrDigits(29);
    StrDigits(2);
  }

  lemma PathInjective(e: nat, c: nat, a: nat, e': nat, c': nat, a': nat)
    requires PathOf(e, c, a) == PathOf(e', c', a')
    ensures e == e' && c == c' && a == a'
  {
    PathRoundTrip(Some(e), Some(c), Some(a));
    PathRoundTrip(Some(e'), Some(c'), Some(a'));
  }

  // endpoint -> cluster -> attribute -> value, as the SDK returns a read
  type ReadResult<V> = map<nat, map<nat, map<nat, V>>>

  ghost predicate Holds<V>(raw: ReadResult<V>, e: nat, c: nat, a: nat) {
    e in raw && c in raw[e] && a in raw[e][c]
  }

  // `flat` holds exactly the attributes of `raw` listed in `done`, each under its path.
  ghost predicate FlattenedPart<V>(raw: ReadResult<V>, done: set<(nat, nat, nat)>, flat: map<string, V>) {
    && (forall t :: t in done ==> Holds(raw, t.0, t.1, t.2))
    && (forall t :: t in done ==> PathOf(t.0, t.1, t.2) in flat && flat[PathOf(t.0, t.1, t.2)] == raw[t.0][t.1][t.2])
    && (forall p :: p in flat ==> exists t :: t in done && p == PathOf(t.0, t.1, t.2))
  }

  // `flat` holds exactly the attributes of `raw`, each under its path.
  ghost predicate Flattened<V>(raw: ReadResult<V>, flat: map<string, V>) {
    && (forall e, c, a :: Holds(raw, e, c, a) ==> PathOf(e, c, a) in flat && flat[PathOf(e, c, a)] == raw[e][c][a])
    && (forall p :: p in flat ==> exists e, c, a :: Holds(raw, e, c, a) && p == PathOf(e, c, a))
  }

  /** The triple loop of `parse_attributes_from_read_result`. */
  method ParseAttributesFromReadResult<V>(raw: ReadResult<V>) returns (result: map<string, V>)
    ensures Flattened(raw, result)
  {
    result := map[];
    ghost var done: set<(nat, nat, nat)> := {};
    var endpoints := raw.Keys;
    while endpoints != {}
      invariant endpoints <= raw.Keys
      invariant forall e: nat, c: nat, a: nat :: (e, c, a) in done <==> Holds(raw, e, c, a) && e !in endpoints
      invariant FlattenedPart(raw, done, result)
    {
      var e :| e in endpoints;
      var clusters := raw[e].Keys;
      endpoints := endpoints - {e};
      while clusters != {}
        invariant clusters <= raw[e].Keys
        invariant forall e': nat, c: nat, a: nat :: (e', c, a) in done <==>
          Holds(raw, e', c, a) && e' !in endpoints && !(e' == e && c in clusters)
        invariant FlattenedPart(raw, done, result)
      {
        var c :| c in clusters;
        var attributes := raw[e][c].Keys;
        clusters := clusters - {c};
        while attributes != {}
          invariant attributes <= raw[e][c].Keys
          invariant forall e': nat, c': nat, a: nat :: (e', c', a) in done <==>
            Holds(raw, e', c', a) && e' !in endpoints && !(e' == e && c' in clusters)
              && !(e' == e && c' == c && a in attributes)
          invariant FlattenedPart(raw, done, result)
        {
          var a :| a in attributes;
          AddPath(raw, done, result, e, c, a);
          result := result[PathOf(e, c, a) := raw[e][c][a]];
          done := done + {(e, c, a)};
          attributes := attributes - {a};
        }
      }
    }
    AllDone(raw, done, result);
  }

  // One more attribute is one more path: no other path is overwritten.
  lemma AddPath<V>(raw: ReadResult<V>, done: set<(nat, nat, nat)>, flat: map<string, V>, e: nat, c: nat, a: nat)
    requires FlattenedPart(raw, done, flat) && Holds(raw, e, c, a)
    ensures FlattenedPart(raw, done + {(e, c, a)}, flat[PathOf(e, c, a) := raw[e][c][a]])
  {
    hide PathOf;
    var flat' := flat[PathOf(e, c, a) := raw[e][c][a]];
    var done' := done + {(e, c, a)};
    forall t | t in done' ensures PathOf(t.0, t.1, t.2) in flat' && flat'[PathOf(t.0, t.1, t.2)] == raw[t.0][t.1][t.2] {
      if PathOf(t.0, t.1, t.2) == PathOf(e, c, a) {
        PathInjective(t.0, t.1, t.2, e, c, a);
      }
    }
    forall p | p in flat' ensures exists t :: t in done' && p == PathOf(t.0, t.1, t.2) {
      if p == PathOf(e, c, a) {
        assert (e, c, a) in done';
      } else {
        var t :| t in done && p == PathOf(t.0, t.1, t.2);
        assert t in done';
      }
    }
  }

  lemma AllDone<V>(raw: ReadResult<V>, done: set<(nat, nat, nat)>, flat: map<string, V>)
    requires FlattenedPart(raw, done, flat)
    requires forall e: nat, c: nat, a: nat :: (e, c, a) in done <==> Holds(raw, e, c, a)
    ensures Flattened(raw, flat)
  {
    forall e: nat, c: nat, a: nat | Holds(raw, e, c, a)
      ensures PathOf(e, c, a) in flat && flat[PathOf(e, c, a)] == raw[e][c][a]
    {
      assert (e, c, a) in done;
    }
    forall p | p in flat ensures exists e, c, a :: Holds(raw, e, c, a) && p == PathOf(e, c, a) {
      var t :| t in done && p == PathOf(t.0, t.1, t.2);
      assert Holds(raw, t.0, t.1, t.2);
    }
  }

  /** Flattening loses nothing: two read results with the same paths and values hold the same attributes. */
  lemma FlatteningIsInjective<V>(raw: ReadResult<V>, other: ReadResult<V>, flat: map<string, V>)
    requires Flattened(raw, flat) && Flattened(other, flat)
    ensures forall e, c, a :: Holds(raw, e, c, a) <==> Holds(other, e, c, a)
    ensures forall e, c, a :: Holds(raw, e, c, a) ==> raw[e][c][a] == other[e][c][a]
  {
    forall e, c, a | Holds(raw, e, c, a) ensures Holds(other, e, c, a) && raw[e][c][a] == other[e][c][a] {
      var e', c', a' :| Holds(other, e', c', a') && PathOf(e, c, a) == PathOf(e', c', a');
      PathInjective(e, c, a, e', c', a');
    }
    forall e, c, a | Holds(other, e, c, a) ensures Holds(raw, e, c, a) {
      var e', c', a' :| Holds(raw, e', c', a') && PathOf(e, c, a) == PathOf(e', c', a');
      PathInjective(e, c, a, e', c', a');
    }
  }

  // `key.startswith(f"{endpoint}/")`
  predicate UnderEndpoint(endpoint: nat, key: string) {
    Str(endpoint) + [SEPARATOR] <= key
  }

  lemma NoSeparatorInDigits(n: nat)
    ensures SEPARATOR !in Str(n)
  {
    assert Component(Some(n)) == Str(n);
  }

  /** The textual prefix test selects exactly the paths of that endpoint: `1/` never matches `12/...`. */
  lemma PrefixSelectsEndpoint(endpoint: nat, e: nat, c: nat, a: nat)
    ensures UnderEndpoint(endpoint, PathOf(e, c, a)) <==> endpoint == e
  {
    hide Str;
    var tail := Component(Some(c)) + [SEPARATOR] + Component(Some(a));
    var path := PathOf(e, c, a);
    assert path == Str(e) + [SEPARATOR] + tail;
    NoSeparatorInDigits(e);
    SplitAtFirst(Str(e), tail);
    if UnderEndpoint(endpoint, path) {
      var rest := path[|Str(endpoint)| + 1..];
      assert path == Str(endpoint) + [SEPARATOR] + rest;
      NoSeparatorInDigits(endpoint);
      SplitAtFirst(Str(endpoint), rest);
      assert Split(path)[0] == Str(e) && Split(path)[0] == Str(endpoint);
      StrInjective(endpoint, e);
    }
  }

  ghost predicate OutsideEndpoints(endpoints: set<nat>, path: string) {
    forall e :: e in endpoints ==> !UnderEndpoint(e, path)
  }

  // `kept` is `attributes` without the paths under the given endpoints.
  ghost predicate IsRestOf<V>(kept: map<string, V>, attributes: map<string, V>, endpoints: set<nat>) {
    && (forall p :: p in kept <==> p in attributes && OutsideEndpoints(endpoints, p))
    && (forall p :: p in kept ==> kept[p] == attributes[p])
  }

  /** The dictionary rebuilt by `_handle_endpoints_removed`, one removed endpoint after the other. */
  method RemoveEndpoints<V>(attributes: map<string, V>, endpoints: set<nat>) returns (kept: map<string, V>)
    ensures IsRestOf(kept, attributes, endpoints)
  {
    kept := attributes;
    var todo := endpoints;
    while todo != {}
      invariant todo <= endpoints
      invariant IsRestOf(kept, attributes, endpoints - todo)
    {
      var e :| e in todo;
      kept := map p | p in kept && !UnderEndpoint(e, p) :: kept[p];
      todo := todo - {e};
    }
    assert endpoints - todo == endpoints;
  }

  lemma OutsideMeansOtherEndpoint(endpoints: set<nat>, e: nat, c: nat, a: nat)
    ensures OutsideEndpoints(endpoints, PathOf(e, c, a)) <==> e !in endpoints
  {
    forall x | x in endpoints ensures UnderEndpoint(x, PathOf(e, c, a)) <==> x == e {
      PrefixSelectsEndpoint(x, e, c, a);
    }
  }

  function WithoutEndpoints<V>(raw: ReadResult<V>, endpoints: set<nat>): ReadResult<V> {
    map e | e in raw && e !in endpoints :: raw[e]
  }

  /** Endpoint removal on the flat dictionary deletes exactly the attributes of the removed endpoints. */
  lemma RemovalIsExact<V>(raw: ReadResult<V>, flat: map<string, V>, endpoints: set<nat>, kept: map<string, V>)
    requires Flattened(raw, flat) && IsRestOf(kept, flat, endpoints)
    ensures Flattened(WithoutEndpoints(raw, endpoints), kept)
  {
    var rest := WithoutEndpoints(raw, endpoints);
    forall e: nat, c: nat, a: nat | Holds(rest, e, c, a)
      ensures PathOf(e, c, a) in kept && kept[PathOf(e, c, a)] == rest[e][c][a]
    {
      assert Holds(raw, e, c, a);
      OutsideMeansOtherEndpoint(endpoints, e, c, a);
    }
    forall p | p in kept ensures exists e, c, a :: Holds(rest, e, c, a) && p == PathOf(e, c, a) {
      var e, c, a :| Holds(raw, e, c, a) && p == PathOf(e, c, a);
      OutsideMeansOtherEndpoint(endpoints, e, c, a);
      assert Holds(rest, e, c, a);
    }
  }
}
