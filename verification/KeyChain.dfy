/** The controller's own key-value storage: two linked lists, of keysets and of group-to-keyset
    maps, encoded as entries that name their successor, with heads and counts in FabricData. */
module KeyChain {
  import opened Wrappers

  type Key = string

  const INVALID_KEYSET: nat := 0xFFFF
  const NO_MAP: nat := 0

  datatype KeysetNode = KeysetNode(key: Key, next: nat)
  datatype MapNode = MapNode(group: nat, keyset: nat, next: nat)
  datatype FabricData = FabricData(firstGroup: nat, groupCount: nat, firstMap: nat, mapCount: nat,
                                   firstKeyset: nat, keysetCount: nat, nextFabric: nat)
  datatype Kvs = Kvs(fabric: Option<FabricData>, keysets: map<nat, KeysetNode>, maps: map<nat, MapNode>)

  const NEW_FABRIC := FabricData(0, 0, NO_MAP, 0, INVALID_KEYSET, 0, 0)

  function FabricOf(kvs: Kvs): FabricData {
    match kvs.fabric
    case None => NEW_FABRIC
    case Some(f) => f
  }

  /* ---- Chains ---- */

  // Following `links` from `first` visits exactly `ids`, in order, and then reaches `end`.
  ghost predicate IsChain(links: map<nat, nat>, first: nat, ids: seq<nat>, end: nat)
    decreases ids
  {
    if ids == [] then first == end
    else first != end && ids[0] == first && first in links && IsChain(links, links[first], ids[1..], end)
  }

  lemma {:induction false} ChainUnique(links: map<nat, nat>, first: nat, ids: seq<nat>, ids': seq<nat>, end: nat)
    requires IsChain(links, first, ids, end) && IsChain(links, first, ids', end)
    ensures ids == ids'
    decreases ids
  {
    if ids != [] {
      ChainUnique(links, links[first], ids[1..], ids'[1..], end);
      assert ids == [first] + ids[1..] && ids' == [first] + ids'[1..];
    }
  }

  lemma {:induction false} ChainSuffix(links: map<nat, nat>, first: nat, ids: seq<nat>, end: nat, j: nat)
    requires IsChain(links, first, ids, end) && j < |ids|
    ensures IsChain(links, ids[j], ids[j..], end)
    decreases ids
  {
    if j > 0 {
      ChainSuffix(links, links[first], ids[1..], end, j - 1);
      assert ids[1..][j - 1..] == ids[j..];
    } else {
      assert ids[0..] == ids;
    }
  }

  /** A chain that reaches its end never visits an entry twice. */
  lemma ChainHeadOnce(links: map<nat, nat>, first: nat, ids: seq<nat>, end: nat)
    requires IsChain(links, first, ids, end) && ids != []
    ensures first !in ids[1..]
  {
    if first in ids[1..] {
      var j :| 0 <= j < |ids[1..]| && ids[1..][j] == first;
      ChainSuffix(links, first, ids, end, j + 1);
      ChainUnique(links, first, ids, ids[j + 1..], end);
      assert false;
    }
  }

  // Entries off the chain do not matter to it.
  lemma {:induction false} ChainFrame(links: map<nat, nat>, links': map<nat, nat>, first: nat, ids: seq<nat>, end: nat)
    requires IsChain(links, first, ids, end)
    requires forall x :: x in ids && x in links ==> x in links' && links'[x] == links[x]
    ensures IsChain(links', first, ids, end)
    decreases ids
  {
    if ids != [] {
      forall x | x in ids[1..] && x in links ensures x in links' && links'[x] == links[x] { assert x in ids; }
      ChainFrame(links, links', links[first], ids[1..], end);
    }
  }

  lemma ChainPush(links: map<nat, nat>, first: nat, ids: seq<nat>, end: nat, x: nat)
    requires IsChain(links, first, ids, end) && x !in ids && x != end
    ensures IsChain(links[x := first], x, [x] + ids, end)
  {
    ChainFrame(links, links[x := first], first, ids, end);
    assert ([x] + ids)[1..] == ids;
  }

  // If x lies on the chain from `first`, it still lies on any chain after x is made to point elsewhere.
  lemma {:induction false} StillVisited(links: map<nat, nat>, links': map<nat, nat>, first: nat, ids: seq<nat>,
                                        ids': seq<nat>, end: nat, x: nat)
    requires IsChain(links, first, ids, end) && x in ids
    requires forall y :: y in links && y != x ==> y in links' && links'[y] == links[y]
    requires IsChain(links', first, ids', end)
    ensures x in ids'
    decreases ids
  {
    if first != x {
      StillVisited(links, links', links[first], ids[1..], ids'[1..], end, x);
    }
  }

  /** Pushing an entry that is already on the chain closes a cycle: the end is never reached again. */
  lemma RepushCloses(links: map<nat, nat>, first: nat, ids: seq<nat>, end: nat, x: nat, ids': seq<nat>)
    requires IsChain(links, first, ids, end) && x in ids
    ensures !IsChain(links[x := first], x, ids', end)
  {
    var links' := links[x := first];
    if IsChain(links', x, ids', end) {
      if ids' == [] {
        NoEndInside(links, first, ids, end, x);
      } else {
        StillVisited(links, links', first, ids, ids'[1..], end, x);
        ChainHeadOnce(links', x, ids', end);
      }
    }
  }

  lemma {:induction false} NoEndInside(links: map<nat, nat>, first: nat, ids: seq<nat>, end: nat, x: nat)
    requires IsChain(links, first, ids, end) && x in ids
    ensures x != end
    decreases ids
  {
    if first != x {
      NoEndInside(links, links[first], ids[1..], end, x);
    }
  }

  /* ---- The store seen as two chains ---- */

  function KeysetLinks(kvs: Kvs): map<nat, nat> { map k | k in kvs.keysets :: kvs.keysets[k].next }
  function MapLinks(kvs: Kvs): map<nat, nat> { map m | m in kvs.maps :: kvs.maps[m].next }

  // `ks` and `ms` are the keyset and map ids from head to end, and the counts agree with them.
  ghost predicate Chains(kvs: Kvs, ks: seq<nat>, ms: seq<nat>) {
    && IsChain(KeysetLinks(kvs), FabricOf(kvs).firstKeyset, ks, INVALID_KEYSET)
    && IsChain(MapLinks(kvs), FabricOf(kvs).firstMap, ms, NO_MAP)
    && FabricOf(kvs).keysetCount == |ks| && FabricOf(kvs).mapCount == |ms|
  }

  ghost predicate WellFormed(kvs: Kvs) {
    exists ks, ms :: Chains(kvs, ks, ms)
  }

  lemma {:induction false} ChainInLinks(links: map<nat, nat>, first: nat, ids: seq<nat>, end: nat)
    requires IsChain(links, first, ids, end)
    ensures forall x :: x in ids ==> x in links
    decreases ids
  {
    if ids != [] { ChainInLinks(links, links[first], ids[1..], end); }
  }

  // Head-first search of the map chain, as the SDK resolves a group.
  ghost function Resolve(maps: map<nat, MapNode>, ms: seq<nat>, group: nat): Option<nat> {
    if ms == [] then None
    else if ms[0] in maps && maps[ms[0]].group == group then Some(maps[ms[0]].keyset)
    else Resolve(maps, ms[1..], group)
  }

  lemma {:induction false} ResolveFrame(maps: map<nat, MapNode>, maps': map<nat, MapNode>, ms: seq<nat>, group: nat)
    requires forall m :: m in ms ==> (m in maps <==> m in maps') && (m in maps ==> maps'[m] == maps[m])
    ensures Resolve(maps', ms, group) == Resolve(maps, ms, group)
  {
    if ms != [] {
      forall m | m in ms[1..] ensures (m in maps <==> m in maps') && (m in maps ==> maps'[m] == maps[m]) {
        assert m in ms;
      }
      ResolveFrame(maps, maps', ms[1..], group);
    }
  }

  /* ---- Injection ---- */

  // The state after the first `writes` of the three key-value writes.
  function InjectPrefix(kvs: Kvs, group: nat, keyset: nat, key: Key, mapId: nat, writes: nat): Kvs {
    var f := FabricOf(kvs);
    var k1 := kvs.(keysets := kvs.keysets[keyset := KeysetNode(key, f.firstKeyset)]);
    var k2 := k1.(maps := k1.maps[mapId := MapNode(group, keyset, f.firstMap)]);
    var f' := f.(firstKeyset := keyset, keysetCount := f.keysetCount + 1,
                 firstMap := mapId, mapCount := f.mapCount + 1);
    if writes == 0 then kvs
    else if writes == 1 then k1
    else if writes == 2 then k2
    else k2.(fabric := Some(f'))
  }

  function Inject(kvs: Kvs, group: nat, keyset: nat, key: Key, mapId: nat): Kvs {
    InjectPrefix(kvs, group, keyset, key, mapId, 3)
  }

  ghost predicate Fresh(ks: seq<nat>, ms: seq<nat>, keyset: nat, mapId: nat) {
    keyset !in ks && keyset != INVALID_KEYSET && mapId !in ms && mapId != NO_MAP
  }

  // Everything reachable in `kvs` is reachable, unchanged, in `kvs'`.
  ghost predicate Preserved(kvs: Kvs, kvs': Kvs, ks: seq<nat>, ms: seq<nat>) {
    && (forall k :: k in ks && k in kvs.keysets ==> k in kvs'.keysets && kvs'.keysets[k] == kvs.keysets[k])
    && (forall m :: m in ms && m in kvs.maps ==> m in kvs'.maps && kvs'.maps[m] == kvs.maps[m])
  }

  /** Fresh ids: one node is prepended to each chain, the group resolves to its keyset, which holds
      the key, and no other group's resolution and no reachable entry changes. */
  lemma InjectFresh(kvs: Kvs, ks: seq<nat>, ms: seq<nat>, group: nat, keyset: nat, key: Key, mapId: nat)
    requires Chains(kvs, ks, ms) && Fresh(ks, ms, keyset, mapId)
    ensures var kvs' := Inject(kvs, group, keyset, key, mapId);
      && Chains(kvs', [keyset] + ks, [mapId] + ms)
      && Preserved(kvs, kvs', ks, ms)
      && Resolve(kvs'.maps, [mapId] + ms, group) == Some(keyset)
      && keyset in kvs'.keysets && kvs'.keysets[keyset].key == key
      && forall g :: g != group ==> Resolve(kvs'.maps, [mapId] + ms, g) == Resolve(kvs.maps, ms, g)
  {
    var kvs' := Inject(kvs, group, keyset, key, mapId);
    var f := FabricOf(kvs);
    ChainPush(KeysetLinks(kvs), f.firstKeyset, ks, INVALID_KEYSET, keyset);
    assert KeysetLinks(kvs') == KeysetLinks(kvs)[keyset := f.firstKeyset];
    ChainPush(MapLinks(kvs), f.firstMap, ms, NO_MAP, mapId);
    assert MapLinks(kvs') == MapLinks(kvs)[mapId := f.firstMap];
    assert ([mapId] + ms)[1..] == ms;
    forall g | g != group ensures Resolve(kvs'.maps, [mapId] + ms, g) == Resolve(kvs.maps, ms, g) {
      ResolveFrame(kvs.maps, kvs'.maps, ms, g);
    }
  }

  /** FabricData is written last: any failing prefix of the writes leaves both chains, every reachable
      entry and every resolution as they were. */
  lemma InjectFailsSafe(kvs: Kvs, ks: seq<nat>, ms: seq<nat>, group: nat, keyset: nat, key: Key, mapId: nat,
                        writes: nat)
    requires Chains(kvs, ks, ms) && Fresh(ks, ms, keyset, mapId) && writes < 3
    ensures var kvs' := InjectPrefix(kvs, group, keyset, key, mapId, writes);
      && Chains(kvs', ks, ms)
      && Preserved(kvs, kvs', ks, ms)
      && forall g :: Resolve(kvs'.maps, ms, g) == Resolve(kvs.maps, ms, g)
  {
    var kvs' := InjectPrefix(kvs, group, keyset, key, mapId, writes);
    ChainFrame(KeysetLinks(kvs), KeysetLinks(kvs'), FabricOf(kvs).firstKeyset, ks, INVALID_KEYSET);
    ChainFrame(MapLinks(kvs), MapLinks(kvs'), FabricOf(kvs).firstMap, ms, NO_MAP);
    forall g ensures Resolve(kvs'.maps, ms, g) == Resolve(kvs.maps, ms, g) {
      ResolveFrame(kvs.maps, kvs'.maps, ms, g);
    }
  }

  /** A complete injection keeps the store well formed exactly when both ids are fresh. A keyset
      already on its chain, as on re-injection, closes a cycle. */
  lemma InjectWellFormedIff(kvs: Kvs, ks: seq<nat>, ms: seq<nat>, group: nat, keyset: nat, key: Key, mapId: nat)
    requires Chains(kvs, ks, ms)
    ensures WellFormed(Inject(kvs, group, keyset, key, mapId)) <==> Fresh(ks, ms, keyset, mapId)
  {
    var kvs' := Inject(kvs, group, keyset, key, mapId);
    var f := FabricOf(kvs);
    if Fresh(ks, ms, keyset, mapId) {
      InjectFresh(kvs, ks, ms, group, keyset, key, mapId);
    } else if WellFormed(kvs') {
      var ks', ms' :| Chains(kvs', ks', ms');
      assert KeysetLinks(kvs') == KeysetLinks(kvs)[keyset := f.firstKeyset];
      assert MapLinks(kvs') == MapLinks(kvs)[mapId := f.firstMap];
      assert |ks'| > 0 && |ms'| > 0;
      if keyset in ks {
        RepushCloses(KeysetLinks(kvs), f.firstKeyset, ks, INVALID_KEYSET, keyset, ks');
      } else {
        RepushCloses(MapLinks(kvs), f.firstMap, ms, NO_MAP, mapId, ms');
      }
    }
  }

  /* ---- Any number of writes ---- */

  // An entry written without moving the head: the chain has not changed, and does not contain it.
  lemma ChainBack(links: map<nat, nat>, first: nat, x: nat, ids: seq<nat>, end: nat)
    requires IsChain(links[x := first], first, ids, end)
    ensures IsChain(links, first, ids, end) && x !in ids
  {
    var links' := links[x := first];
    if x in ids {
      var j :| 0 <= j < |ids| && ids[j] == x;
      ChainSuffix(links', first, ids, end, j);
      ChainUnique(links', first, ids, ids[j..][1..], end);
    }
    ChainFrame(links', links, first, ids, end);
  }

  // An entry pushed: the rest of the chain was there before, and does not contain it.
  lemma ChainPop(links: map<nat, nat>, first: nat, x: nat, ids: seq<nat>, end: nat)
    requires IsChain(links[x := first], x, ids, end) && ids != []
    ensures IsChain(links, first, ids[1..], end) && x !in ids[1..] && x != end
  {
    ChainHeadOnce(links[x := first], x, ids, end);
    ChainFrame(links[x := first], links, first, ids[1..], end);
  }

  // Write by write: the keyset and the map id are not on their chains, and do not mark an end.
  ghost predicate PrefixFresh(ks: seq<nat>, ms: seq<nat>, keyset: nat, mapId: nat, writes: nat) {
    && (writes >= 1 ==> keyset !in ks)
    && (writes >= 2 ==> mapId !in ms)
    && (writes >= 3 ==> keyset != INVALID_KEYSET && mapId != NO_MAP)
  }

  lemma PrefixChains(kvs: Kvs, ks: seq<nat>, ms: seq<nat>, group: nat, keyset: nat, key: Key, mapId: nat, writes: nat)
    requires Chains(kvs, ks, ms) && PrefixFresh(ks, ms, keyset, mapId, writes)
    ensures WellFormed(InjectPrefix(kvs, group, keyset, key, mapId, writes))
  {
    var kvs' := InjectPrefix(kvs, group, keyset, key, mapId, writes);
    if writes >= 3 {
      InjectFresh(kvs, ks, ms, group, keyset, key, mapId);
      assert kvs' == Inject(kvs, group, keyset, key, mapId);
    } else {
      ChainFrame(KeysetLinks(kvs), KeysetLinks(kvs'), FabricOf(kvs).firstKeyset, ks, INVALID_KEYSET);
      ChainFrame(MapLinks(kvs), MapLinks(kvs'), FabricOf(kvs).firstMap, ms, NO_MAP);
      assert Chains(kvs', ks, ms);
    }
  }

  // Where the storage is well formed afterwards, it was so before, and the ids were fresh.
  lemma PrefixBack(kvs: Kvs, group: nat, keyset: nat, key: Key, mapId: nat, writes: nat, ks': seq<nat>, ms': seq<nat>)
    returns (ks: seq<nat>, ms: seq<nat>)
    requires Chains(InjectPrefix(kvs, group, keyset, key, mapId, writes), ks', ms')
    ensures Chains(kvs, ks, ms) && PrefixFresh(ks, ms, keyset, mapId, writes)
  {
    hide IsChain;
    var kvs', f := InjectPrefix(kvs, group, keyset, key, mapId, writes), FabricOf(kvs);
    ks, ms := ks', ms';
    if writes >= 1 { assert KeysetLinks(kvs') == KeysetLinks(kvs)[keyset := f.firstKeyset]; }
    if writes >= 2 { assert MapLinks(kvs') == MapLinks(kvs)[mapId := f.firstMap]; }
    if writes >= 3 {
      ks, ms := ks'[1..], ms'[1..];
      ChainPop(KeysetLinks(kvs), f.firstKeyset, keyset, ks', INVALID_KEYSET);
      ChainPop(MapLinks(kvs), f.firstMap, mapId, ms', NO_MAP);
    } else if writes >= 1 {
      ChainBack(KeysetLinks(kvs), f.firstKeyset, keyset, ks, INVALID_KEYSET);
      if writes == 2 { ChainBack(MapLinks(kvs), f.firstMap, mapId, ms, NO_MAP); }
    }
  }

  // The lists of a well-formed storage are determined by it.
  lemma ChainsUnique(kvs: Kvs, ks: seq<nat>, ms: seq<nat>, ks': seq<nat>, ms': seq<nat>)
    requires Chains(kvs, ks, ms) && Chains(kvs, ks', ms')
    ensures ks' == ks && ms' == ms
  {
    ChainUnique(KeysetLinks(kvs), FabricOf(kvs).firstKeyset, ks, ks', INVALID_KEYSET);
    ChainUnique(MapLinks(kvs), FabricOf(kvs).firstMap, ms, ms', NO_MAP);
  }

  // One injection: what is injected, under which map id, and how many of its writes succeed.
  datatype Injected = Injected(group: nat, keyset: nat, key: Key, mapId: nat, writes: nat)

  function Apply(kvs: Kvs, i: Injected): Kvs {
    InjectPrefix(kvs, i.group, i.keyset, i.key, i.mapId, i.writes)
  }

  ghost predicate FreshFor(kvs: Kvs, i: Injected) {
    forall ks, ms :: Chains(kvs, ks, ms) ==> PrefixFresh(ks, ms, i.keyset, i.mapId, i.writes)
  }

  /** However many writes of an injection succeed: the storage is well formed afterwards if and only if it
      was before and the ids written are fresh. A cycle, once there, is never mended. */
  lemma ApplyWellFormedIff(kvs: Kvs, i: Injected)
    ensures WellFormed(Apply(kvs, i)) <==> WellFormed(kvs) && FreshFor(kvs, i)
  {
    hide Chains, PrefixFresh, InjectPrefix;
    if WellFormed(Apply(kvs, i)) {
      var ks', ms' :| Chains(Apply(kvs, i), ks', ms');
      var ks, ms := PrefixBack(kvs, i.group, i.keyset, i.key, i.mapId, i.writes, ks', ms');
      forall ks2, ms2 | Chains(kvs, ks2, ms2) ensures PrefixFresh(ks2, ms2, i.keyset, i.mapId, i.writes) {
        ChainsUnique(kvs, ks, ms, ks2, ms2);
      }
    }
    if WellFormed(kvs) && FreshFor(kvs, i) {
      var ks, ms :| Chains(kvs, ks, ms);
      PrefixChains(kvs, ks, ms, i.group, i.keyset, i.key, i.mapId, i.writes);
    }
  }

  function ApplyAll(kvs: Kvs, injections: seq<Injected>): Kvs
    decreases injections
  {
    if injections == [] then kvs else ApplyAll(Apply(kvs, injections[0]), injections[1..])
  }

  ghost predicate AllFresh(kvs: Kvs, injections: seq<Injected>)
    decreases injections
  {
    injections != [] ==> FreshFor(kvs, injections[0]) && AllFresh(Apply(kvs, injections[0]), injections[1..])
  }

  lemma {:induction false} ApplyAllWellFormedIff(kvs: Kvs, injections: seq<Injected>)
    ensures WellFormed(ApplyAll(kvs, injections)) <==> WellFormed(kvs) && AllFresh(kvs, injections)
    decreases injections
  {
    hide WellFormed, FreshFor, Apply;
    if injections != [] {
      ApplyWellFormedIff(kvs, injections[0]);
      ApplyAllWellFormedIff(Apply(kvs, injections[0]), injections[1..]);
    }
  }

  lemma {:induction false} ApplyAllConcat(kvs: Kvs, a: seq<Injected>, b: seq<Injected>)
    ensures ApplyAll(kvs, a + b) == ApplyAll(ApplyAll(kvs, a), b)
    decreases a
  {
    hide Apply;
    if a != [] {
      ApplyAllConcat(Apply(kvs, a[0]), a[1..], b);
      assert (a + b)[1..] == a[1..] + b;
    } else {
      assert a + b == b;
    }
  }

  // The fields of FabricData that are no list, and all entries but those under the given ids.
  ghost predicate KeepsRest(kvs: Kvs, kvs': Kvs, keysets: set<nat>, maps: set<nat>) {
    && FabricOf(kvs').firstGroup == FabricOf(kvs).firstGroup && FabricOf(kvs').groupCount == FabricOf(kvs).groupCount
    && FabricOf(kvs').nextFabric == FabricOf(kvs).nextFabric
    && (forall k :: k !in keysets ==> EntryAt(kvs'.keysets, k) == EntryAt(kvs.keysets, k))
    && forall m :: m !in maps ==> EntryAt(kvs'.maps, m) == EntryAt(kvs.maps, m)
  }

  function EntryAt<T>(entries: map<nat, T>, id: nat): Option<T> {
    if id in entries then Some(entries[id]) else None
  }

  function KeysetIds(injections: seq<Injected>): set<nat> {
    set i | i in injections :: i.keyset
  }

  function MapIds(injections: seq<Injected>): set<nat> {
    set i | i in injections :: i.mapId
  }

  lemma ApplyKeeps(kvs: Kvs, i: Injected)
    ensures KeepsRest(kvs, Apply(kvs, i), {i.keyset}, {i.mapId})
    ensures i.writes < 3 ==> Apply(kvs, i).fabric == kvs.fabric
  {
  }

  /** Injections leave the groups and the next fabric of FabricData, and every entry under another id, as they
      were. */
  lemma {:induction false} ApplyAllKeeps(kvs: Kvs, injections: seq<Injected>)
    ensures KeepsRest(kvs, ApplyAll(kvs, injections), KeysetIds(injections), MapIds(injections))
    decreases injections
  {
    hide Apply, FabricOf;
    if injections != [] {
      var first, rest := injections[0], injections[1..];
      ApplyKeeps(kvs, first);
      ApplyAllKeeps(Apply(kvs, first), rest);
      assert forall i :: i in injections <==> i == first || i in rest;
      assert first.keyset in KeysetIds(injections) && KeysetIds(rest) <= KeysetIds(injections);
      assert first.mapId in MapIds(injections) && MapIds(rest) <= MapIds(injections);
    }
  }

  /* ---- The map list alone ---- */

  ghost predicate MapChain(kvs: Kvs, ms: seq<nat>) {
    IsChain(MapLinks(kvs), FabricOf(kvs).firstMap, ms, NO_MAP) && FabricOf(kvs).mapCount == |ms|
  }

  ghost predicate MapFresh(ms: seq<nat>, i: Injected) {
    (i.writes >= 2 ==> i.mapId !in ms) && (i.writes >= 3 ==> i.mapId != NO_MAP)
  }

  function MapsAfter(ms: seq<nat>, i: Injected): seq<nat> {
    if i.writes >= 3 then [i.mapId] + ms else ms
  }

  // What the search for a group answers after an injection, if it answered `answer` before.
  function Answer(answer: Option<nat>, i: Injected, group: nat): Option<nat> {
    if i.writes >= 3 && i.group == group then Some(i.keyset) else answer
  }

  lemma MapLinksAfter(kvs: Kvs, i: Injected)
    ensures MapLinks(Apply(kvs, i)) ==
      if i.writes >= 2 then MapLinks(kvs)[i.mapId := FabricOf(kvs).firstMap] else MapLinks(kvs)
    ensures FabricOf(Apply(kvs, i)).firstMap == if i.writes >= 3 then i.mapId else FabricOf(kvs).firstMap
    ensures FabricOf(Apply(kvs, i)).mapCount == FabricOf(kvs).mapCount + if i.writes >= 3 then 1 else 0
  {
  }

  /** An injection with a fresh map id, however many writes of it succeed, keeps the map list, and the
      search answers its keyset for its group if it is complete, and what it answered before otherwise;
      the keyset list does not matter. */
  lemma ApplyResolves(kvs: Kvs, ms: seq<nat>, i: Injected)
    requires MapChain(kvs, ms) && MapFresh(ms, i)
    ensures MapChain(Apply(kvs, i), MapsAfter(ms, i))
    ensures forall g :: Resolve(Apply(kvs, i).maps, MapsAfter(ms, i), g) == Answer(Resolve(kvs.maps, ms, g), i, g)
  {
    hide IsChain;
    var links, first := MapLinks(kvs), FabricOf(kvs).firstMap;
    MapLinksAfter(kvs, i);
    if i.writes >= 3 {
      ChainPush(links, first, ms, NO_MAP, i.mapId);
      assert ([i.mapId] + ms)[1..] == ms;
    } else {
      ChainFrame(links, MapLinks(Apply(kvs, i)), first, ms, NO_MAP);
    }
    forall g ensures Resolve(Apply(kvs, i).maps, ms, g) == Resolve(kvs.maps, ms, g) {
      if i.writes >= 2 { ResolveFrame(kvs.maps, Apply(kvs, i).maps, ms, g); }
    }
  }

  // Where there is a map list afterwards, there was one before, and the map id was fresh.
  lemma MapBack(kvs: Kvs, i: Injected, ms': seq<nat>) returns (ms: seq<nat>)
    requires MapChain(Apply(kvs, i), ms')
    ensures MapChain(kvs, ms) && MapFresh(ms, i)
  {
    hide IsChain;
    var links, first := MapLinks(kvs), FabricOf(kvs).firstMap;
    MapLinksAfter(kvs, i);
    if i.writes >= 3 {
      ChainPop(links, first, i.mapId, ms', NO_MAP);
      ms := ms'[1..];
    } else {
      ms := ms';
      if i.writes >= 2 { ChainBack(links, first, i.mapId, ms, NO_MAP); }
    }
  }

  lemma MapChainUnique(kvs: Kvs, ms: seq<nat>, ms': seq<nat>)
    requires MapChain(kvs, ms) && MapChain(kvs, ms')
    ensures ms' == ms
  {
    ChainUnique(MapLinks(kvs), FabricOf(kvs).firstMap, ms, ms', NO_MAP);
  }

  function AllMapsAfter(ms: seq<nat>, injections: seq<Injected>): seq<nat>
    decreases injections
  {
    if injections == [] then ms else AllMapsAfter(MapsAfter(ms, injections[0]), injections[1..])
  }

  ghost predicate AllMapFresh(ms: seq<nat>, injections: seq<Injected>)
    decreases injections
  {
    injections != [] ==> MapFresh(ms, injections[0]) && AllMapFresh(MapsAfter(ms, injections[0]), injections[1..])
  }

  function Answers(answer: Option<nat>, injections: seq<Injected>, group: nat): Option<nat>
    decreases injections
  {
    if injections == [] then answer else Answers(Answer(answer, injections[0], group), injections[1..], group)
  }

  lemma {:induction false} ApplyAllResolves(kvs: Kvs, ms: seq<nat>, injections: seq<Injected>)
    requires MapChain(kvs, ms) && AllMapFresh(ms, injections)
    ensures var kvs', ms' := ApplyAll(kvs, injections), AllMapsAfter(ms, injections);
      && MapChain(kvs', ms')
      && forall g :: Resolve(kvs'.maps, ms', g) == Answers(Resolve(kvs.maps, ms, g), injections, g)
    decreases injections
  {
    hide Apply, MapChain, MapFresh, MapsAfter, Answer, Resolve;
    if injections != [] {
      ApplyResolves(kvs, ms, injections[0]);
      ApplyAllResolves(Apply(kvs, injections[0]), MapsAfter(ms, injections[0]), injections[1..]);
    }
  }

  lemma {:induction false} ApplyAllMapBack(kvs: Kvs, injections: seq<Injected>, ms': seq<nat>) returns (ms: seq<nat>)
    requires MapChain(ApplyAll(kvs, injections), ms')
    ensures MapChain(kvs, ms) && AllMapFresh(ms, injections)
    decreases injections
  {
    hide Apply, MapChain, MapFresh, MapsAfter;
    if injections == [] {
      ms := ms';
    } else {
      var ms1 := ApplyAllMapBack(Apply(kvs, injections[0]), injections[1..], ms');
      ms := MapBack(kvs, injections[0], ms1);
      ApplyResolves(kvs, ms, injections[0]);
      MapChainUnique(Apply(kvs, injections[0]), ms1, MapsAfter(ms, injections[0]));
    }
  }
}
