/** Groupcasts end to end: the controller's key-value storage resolves a group to the keyset and key under
    which the nodes tracked for it can decrypt. */
module GroupDelivery {
  import opened Wrappers
  import opened KeyChain
  import opened Devices
  import opened GroupProtocol
  import opened GroupKeys
  import opened GroupInvariant
  import opened GroupChains

  /* ---- Every stored group resolves ---- */

  ghost predicate ResolvesBy(w: World, ms: seq<nat>) {
    && MapChain(w.kvs, ms)
    && forall g :: g in w.store ==> Resolve(w.kvs.maps, ms, g) == Some(w.store[g].keyset)
  }

  // A head-first search of the map list finds the stored keyset of every stored group.
  ghost predicate Resolves(w: World) {
    exists ms :: ResolvesBy(w, ms)
  }

  // The injections of a command are for one group, and end with its stored entry; others keep theirs.
  lemma StoreAfter(w: World, c: Command)
    ensures var injected, store' := InjectionsOf(w, c), Execute(w, c).world.store;
      if injected == [] then Shrinks(w.store, store')
      else
        var g := injected[0].group;
        && (forall i :: i in injected ==> i.group == g)
        && g in store' && store'[g] == StoredKey(injected[|injected| - 1].keyset, injected[|injected| - 1].key)
        && (forall h :: h != g && h in store' ==> h in w.store && store'[h] == w.store[h])
  {
    hide AddToGroup, Shrinks, SendToGroup;
    match c
    case Add(n, ep, g, env, winner) => AddStoreAfter(w, n, ep, g, env, winner);
    case Send(g, env) =>
      RefreshStore(w, g, env);
      OtherStore(w, c);
    case _ => OtherStore(w, c);
  }

  lemma AddStoreAfter(w: World, n: NodeId, ep: Endpoint, g: GroupId, env: Env, winner: GroupId)
    ensures var injected, store' := InjectionsOf(w, Add(n, ep, g, env, winner)),
      AddToGroup(w, n, ep, g, env, winner).world.store;
      if injected == [] then Shrinks(w.store, store')
      else
        && (forall i :: i in injected ==> i.group == g)
        && g in store' && store'[g] == StoredKey(injected[|injected| - 1].keyset, injected[|injected| - 1].key)
        && (forall h :: h != g && h in store' ==> h in w.store && store'[h] == w.store[h])
  {
    hide AddToGroup, Prepare, EntryAfter, SupportsGroups, WithGroupKey;
    AddStore(w, n, ep, g, env, winner);
    DrawStore(w, g, env);
  }

  /** The map ids a command writes are not on the map list, and its last complete injection, or else what
      the search found before, is of the entry the group ends up with. */
  ghost predicate MapServed(w: World, c: Command) {
    var injected := InjectionsOf(w, c);
    forall ms :: MapChain(w.kvs, ms) ==>
      && AllMapFresh(ms, injected)
      && (injected != [] ==> FoundAfter(w, ms, injected) == Some(injected[|injected| - 1].keyset))
  }

  ghost function FoundAfter(w: World, ms: seq<nat>, injected: seq<Injected>): Option<nat>
    requires injected != []
  {
    Answers(Resolve(w.kvs.maps, ms, injected[0].group), injected, injected[0].group)
  }

  lemma {:induction false} OtherAnswers(answer: Option<nat>, injected: seq<Injected>, g: nat, h: nat)
    requires (forall i :: i in injected ==> i.group == g) && h != g
    ensures Answers(answer, injected, h) == answer
    decreases injected
  {
    if injected != [] { OtherAnswers(answer, injected[1..], g, h); }
  }

  lemma ExecuteResolvesIff(w: World, c: Command)
    requires Resolves(w)
    ensures Resolves(Execute(w, c).world) <==> MapServed(w, c)
  {
    hide Execute, InjectionsOf, MapChain, Resolve, AllMapFresh, Answers;
    var ms :| ResolvesBy(w, ms);
    var injected, w' := InjectionsOf(w, c), Execute(w, c).world;
    ExecuteKvs(w, c);
    StoreAfter(w, c);
    if Resolves(w') {
      var ms' :| ResolvesBy(w', ms');
      var back := ApplyAllMapBack(w.kvs, injected, ms');
      forall any | MapChain(w.kvs, any)
        ensures AllMapFresh(any, injected)
          && (injected != [] ==> FoundAfter(w, any, injected) == Some(injected[|injected| - 1].keyset))
      {
        MapChainUnique(w.kvs, back, any);
        ApplyAllResolves(w.kvs, any, injected);
        MapChainUnique(w'.kvs, ms', AllMapsAfter(any, injected));
      }
    }
    if MapServed(w, c) {
      ApplyAllResolves(w.kvs, ms, injected);
      ServedResolves(w, c, ms);
    }
  }

  lemma ServedResolves(w: World, c: Command, ms: seq<nat>)
    requires ResolvesBy(w, ms) && MapServed(w, c)
    ensures ResolvesBy(Execute(w, c).world, AllMapsAfter(ms, InjectionsOf(w, c)))
  {
    hide Execute, InjectionsOf, MapChain, Resolve, AllMapFresh;
    var injected, w' := InjectionsOf(w, c), Execute(w, c).world;
    ExecuteKvs(w, c);
    StoreAfter(w, c);
    ApplyAllResolves(w.kvs, ms, injected);
    forall h | h in w'.store ensures Resolve(w'.kvs.maps, AllMapsAfter(ms, injected), h) == Some(w'.store[h].keyset) {
      if injected != [] && h != injected[0].group {
        OtherAnswers(Resolve(w.kvs.maps, ms, h), injected, injected[0].group, h);
      }
    }
  }

  ghost predicate ResolvesThroughout(w: World, cs: seq<Command>)
    decreases cs
  {
    Resolves(w) && (cs != [] ==> ResolvesThroughout(Execute(w, cs[0]).world, cs[1..]))
  }

  ghost predicate MapServedRun(w: World, cs: seq<Command>)
    decreases cs
  {
    cs != [] ==> MapServed(w, cs[0]) && MapServedRun(Execute(w, cs[0]).world, cs[1..])
  }

  /** Over every run, purges, reuse, repeated injections and failing writes included: a head-first search of
      the map list finds every stored group's keyset, throughout, if and only if the map ids are fresh and
      each group's last complete injection is of its stored entry. The keyset list may close meanwhile. */
  lemma {:induction false} RunResolvesIff(w: World, cs: seq<Command>)
    requires Resolves(w)
    ensures ResolvesThroughout(w, cs) <==> MapServedRun(w, cs)
    decreases cs
  {
    hide Resolves, Execute, MapServed;
    if cs != [] {
      ExecuteResolvesIff(w, cs[0]);
      if MapServed(w, cs[0]) { RunResolvesIff(Execute(w, cs[0]).world, cs[1..]); }
      else { ResolvesNow(Execute(w, cs[0]).world, cs[1..]); }
    }
  }

  lemma ResolvesNow(w: World, cs: seq<Command>)
    ensures ResolvesThroughout(w, cs) ==> Resolves(w)
  {
    hide Resolves, Execute;
  }

  /* ---- The controller's own copy of the keys ---- */

  ghost predicate HasKey(kvs: Kvs, sk: StoredKey) {
    sk.keyset in kvs.keysets && kvs.keysets[sk.keyset].key == sk.key
  }

  ghost predicate ControllerHolds(w: World) {
    forall g :: g in w.store ==> HasKey(w.kvs, w.store[g])
  }

  // The keyset entry of each injection is written, with a key that fits the stored groups.
  ghost predicate KeysInjected(w: World, c: Command) {
    forall i :: i in InjectionsOf(w, c) ==> i.writes >= 1 && Agrees(w.store, i.group, StoredKey(i.keyset, i.key))
  }

  lemma {:induction false} KeyKept(kvs: Kvs, injected: seq<Injected>, sk: StoredKey)
    requires HasKey(kvs, sk) && forall i :: i in injected && i.keyset == sk.keyset ==> i.key == sk.key
    ensures HasKey(ApplyAll(kvs, injected), sk)
    decreases injected
  {
    if injected != [] {
      assert injected[0] in injected;
      KeyKept(Apply(kvs, injected[0]), injected[1..], sk);
    }
  }

  lemma {:induction false} LastKey(kvs: Kvs, injected: seq<Injected>)
    requires injected != [] && injected[|injected| - 1].writes >= 1
    ensures HasKey(ApplyAll(kvs, injected), StoredKey(injected[|injected| - 1].keyset, injected[|injected| - 1].key))
    decreases injected
  {
    if |injected| == 1 {
      assert injected[1..] == [];
    } else {
      LastKey(Apply(kvs, injected[0]), injected[1..]);
    }
  }

  lemma ExecuteControllerHolds(w: World, c: Command)
    requires ControllerHolds(w) && KeysInjected(w, c)
    ensures ControllerHolds(Execute(w, c).world)
  {
    hide Execute, InjectionsOf, HasKey;
    var injected, w' := InjectionsOf(w, c), Execute(w, c).world;
    ExecuteKvs(w, c);
    StoreAfter(w, c);
    forall h | h in w'.store ensures HasKey(w'.kvs, w'.store[h]) {
      if injected != [] && h == injected[0].group {
        LastKey(w.kvs, injected);
      } else {
        KeyKept(w.kvs, injected, w.store[h]);
      }
    }
  }

  /* ---- End to end ---- */

  ghost predicate Delivers(w: World) {
    Invariant(w) && Resolves(w) && ControllerHolds(w)
  }

  /** The keyset and key that the controller's storage gives for a group are those under which a node
      tracked for the group maps and holds it. */
  ghost predicate DecryptsGroupcast(w: World, ms: seq<nat>, g: GroupId, m: NodeId) {
    && MapChain(w.kvs, ms) && m in w.devices && Resolve(w.kvs.maps, ms, g).Some?
    && var k := Resolve(w.kvs.maps, ms, g).value;
       && k in w.kvs.keysets && MapsTo(w.devices[m], g, k)
       && Holds(w.devices[m], StoredKey(k, w.kvs.keysets[k].key))
  }

  lemma TrackedDecryptGroupcasts(w: World, g: GroupId, m: NodeId)
    requires Delivers(w) && Tracked(w.provisioned, g, m)
    ensures exists ms :: DecryptsGroupcast(w, ms, g, m)
  {
    var ms :| ResolvesBy(w, ms);
    assert Served(w, g, m);
    assert DecryptsGroupcast(w, ms, g, m);
  }

  ghost predicate Deliverable(w: World, c: Command) {
    Harmless(w, c) && MapServed(w, c) && KeysInjected(w, c)
  }

  ghost predicate DeliverableRun(w: World, cs: seq<Command>)
    decreases cs
  {
    cs != [] ==> Deliverable(w, cs[0]) && DeliverableRun(Execute(w, cs[0]).world, cs[1..])
  }

  ghost predicate DeliversThroughout(w: World, cs: seq<Command>)
    decreases cs
  {
    && (forall g, m :: Tracked(w.provisioned, g, m) ==> exists ms :: DecryptsGroupcast(w, ms, g, m))
    && (cs != [] ==> DeliversThroughout(Execute(w, cs[0]).world, cs[1..]))
  }

  /** Over every run of harmless commands whose injections write fresh map ids, their own key and the
      group's final entry: throughout, every node tracked for a group decrypts what the controller
      sends to the group. */
  lemma {:induction false} RunDelivers(w: World, cs: seq<Command>)
    requires Delivers(w) && DeliverableRun(w, cs)
    ensures DeliversThroughout(w, cs)
    decreases cs
  {
    hide Invariant, Resolves, ControllerHolds, Harmless, MapServed, KeysInjected, Execute, DecryptsGroupcast;
    forall g, m | Tracked(w.provisioned, g, m) ensures exists ms :: DecryptsGroupcast(w, ms, g, m) {
      TrackedDecryptGroupcasts(w, g, m);
    }
    if cs != [] {
      ExecuteKeepsIff(w, cs[0]);
      ExecuteResolvesIff(w, cs[0]);
      ExecuteControllerHolds(w, cs[0]);
      RunDelivers(Execute(w, cs[0]).world, cs[1..]);
    }
  }

  /** A controller that has no keys yet. */
  lemma NothingToDeliver(w: World)
    requires w.store == map[] && w.provisioned == map[] && w.kvs == Kvs(None, map[], map[])
    ensures Delivers(w) && Serving(w) && WellFormed(w.kvs)
  {
    assert MapChain(w.kvs, []) && ResolvesBy(w, []);
    assert Chains(w.kvs, [], []) && ChainsServe(w.store, w.kvs, [], []);
  }
}
