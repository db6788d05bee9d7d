/** Keyset ids and keys in the store: who shares what, over every run. */
module GroupKeys {
  import opened Wrappers
  import opened Minimum
  import opened KeyChain
  import opened Devices
  import opened GroupFrames
  import opened GroupProtocol

  predicate ValidGroup(g: GroupId) {
    1 <= g <= 0xFFFE
  }

  /** The keyset id is never the IPK nor the invalid id, and valid groups get distinct ones. */
  lemma KeysetForInjective(g: GroupId, h: GroupId)
    requires ValidGroup(g) && ValidGroup(h)
    ensures 1 <= KeysetFor(g) <= 0xFFFE
    ensures KeysetFor(g) == KeysetFor(h) ==> g == h
  {
    assert g % 0xFFFE == if g == 0xFFFE then 0 else g;
    assert h % 0xFFFE == if h == 0xFFFE then 0 else h;
  }

  function Origins(store: map<GroupId, StoredKey>): set<KeysetId> {
    set g | g in store :: KeysetFor(g)
  }

  // Groups that share a keyset id share the key.
  ghost predicate KeysAgree(store: map<GroupId, StoredKey>) {
    forall g, h :: g in store && h in store && store[g].keyset == store[h].keyset ==> store[g].key == store[h].key
  }

  // Every keyset id in use was drawn for a group that is still in the store.
  ghost predicate KeysOriginate(store: map<GroupId, StoredKey>) {
    && (forall g :: g in store ==> ValidGroup(g))
    && StoreKeysets(store) <= Origins(store)
  }

  ghost predicate Unambiguous(store: map<GroupId, StoredKey>) {
    KeysAgree(store) && KeysOriginate(store)
  }

  // The key `sk` for group g fits the keys of the other groups.
  ghost predicate Agrees(store: map<GroupId, StoredKey>, g: GroupId, sk: StoredKey) {
    forall h :: h in store && h != g && store[h].keyset == sk.keyset ==> store[h].key == sk.key
  }

  /** Giving a group a key keeps the store unambiguous if and only if the key fits the other groups'. */
  lemma AgreesIff(store: map<GroupId, StoredKey>, g: GroupId, sk: StoredKey)
    requires KeysAgree(store)
    ensures KeysAgree(store[g := sk]) <==> Agrees(store, g, sk)
  {
    var store' := store[g := sk];
    if KeysAgree(store') {
      forall h | h in store && h != g && store[h].keyset == sk.keyset ensures store[h].key == sk.key {
        assert store'[h] == store[h] && store'[g] == sk;
      }
    }
  }

  lemma FreshKeyset(store: map<GroupId, StoredKey>, g: GroupId)
    requires (forall h :: h in store ==> ValidGroup(h)) && ValidGroup(g) && g !in store
    ensures KeysetFor(g) !in Origins(store)
  {
    if KeysetFor(g) in Origins(store) {
      var h :| h in store && KeysetFor(h) == KeysetFor(g);
      KeysetForInjective(g, h);
    }
  }

  lemma NewKeyUnambiguous(store: map<GroupId, StoredKey>, g: GroupId, key: Key)
    requires Unambiguous(store) && ValidGroup(g) && g !in store
    ensures Unambiguous(store[g := StoredKey(KeysetFor(g), key)])
  {
    var store' := store[g := StoredKey(KeysetFor(g), key)];
    FreshKeyset(store, g);
    forall h | h in store ensures store[h].keyset != KeysetFor(g) { assert store[h].keyset in StoreKeysets(store); }
    forall k | k in StoreKeysets(store') ensures k in Origins(store') {
      if k in StoreKeysets(store) {
        var h :| h in store && KeysetFor(h) == k;
        assert h in store';
      } else {
        assert g in store' && k == KeysetFor(g);
      }
    }
  }

  lemma SharedKeyUnambiguous(store: map<GroupId, StoredKey>, g: GroupId, winner: GroupId)
    requires Unambiguous(store) && g in store && winner in store
    ensures Unambiguous(store[g := store[winner]])
  {
    var store' := store[g := store[winner]];
    forall k | k in StoreKeysets(store') ensures k in Origins(store') {
      var h :| h in store' && store'[h].keyset == k;
      assert k in StoreKeysets(store) by { assert store[if h == g then winner else h].keyset == k; }
      var o :| o in store && KeysetFor(o) == k;
      assert o in store';
    }
  }

  /* ---- What becomes of the key of a group_add, told beforehand ---- */

  predicate HasRoom(d: Device, keyset: KeysetId) {
    keyset in d.keysets || |d.keysets| < d.keysetCapacity
  }

  // The first KeySetWrite finds the keyset table full, and a cleanup follows.
  ghost predicate TableFull(w: World, n: NodeId, sk: StoredKey, env: Env) {
    Reach(w, n, KeysetWrite(n, 0), env) && !HasRoom(w.devices[n], sk.keyset)
  }

  // The cleanup makes a slot.
  ghost predicate SlotFreed(w: World, n: NodeId, env: Env) {
    n in w.devices && |w.devices[n].keysets - CleanedUp(w, n, env)| < w.devices[n].keysetCapacity
  }

  // The key gets onto the device, at once or after the cleanup.
  ghost predicate KeyWritten(w: World, n: NodeId, sk: StoredKey, env: Env) {
    && Reach(w, n, KeysetWrite(n, 0), env)
    && (HasRoom(w.devices[n], sk.keyset)
        || (CleanedUp(w, n, env) != {} && Reach(w, n, KeysetWrite(n, 1), env) && SlotFreed(w, n, env)))
  }

  // The table is full and stays so.
  ghost predicate StaysFull(w: World, n: NodeId, sk: StoredKey, env: Env) {
    && TableFull(w, n, sk, env)
    && (CleanedUp(w, n, env) == {} || (Reach(w, n, KeysetWrite(n, 1), env) && !SlotFreed(w, n, env)))
  }

  // There is a mapped keyset whose key can be taken over instead.
  ghost predicate Reuses(w: World, n: NodeId, sk: StoredKey, env: Env) {
    StaysFull(w, n, sk, env) && Reusable(w, n, env) != {}
  }

  // The entry of the group after provisioning.
  ghost function FinalKey(w: World, n: NodeId, sk: StoredKey, env: Env, winner: GroupId): StoredKey {
    if Reuses(w, n, sk, env) then w.store[PickWinner(w.store, Min(Reusable(w, n, env)), winner)] else sk
  }

  lemma WriteStatusIs(w: World, n: NodeId, keyset: KeysetId, key: Key, attempt: nat, env: Env)
    ensures var status, reached := AddKeyset(w, n, keyset, key, attempt, env).1,
      Reach(w, n, KeysetWrite(n, attempt), env);
      && (status == Written <==> reached && HasRoom(w.devices[n], keyset))
      && (status == Exhausted <==> reached && !HasRoom(w.devices[n], keyset))
  {
  }

  // The second write, after the cleanup.
  lemma SecondStatus(w: World, n: NodeId, sk: StoredKey, env: Env)
    requires TableFull(w, n, sk, env)
    ensures var status := AddKeyset(Cleanup(w, n, env).0, n, sk.keyset, sk.key, 1, env).1;
      && (status == Written <==> Reach(w, n, KeysetWrite(n, 1), env) && SlotFreed(w, n, env))
      && (status == Exhausted <==> Reach(w, n, KeysetWrite(n, 1), env) && !SlotFreed(w, n, env))
  {
    hide AddKeyset, Cleanup, CleanedUp, OneDevice;
    CleanupFrame(w, n, env);
    var w2 := Cleanup(w, n, env).0;
    OneKeys(w.devices, w2.devices, n);
    WriteStatusIs(w2, n, sk.keyset, sk.key, 1, env);
  }

  /** The conditions above, which look at the state before, decide what the installation answers. */
  lemma InstallStatus(w: World, n: NodeId, sk: StoredKey, env: Env)
    ensures Install(w, n, sk, env).1 == Written <==> KeyWritten(w, n, sk, env)
    ensures Install(w, n, sk, env).1 == Exhausted <==> StaysFull(w, n, sk, env)
    ensures AddKeyset(w, n, sk.keyset, sk.key, 0, env).1 == Exhausted <==> TableFull(w, n, sk, env)
  {
    hide AddKeyset, Cleanup, CleanedUp, HasRoom, OneDevice, Overwrite, SlotFreed;
    WriteStatusIs(w, n, sk.keyset, sk.key, 0, env);
    AddKeysetFrame(w, n, sk.keyset, sk.key, 0, env);
    CleanupCount(w, n, env);
    if TableFull(w, n, sk, env) { SecondStatus(w, n, sk, env); }
  }

  lemma InstallKept(w: World, n: NodeId, sk: StoredKey, env: Env)
    ensures var w1 := Install(w, n, sk, env).0; w1.store == w.store && Reusable(w1, n, env) == Reusable(w, n, env)
  {
    hide AddKeyset, Cleanup, OneDevice, CleanedUp;
    AddKeysetFrame(w, n, sk.keyset, sk.key, 0, env);
    CleanupFrame(w, n, env);
    var w1, w2 := AddKeyset(w, n, sk.keyset, sk.key, 0, env).0, Cleanup(w, n, env).0;
    AddKeysetFrame(w2, n, sk.keyset, sk.key, 1, env);
    var w3 := AddKeyset(w2, n, sk.keyset, sk.key, 1, env).0;
    OneKeys(w.devices, w1.devices, n);
    OneKeys(w.devices, w2.devices, n);
    OneKeys(w2.devices, w3.devices, n);
  }

  lemma CleanupCount(w: World, n: NodeId, env: Env)
    ensures Cleanup(w, n, env).1 > 0 <==> CleanedUp(w, n, env) != {}
  {
    hide RemovableOf, RemoveTracked;
  }

  lemma ProvisionStore(w: World, n: NodeId, g: GroupId, sk: StoredKey, env: Env, winner: GroupId)
    requires g in w.store && w.store[g] == sk
    ensures Provision(w, n, g, sk, env, winner).world.store == w.store[g := FinalKey(w, n, sk, env, winner)]
    ensures exists donor :: donor in w.store && FinalKey(w, n, sk, env, winner) == w.store[donor]
  {
    hide ReadKeyMap, Install, BindOnDevice, Reusable, Remap, KeyWritten, StaysFull;
    InstallStatus(w, n, sk, env);
    InstallKept(w, n, sk, env);
    assert w.store[g := sk] == w.store;
    var w1 := Install(w, n, sk, env).0;
    if Reuses(w, n, sk, env) {
      var donor := PickWinner(w1.store, Min(Reusable(w1, n, env)), winner);
      RemapStore(w1, n, g, w1.store[donor], env);
    }
  }

  lemma RemapStore(w: World, n: NodeId, g: GroupId, sk: StoredKey, env: Env)
    ensures Remap(w, n, g, sk, env).store == w.store[g := sk]
  {
  }

  /** Every command keeps shared keyset ids unambiguous as long as it purges nothing, whatever fails. */
  lemma ExecuteUnambiguous(w: World, c: Command)
    requires Unambiguous(w.store)
    requires c.Add? ==> ValidGroup(c.group)
    requires w.store.Keys <= Execute(w, c).world.store.Keys
    ensures Unambiguous(Execute(w, c).world.store)
  {
    hide KeysAgree, KeysOriginate, AddToGroup, Shrinks;
    if c.Add? {
      AddUnambiguous(w, c.node, c.endpoint, c.group, c.env, c.winner);
    } else {
      hide Execute;
      OtherStore(w, c);
      ShrinksAgree(w.store, Execute(w, c).world.store);
    }
  }

  lemma AddUnambiguous(w: World, n: NodeId, ep: Endpoint, g: GroupId, env: Env, winner: GroupId)
    requires Unambiguous(w.store) && ValidGroup(g)
    ensures Unambiguous(AddToGroup(w, n, ep, g, env, winner).world.store)
  {
    hide Unambiguous, AddToGroup;
    AddStore(w, n, ep, g, env, winner);
    var store, store' := WithGroupKey(w, g, env).store, AddToGroup(w, n, ep, g, env, winner).world.store;
    assert Unambiguous(store) by { if g !in w.store { NewKeyUnambiguous(w.store, g, env.freshKey); } }
    if SupportsGroups(w, n, ep, env) {
      var donor :| donor in store && EntryAfter(w, n, ep, g, env, winner) == store[donor];
      SharedKeyUnambiguous(store, g, donor);
    }
  }

  // The key group_add draws for a group not seen before.
  function Draw(g: GroupId, env: Env): StoredKey {
    StoredKey(KeysetFor(g), env.freshKey)
  }

  function KeyFor(w: World, g: GroupId, env: Env): StoredKey {
    if g in w.store then w.store[g] else Draw(g, env)
  }

  // The group's entry after group_add.
  ghost function EntryAfter(w: World, n: NodeId, ep: Endpoint, g: GroupId, env: Env, winner: GroupId): StoredKey {
    if Starts(w, n, ep, g, env) then FinalKey(WithGroupKey(w, g, env), n, KeyFor(w, g, env), env, winner)
    else KeyFor(w, g, env)
  }

  // Nothing else than SameInputs says matters for what becomes of the key.
  lemma SameOutcome(w: World, w': World, n: NodeId, sk: StoredKey, env: Env, winner: GroupId)
    requires SameInputs(w, w', n)
    ensures CleanedUp(w', n, env) == CleanedUp(w, n, env) && Reusable(w', n, env) == Reusable(w, n, env)
    ensures TableFull(w', n, sk, env) <==> TableFull(w, n, sk, env)
    ensures KeyWritten(w', n, sk, env) <==> KeyWritten(w, n, sk, env)
    ensures StaysFull(w', n, sk, env) <==> StaysFull(w, n, sk, env)
    ensures FinalKey(w', n, sk, env, winner) == FinalKey(w, n, sk, env, winner)
  {
    hide CleanupCandidates, Reusable;
    SameCleanup(w, w', n, env);
    SameReusable(w, w', n, env);
  }

  lemma SameCleanup(w: World, w': World, n: NodeId, env: Env)
    requires SameInputs(w, w', n)
    ensures CleanupCandidates(w', n, env) == CleanupCandidates(w, n, env)
    ensures CleanedUp(w', n, env) == CleanedUp(w, n, env)
  {
    assert CleanupCandidates(w', n, env) == CleanupCandidates(w, n, env);
    hide CleanupCandidates;
    assert Orphaned(w', n, env) == Orphaned(w, n, env);
    hide Orphaned;
    var gone, gone' := CleanedUp(w, n, env), CleanedUp(w', n, env);
    assert forall k :: k in gone' <==> k in gone;
  }

  lemma SameReusable(w: World, w': World, n: NodeId, env: Env)
    requires SameInputs(w, w', n)
    ensures Reusable(w', n, env) == Reusable(w, n, env)
  {
  }

  // group_add draws a key where there is none, and may take over another group's.
  lemma AddStore(w: World, n: NodeId, ep: Endpoint, g: GroupId, env: Env, winner: GroupId)
    ensures var r, store' := Prepare(w, n, ep, g, env), AddToGroup(w, n, ep, g, env, winner).world.store;
      if !SupportsGroups(w, n, ep, env) then store' == w.store
      else
        && g in r.world.store && r.world.store == WithGroupKey(w, g, env).store
        && (exists donor :: donor in r.world.store && EntryAfter(w, n, ep, g, env, winner) == r.world.store[donor])
        && store' == r.world.store[g := EntryAfter(w, n, ep, g, env, winner)]
  {
    hide Prepare, Provision, JoinGroup, FinalKey, SameInputs, Starts, InjectPrefix;
    PrepareFrame(w, n, ep, g, env);
    PrepareStarts(w, n, ep, g, env);
    var r := Prepare(w, n, ep, g, env);
    if r.outcome == Done {
      ProvisionStore(r.world, n, g, r.world.store[g], env, winner);
      SameOutcome(WithGroupKey(w, g, env), r.world, n, KeyFor(w, g, env), env, winner);
      JoinFrame(ProvisionAfter(r.world, n, g, env, winner).world, n, ep, g, env);
    }
  }

  lemma RemovalStore(w: World, c: Command)
    requires c.Remove? || c.RemoveAll?
    ensures Execute(w, c).world.store == w.store
  {
    hide Cleanup, RemoveMembers, SavedAfterForget, GroupsOfNode;
    if c.Remove? {
      var s := StripKeyMap(RemoveMembers(w, c.node, {c.group}, c.env), c.node, {c.group}, c.env);
      if s.Some? { CleanupFrame(s.value, c.node, c.env); }
    } else {
      var groups := ListedGroups(w, c.node, c.endpoint, c.env);
      CleanupFrame(w, c.node, c.env);
      var s := StripKeyMap(RemoveMembers(w, c.node, groups, c.env), c.node, groups, c.env);
      if s.Some? { CleanupFrame(s.value, c.node, c.env); }
    }
  }

  // Some groups lose their key, the others keep theirs.
  ghost predicate Shrinks(store: map<GroupId, StoredKey>, store': map<GroupId, StoredKey>) {
    forall g :: g in store' ==> g in store && store'[g] == store[g]
  }

  // Only group_add gives keys.
  lemma OtherStore(w: World, c: Command)
    requires !c.Add?
    ensures Shrinks(w.store, Execute(w, c).world.store)
  {
    hide GroupsOfNode, GroupsWithKeyset, RemoveTracked, WipeKeys, RemoveAllAcl, Forget, RefreshAll, AddKeyset,
         RemoveFromGroup, RemoveFromAllGroups;
    match c
    case Remove(_, _, _) => RemovalStore(w, c);
    case RemoveAll(_, _, _) => RemovalStore(w, c);
    case KeysetAddition(n, keyset, key, env) => AddKeysetFrame(w, n, keyset, key, 0, env);
    case KeysetBinding(_, _, _, _) =>
    case KeysetRemoval(n, keyset, env) =>
      if RemoveKeyset(w, n, keyset, env).outcome == Done {
        RemoveTrackedFrame(w, n, {keyset});
        var w1 := RemoveTracked(w, n, {keyset});
        ForgetStore(w1, n, GroupsWithKeyset(w1, keyset));
      }
    case Reset(n, env) =>
      var w1 := DropTracker(RemoveAllAcl(WipeKeys(w, n, env), n, env), n);
      ForgetStore(w1, n, GroupsOfNode(w1, n));
    case Send(g, env) => RefreshStore(w, g, env);
  }

  lemma ForgetStore(w: World, n: NodeId, hit: set<GroupId>)
    ensures Shrinks(w.store, Forget(w, n, hit, true).store)
  {
    hide SavedAfterForget;
  }

  lemma RefreshStore(w: World, g: GroupId, env: Env)
    ensures SendToGroup(w, g, env).world.store == w.store
  {
    hide Refreshed, RefreshedDevices, RefreshedTracker, RefreshedSaved, InjectPrefix;
  }

  lemma ShrinksAgree(store: map<GroupId, StoredKey>, store': map<GroupId, StoredKey>)
    requires KeysAgree(store) && Shrinks(store, store')
    ensures KeysAgree(store')
    ensures store.Keys <= store'.Keys ==> store' == store
  {
  }

  /* ---- Exactly where the key store becomes ambiguous ---- */

  /** Steps 1 to 4 of group_add make the store ambiguous exactly when they draw a key whose keyset id
      another group already has with another key. */
  lemma PrepareAgreesIff(w: World, n: NodeId, ep: Endpoint, g: GroupId, env: Env)
    requires KeysAgree(w.store)
    ensures KeysAgree(Prepare(w, n, ep, g, env).world.store)
      <==> !SupportsGroups(w, n, ep, env) || g in w.store || Agrees(w.store, g, Draw(g, env))
  {
    hide Prepare, KeysAgree, Agrees, InjectPrefix;
    PrepareFrame(w, n, ep, g, env);
    if SupportsGroups(w, n, ep, env) && g !in w.store { AgreesIff(w.store, g, Draw(g, env)); }
  }

  // A key is drawn that does not fit another group's, and provisioning does not take over another one
  // in its place.
  ghost predicate Collides(w: World, c: Command) {
    && c.Add? && SupportsGroups(w, c.node, c.endpoint, c.env) && c.group !in w.store
    && var drawn := Draw(c.group, c.env);
       !Agrees(w.store, c.group, drawn) && EntryAfter(w, c.node, c.endpoint, c.group, c.env, c.winner) == drawn
  }

  /** A command makes an unambiguous store ambiguous if and only if its draw collides and stays. */
  lemma ExecuteAgreesIff(w: World, c: Command)
    requires KeysAgree(w.store)
    ensures KeysAgree(Execute(w, c).world.store) <==> !Collides(w, c)
  {
    hide KeysAgree, Shrinks, AddToGroup;
    if c.Add? {
      AddAgreesIff(w, c.node, c.endpoint, c.group, c.env, c.winner);
    } else {
      hide Execute;
      OtherStore(w, c);
      ShrinksAgree(w.store, Execute(w, c).world.store);
    }
  }

  lemma AddAgreesIff(w: World, n: NodeId, ep: Endpoint, g: GroupId, env: Env, winner: GroupId)
    requires KeysAgree(w.store)
    ensures KeysAgree(AddToGroup(w, n, ep, g, env, winner).world.store) <==> !Collides(w, Add(n, ep, g, env, winner))
  {
    hide AddToGroup, Prepare, Provision, SupportsGroups, WithGroupKey, EntryAfter;
    AddStore(w, n, ep, g, env, winner);
    DrawStore(w, g, env);
    if SupportsGroups(w, n, ep, env) {
      var store, after := Prepare(w, n, ep, g, env).world.store, EntryAfter(w, n, ep, g, env, winner);
      var donor :| donor in store && after == store[donor];
      assert store[g := after] == w.store[g := after];
      AgreesIff(w.store, g, after);
    }
  }

  lemma DrawStore(w: World, g: GroupId, env: Env)
    ensures WithGroupKey(w, g, env).store == if g in w.store then w.store else w.store[g := Draw(g, env)]
  {
    hide InjectPrefix;
  }

  ghost predicate AgreesThroughout(w: World, cs: seq<Command>)
    decreases cs
  {
    KeysAgree(w.store) && (cs != [] ==> AgreesThroughout(Execute(w, cs[0]).world, cs[1..]))
  }

  ghost predicate NoCollision(w: World, cs: seq<Command>)
    decreases cs
  {
    cs != [] ==> !Collides(w, cs[0]) && NoCollision(Execute(w, cs[0]).world, cs[1..])
  }

  /** Over every run, purges and reuse included, dict(store.values()) is unambiguous throughout if and
      only if no draw collides. */
  lemma {:induction false} RunAgreesIff(w: World, cs: seq<Command>)
    requires KeysAgree(w.store)
    ensures AgreesThroughout(w, cs) <==> NoCollision(w, cs)
    decreases cs
  {
    hide KeysAgree, Execute, Collides;
    if cs != [] {
      ExecuteAgreesIff(w, cs[0]);
      if !Collides(w, cs[0]) { RunAgreesIff(Execute(w, cs[0]).world, cs[1..]); }
      else { AgreesNow(Execute(w, cs[0]).world, cs[1..]); }
    }
  }

  lemma AgreesNow(w: World, cs: seq<Command>)
    ensures AgreesThroughout(w, cs) ==> KeysAgree(w.store)
  {
    hide KeysAgree, Execute;
  }

  /** Over every run of valid groups without a purge, reuse included, whatever fails: no keyset id in use
      has two keys, and each was drawn for a group that is still in the store. */
  lemma {:induction false} RunUnambiguous(w: World, cs: seq<Command>)
    requires Unambiguous(w.store) && PurgeFree(w, cs)
    requires forall i :: 0 <= i < |cs| && cs[i].Add? ==> ValidGroup(cs[i].group)
    ensures Unambiguous(Run(w, cs).store)
    decreases cs
  {
    hide Unambiguous, Execute;
    if cs != [] {
      ExecuteUnambiguous(w, cs[0]);
      RunUnambiguous(Execute(w, cs[0]).world, cs[1..]);
    }
  }

  ghost predicate PurgeFree(w: World, cs: seq<Command>)
    decreases cs
  {
    cs == [] || (w.store.Keys <= Execute(w, cs[0]).world.store.Keys && PurgeFree(Execute(w, cs[0]).world, cs[1..]))
  }

  /** Where the key store is ambiguous: a group whose keyset id another group took over is purged by
      group_reset_node of its only node, and added again, to whichever node: it gets a new key under
      the same keyset id. */
  lemma PurgeThenAddIsAmbiguous(w: World, n: NodeId, g: GroupId, h: GroupId, reset: Env, m: NodeId, ep: Endpoint,
                                env: Env)
    requires g in w.store && h in w.store && g != h
    requires w.store[g].keyset == KeysetFor(h) && ProvisionedOf(w, h) == {n}
    requires ProvisionedOf(w, g) != {n}
    requires SupportsGroups(ResetNode(w, n, reset).world, m, ep, env) && env.freshKey != w.store[g].key
    ensures !KeysAgree(Prepare(ResetNode(w, n, reset).world, m, ep, h, env).world.store)
  {
    hide RemovableOf, SavedAfterForget, ResetTargets, MakeRoom;
    var w1 := ResetNode(w, n, reset).world;
    ResetPurges(w, n, g, h, reset);
    var store := Prepare(w1, m, ep, h, env).world.store;
    assert store == w1.store[h := StoredKey(KeysetFor(h), env.freshKey)];
    assert g in store && h in store && store[g] == w.store[g];
    assert store[h].keyset == store[g].keyset && store[h].key != store[g].key;
  }

  lemma ResetPurges(w: World, n: NodeId, g: GroupId, h: GroupId, env: Env)
    requires g in w.store && h in w.store && g != h
    requires ProvisionedOf(w, h) == {n} && ProvisionedOf(w, g) != {n}
    ensures var store := ResetNode(w, n, env).world.store; h !in store && g in store && store[g] == w.store[g]
  {
    hide RemovableOf, SavedAfterForget, ResetTargets;
    var w3 := DropTracker(RemoveAllAcl(WipeKeys(w, n, env), n, env), n);
    assert w3.store == w.store && w3.provisioned == w.provisioned;
    assert h in GroupsOfNode(w3, n) && LeftProvisioned(w3, n, h) == {};
    assert g in GroupsOfNode(w3, n) ==> LeftProvisioned(w3, n, g) != {};
  }
}
