/** Devices against the controller's records: every node tracked for a group can decrypt it. The devices
    are arbitrary: they may hold keysets and map entries of anybody. */
module GroupInvariant {
  import opened Wrappers
  import opened Minimum
  import opened KeyChain
  import opened Devices
  import opened GroupProtocol
  import opened GroupFrames
  import opened GroupKeys
  import opened GroupTracker

  /* ---- The invariant ---- */

  ghost predicate Holds(d: Device, sk: StoredKey) {
    sk.keyset in d.keysets && d.keysets[sk.keyset] == sk.key
  }

  // The device maps the group to the stored keyset, once, and holds the stored key under it.
  ghost predicate CanDecrypt(d: Device, g: GroupId, sk: StoredKey) {
    MapsTo(d, g, sk.keyset) && Holds(d, sk)
  }

  ghost predicate Tracked(provisioned: map<GroupId, set<NodeId>>, g: GroupId, m: NodeId) {
    g in provisioned && m in provisioned[g]
  }

  ghost predicate Served(w: World, g: GroupId, m: NodeId) {
    g in w.store && m in w.devices && CanDecrypt(w.devices[m], g, w.store[g])
  }

  ghost predicate AllDecrypt(w: World) {
    forall g, m :: Tracked(w.provisioned, g, m) ==> Served(w, g, m)
  }

  /** Every node tracked for a group can decrypt it, and groups that share a keyset id share the key. */
  ghost predicate Invariant(w: World) {
    KeysAgree(w.store) && AllDecrypt(w)
  }

  // A controller that tracks nobody, on a fabric of any devices.
  lemma NobodyTracked(w: World)
    requires KeysAgree(w.store) && forall g :: g in w.provisioned ==> w.provisioned[g] == {}
    ensures Invariant(w)
  {
  }

  /* ---- One node at a time ---- */

  // Every group tracked for node n is served there.
  ghost predicate ServedAt(w: World, n: NodeId) {
    forall g :: g in GroupsOfNode(w, n) ==> Served(w, g, n)
  }

  // Nodes other than n are tracked for no more groups than before, and those keep their keys.
  ghost predicate OthersTracked(w: World, w': World, n: NodeId) {
    forall g, m :: m != n && Tracked(w'.provisioned, g, m) ==>
      Tracked(w.provisioned, g, m) && g in w'.store && (g in w.store ==> w'.store[g] == w.store[g])
  }

  // A command on one device is decided on that device.
  lemma OneNodeIff(w: World, w': World, n: NodeId)
    requires AllDecrypt(w) && OneDevice(w.devices, w'.devices, n) && OthersTracked(w, w', n)
    ensures AllDecrypt(w') <==> ServedAt(w', n)
  {
    if AllDecrypt(w') {
      forall g | g in GroupsOfNode(w', n) ensures Served(w', g, n) { assert Tracked(w'.provisioned, g, n); }
    }
    if ServedAt(w', n) {
      forall g, m | Tracked(w'.provisioned, g, m) ensures Served(w', g, m) {
        if m == n { assert g in GroupsOfNode(w', n); } else { assert Served(w, g, m); }
      }
    }
  }

  lemma SameKeysKeep(w: World, w': World)
    requires AllDecrypt(w) && SameKeys(w.devices, w'.devices) && w'.provisioned == w.provisioned
    requires forall g :: g in w.store ==> g in w'.store && w'.store[g] == w.store[g]
    ensures AllDecrypt(w')
  {
    forall g, m | Tracked(w'.provisioned, g, m) ensures Served(w', g, m) { assert Served(w, g, m); }
  }

  lemma MapsToReferences(d: Device, g: GroupId, keyset: KeysetId)
    requires MapsTo(d, g, keyset)
    ensures KeyMapEntry(g, keyset) in d.keyMap && keyset in Referenced(d.keyMap)
  {
    assert KeyMapEntry(g, keyset) in EntriesOf(d.keyMap, g);
  }

  // Cleanup looks at the tracker and the store only.
  lemma SameCandidates(w: World, w': World, n: NodeId, env: Env)
    requires w'.store == w.store && w'.tracker == w.tracker && w'.devices.Keys == w.devices.Keys
    ensures CleanupCandidates(w', n, env) == CleanupCandidates(w, n, env)
  {
  }

  // A keyset that node n's map names survives a cleanup there.
  ghost predicate Survives(w: World, n: NodeId, k: KeysetId, env: Env) {
    k == IPK || Spares(w, n, k, env)
  }

  lemma CleanedUpIff(w: World, n: NodeId, k: KeysetId, env: Env)
    requires n in w.devices && k in w.devices[n].keysets && k in Referenced(w.devices[n].keyMap)
    ensures k !in CleanedUp(w, n, env) <==> Survives(w, n, k, env)
  {
    hide CleanupCandidates, Cleanup;
    if k != IPK {
      CleanupSparesIff(w, n, env, k);
      CleanupFrame(w, n, env);
      RemovedKeysets(w.devices[n], CleanedUp(w, n, env));
    }
  }

  /* ---- group_remove, group_remove_all ---- */

  // The map is read before it is written back, or the write is refused; and cleanup spares the keyset.
  ghost predicate KeptByRemoval(w: World, n: NodeId, sk: StoredKey, env: Env) {
    (KeyMapRead(0) !in env.down || KeyMapWrite in env.refused) && Survives(w, n, sk.keyset, env)
  }

  ghost predicate RemoveHarmless(w: World, n: NodeId, g: GroupId, env: Env) {
    Reach(w, n, KeyMapWrite, env) ==>
      forall h :: h in GroupsOfNode(w, n) && h != g && h in w.store ==> KeptByRemoval(w, n, w.store[h], env)
  }

  // Memberships and map entries of the groups gone, before cleanup.
  function Stripped(w: World, n: NodeId, groups: set<GroupId>, env: Env): World
    requires Reach(w, n, KeyMapWrite, env)
  {
    MembersKeys(w, n, groups, env);
    StripKeyMap(RemoveMembers(w, n, groups, env), n, groups, env).value
  }

  lemma StrippedEffect(w: World, n: NodeId, groups: set<GroupId>, env: Env)
    requires Reach(w, n, KeyMapWrite, env)
    ensures var s := Stripped(w, n, groups, env);
      && OnlyDevices(w, s) && OneDevice(w.devices, s.devices, n) && n in s.devices
      && s.devices[n].keysets == w.devices[n].keysets
      && s.devices[n].keyMap ==
           (if KeyMapWrite in env.refused then w.devices[n].keyMap
            else Without(if KeyMapRead(0) in env.down then [] else w.devices[n].keyMap, groups))
  {
    hide RemoveMembers, StripKeyMap, OneDevice, Without;
    MembersFrame(w, n, groups, env);
    MembersKeys(w, n, groups, env);
    var w1 := RemoveMembers(w, n, groups, env);
    StripFrame(w1, n, groups, env);
    StripReaches(w1, n, groups, env);
    SameIsOne(w.devices, w1.devices, n);
    OneThrough(w.devices, w1.devices, Stripped(w, n, groups, env).devices, n);
  }

  lemma StripReaches(w: World, n: NodeId, groups: set<GroupId>, env: Env)
    ensures StripKeyMap(w, n, groups, env).Some? <==> Reach(w, n, KeyMapWrite, env)
  {
  }

  function Untracked(provisioned: map<GroupId, set<NodeId>>, n: NodeId, g: GroupId): map<GroupId, set<NodeId>> {
    map h | h in provisioned :: if h == g then provisioned[h] - {n} else provisioned[h]
  }

  // From the stripped world on: cleanup, access control list, tracking.
  lemma RemovalEffect(w: World, n: NodeId, g: GroupId, env: Env)
    requires Reach(w, n, KeyMapWrite, env)
    ensures var s, w' := Stripped(w, n, {g}, env), RemoveFromGroup(w, n, g, env).world;
      && w'.store == s.store && w'.provisioned == Untracked(s.provisioned, n, g) && OneDevice(s.devices, w'.devices, n)
      && w'.devices.Keys == s.devices.Keys
      && (n in s.devices ==> w'.devices[n].keyMap == s.devices[n].keyMap)
      && (n in s.devices ==> w'.devices[n].keysets == s.devices[n].keysets - CleanedUp(s, n, env))
  {
    hide RemoveMembers, StripKeyMap, Cleanup, RemoveAcl, Forget, CleanedUp, OneDevice, SameKeys;
    MembersKeys(w, n, {g}, env);
    var s := Stripped(w, n, {g}, env);
    StripReaches(RemoveMembers(w, n, {g}, env), n, {g}, env);
    CleanupFrame(s, n, env);
    var w2 := Cleanup(s, n, env).0;
    AclFrame(w2, n, g, env);
    var w3 := RemoveAcl(w2, n, g, env);
    SameIsOne(w2.devices, w3.devices, n);
    OneThrough(s.devices, w2.devices, w3.devices, n);
    ForgetOne(w3, n, g);
    SameAt(w2.devices, w3.devices, n);
    OneKeys(s.devices, w3.devices, n);
  }

  lemma ForgetOne(w: World, n: NodeId, g: GroupId)
    ensures var w' := Forget(w, n, GroupsOfNode(w, n) * {g}, false);
      w'.store == w.store && w'.provisioned == Untracked(w.provisioned, n, g) && w'.devices == w.devices
  {
    hide SavedAfterForget;
    assert forall h :: h in w.provisioned && n !in w.provisioned[h] ==> w.provisioned[h] - {n} == w.provisioned[h];
    var purged := Purged(w, n, GroupsOfNode(w, n) * {g}, false);
    assert w.store - purged == w.store;
  }

  lemma SameAt(ds: Fleet, ds': Fleet, m: NodeId)
    requires SameKeys(ds, ds')
    ensures ds'.Keys == ds.Keys
    ensures m in ds ==> ds'[m].keysets == ds[m].keysets && ds'[m].keyMap == ds[m].keyMap
  {
  }

  lemma StrippedDecryptIff(d: Device, stripped: Device, after: Device, gone: set<KeysetId>, g: GroupId, h: GroupId,
                           sk: StoredKey, refused: bool, readFailed: bool)
    requires CanDecrypt(d, h, sk) && h != g && stripped.keysets == d.keysets
    requires stripped.keyMap == if refused then d.keyMap else Without(if readFailed then [] else d.keyMap, {g})
    requires after.keyMap == stripped.keyMap && after.keysets == stripped.keysets - gone
    ensures MapsTo(stripped, h, sk.keyset) <==> refused || !readFailed
    ensures CanDecrypt(after, h, sk) <==> (refused || !readFailed) && sk.keyset !in gone
  {
    EntriesOfWithout(d.keyMap, {g}, h);
    EntriesOfWithout([], {g}, h);
  }

  lemma RemoveKeepsIff(w: World, n: NodeId, g: GroupId, env: Env)
    requires Invariant(w)
    ensures Invariant(RemoveFromGroup(w, n, g, env).world) <==> RemoveHarmless(w, n, g, env)
  {
    hide KeysAgree, AllDecrypt, Served, KeptByRemoval, RemoveFromGroup, OneDevice, SameKeys, Stripped;
    var w' := RemoveFromGroup(w, n, g, env).world;
    if !Reach(w, n, KeyMapWrite, env) {
      RemovalStops(w, n, g, env);
      SameKeysKeep(w, w');
    } else {
      StrippedEffect(w, n, {g}, env);
      RemovalEffect(w, n, g, env);
      OneThrough(w.devices, Stripped(w, n, {g}, env).devices, w'.devices, n);
      RemovalOthers(w, w', n, g);
      OneNodeIff(w, w', n);
      assert GroupsOfNode(w', n) == GroupsOfNode(w, n) - {g};
      forall h | h in GroupsOfNode(w, n) && h != g
        ensures h in w.store && (Served(w', h, n) <==> KeptByRemoval(w, n, w.store[h], env))
      {
        RemovalKeepsOther(w, n, g, env, h);
      }
    }
  }

  lemma RemovalKeepsOther(w: World, n: NodeId, g: GroupId, env: Env, h: GroupId)
    requires AllDecrypt(w) && Reach(w, n, KeyMapWrite, env) && h in GroupsOfNode(w, n) && h != g
    ensures h in w.store && (Served(RemoveFromGroup(w, n, g, env).world, h, n)
      <==> KeptByRemoval(w, n, w.store[h], env))
  {
    hide AllDecrypt, CanDecrypt, CleanedUp, Survives, RemoveFromGroup, OneDevice, Stripped;
    var s, w' := Stripped(w, n, {g}, env), RemoveFromGroup(w, n, g, env).world;
    StrippedEffect(w, n, {g}, env);
    RemovalEffect(w, n, g, env);
    TrackedServed(w, h, n);
    var sk := w.store[h];
    DecryptParts(w.devices[n], h, sk);
    StrippedDecryptIff(w.devices[n], s.devices[n], w'.devices[n], CleanedUp(s, n, env), g, h, sk,
                       KeyMapWrite in env.refused, KeyMapRead(0) in env.down);
    OneKeys(w.devices, s.devices, n);
    SurvivesSame(w, s, n, sk.keyset, env);
    if MapsTo(s.devices[n], h, sk.keyset) {
      MapsToReferences(s.devices[n], h, sk.keyset);
      CleanedUpIff(s, n, sk.keyset, env);
    }
  }

  lemma DecryptParts(d: Device, g: GroupId, sk: StoredKey)
    requires CanDecrypt(d, g, sk)
    ensures MapsTo(d, g, sk.keyset) && Holds(d, sk)
  {
  }

  lemma SurvivesSame(w: World, w': World, n: NodeId, k: KeysetId, env: Env)
    requires w'.store == w.store && w'.tracker == w.tracker && w'.devices.Keys == w.devices.Keys
    ensures Survives(w', n, k, env) <==> Survives(w, n, k, env)
  {
    hide CleanupCandidates;
    SameCandidates(w, w', n, env);
  }

  lemma RemovalOthers(w: World, w': World, n: NodeId, g: GroupId)
    requires AllDecrypt(w) && w'.store == w.store
    requires w'.provisioned == Untracked(w.provisioned, n, g)
    ensures OthersTracked(w, w', n)
  {
    forall h, m | m != n && Tracked(w'.provisioned, h, m) ensures Tracked(w.provisioned, h, m) && h in w'.store {
      assert Served(w, h, m);
    }
  }

  lemma RemovalStops(w: World, n: NodeId, g: GroupId, env: Env)
    requires !Reach(w, n, KeyMapWrite, env)
    ensures var w' := RemoveFromGroup(w, n, g, env).world;
      SameKeys(w.devices, w'.devices) && w'.provisioned == w.provisioned && w'.store == w.store
  {
    hide RemoveMembers, SameKeys;
    MembersFrame(w, n, {g}, env);
    MembersKeys(w, n, {g}, env);
  }

  lemma MembersKeys(w: World, n: NodeId, groups: set<GroupId>, env: Env)
    ensures RemoveMembers(w, n, groups, env).devices.Keys == w.devices.Keys
  {
    hide RemoveMembers;
    MembersFrame(w, n, groups, env);
  }

  // Node n is forgotten for the groups `hit`, on devices of which only its own may have changed.
  lemma ForgetKeeps(w: World, w1: World, n: NodeId, hit: set<GroupId>, purge: bool)
    requires AllDecrypt(w) && OneDevice(w.devices, w1.devices, n) && w1.store == w.store
      && w1.provisioned == w.provisioned
    requires forall g :: g in GroupsOfNode(w, n) && g !in hit ==> Served(w1, g, n)
    ensures AllDecrypt(Forget(w1, n, hit, purge))
  {
    hide CanDecrypt, SavedAfterForget;
    var w' := Forget(w1, n, hit, purge);
    forall g, m | m != n && Tracked(w'.provisioned, g, m)
      ensures Tracked(w.provisioned, g, m) && g in w'.store && w'.store[g] == w.store[g]
    {
      assert Tracked(w.provisioned, g, m) && Served(w, g, m);
      assert m in LeftProvisioned(w1, n, g);
    }
    OneNodeIff(w, w', n);
    forall g | g in GroupsOfNode(w', n) ensures Served(w', g, n) {
      assert g !in hit && g in GroupsOfNode(w, n);
      assert Served(w1, g, n);
    }
  }

  // After group_remove_all the node is tracked for nothing, or nothing has happened to its keys.
  lemma RemoveAllKeeps(w: World, n: NodeId, ep: Endpoint, env: Env)
    requires Invariant(w)
    ensures Invariant(RemoveFromAllGroups(w, n, ep, env).world)
  {
    hide KeysAgree, AllDecrypt, RemoveMembers, StripKeyMap, FinishRemoveAll, SameKeys, SameKeysets, OneDevice,
         ListedGroups;
    var groups := ListedGroups(w, n, ep, env);
    SameItself(w.devices);
    SameIsOne(w.devices, w.devices, n);
    if groups == {} {
      FinishKeeps(w, w, n, env);
    } else {
      var w1 := RemoveMembers(w, n, groups, env);
      MembersFrame(w, n, groups, env);
      SameIsOne(w.devices, w1.devices, n);
      StripFrame(w1, n, groups, env);
      var s := StripKeyMap(w1, n, groups, env);
      if s.Some? {
        OneThrough(w.devices, w1.devices, s.value.devices, n);
        FinishKeeps(w, s.value, n, env);
      } else {
        SameKeysKeep(w, w1);
      }
    }
  }

  lemma FinishKeeps(w: World, w1: World, n: NodeId, env: Env)
    requires Invariant(w) && OneDevice(w.devices, w1.devices, n) && w1.store == w.store
      && w1.provisioned == w.provisioned
    ensures Invariant(FinishRemoveAll(w1, n, env).world)
  {
    hide KeysAgree, AllDecrypt, Cleanup, RemoveAllAcl, Forget, OneDevice, SameKeys;
    CleanupFrame(w1, n, env);
    var w2 := Cleanup(w1, n, env).0;
    AclFrame(w2, n, 0, env);
    var w3 := RemoveAllAcl(w2, n, env);
    SameIsOne(w2.devices, w3.devices, n);
    OneThrough(w.devices, w1.devices, w2.devices, n);
    OneThrough(w.devices, w2.devices, w3.devices, n);
    ForgetKeeps(w, w3, n, GroupsOfNode(w3, n), false);
    KeepsStore(w3, n, GroupsOfNode(w3, n));
  }

  lemma KeepsStore(w: World, n: NodeId, hit: set<GroupId>)
    ensures Forget(w, n, hit, false).store == w.store
  {
    hide SavedAfterForget;
  }

  /* ---- Single keysets, reset ---- */

  // The key written is the one the groups tracked for the node have under that id.
  ghost predicate WriteHarmless(w: World, n: NodeId, keyset: KeysetId, key: Key, env: Env) {
    Reach(w, n, KeysetWrite(n, 0), env) && HasRoom(w.devices[n], keyset) ==>
      forall g :: g in GroupsOfNode(w, n) && g in w.store && w.store[g].keyset == keyset ==> w.store[g].key == key
  }

  lemma AddKeysetKeepsIff(w: World, n: NodeId, keyset: KeysetId, key: Key, env: Env)
    requires Invariant(w)
    ensures Invariant(AddKeysetTo(w, n, keyset, key, env).world) <==> WriteHarmless(w, n, keyset, key, env)
  {
    hide KeysAgree, AddKeyset, OneDevice;
    AddKeysetFrame(w, n, keyset, key, 0, env);
    WriteStatusIs(w, n, keyset, key, 0, env);
    var (w', status) := AddKeyset(w, n, keyset, key, 0, env);
    if status == Written {
      assert OthersTracked(w, w', n) by {
        forall g, m | m != n && Tracked(w'.provisioned, g, m) ensures g in w'.store { assert Served(w, g, m); }
      }
      OneNodeIff(w, w', n);
      OneKeys(w.devices, w'.devices, n);
      forall g | g in GroupsOfNode(w, n)
        ensures g in w.store && (Served(w', g, n) <==> (w.store[g].keyset == keyset ==> w.store[g].key == key))
      {
        assert Tracked(w.provisioned, g, n);
      }
    }
  }

  // The keyset bound is the one the group has, if the node is tracked for it.
  ghost predicate BindHarmless(w: World, n: NodeId, g: GroupId, keyset: KeysetId, env: Env) {
    Rebinds(w, n, env) && g in GroupsOfNode(w, n) && g in w.store ==> w.store[g].keyset == keyset
  }

  lemma BindKeysetKeepsIff(w: World, n: NodeId, g: GroupId, keyset: KeysetId, env: Env)
    requires Invariant(w)
    ensures Invariant(BindKeyset(w, n, g, keyset, env).world) <==> BindHarmless(w, n, g, keyset, env)
  {
    hide KeysAgree, BindKeyset, OneDevice, AllDecrypt, Bind, SameKeysets;
    BindKeysetFrame(w, n, g, keyset, env);
    var w' := BindKeyset(w, n, g, keyset, env).world;
    BoundOthers(w, w', n);
    OneNodeIff(w, w', n);
    OneKeys(w.devices, w'.devices, n);
    forall h | h in GroupsOfNode(w, n)
      ensures h in w.store && (Served(w', h, n) <==> (h == g && Rebinds(w, n, env) ==> w.store[h].keyset == keyset))
    {
      TrackedServed(w, h, n);
      BindEntries(w.devices[n].keyMap, g, keyset, h);
      SameKeysetsAt(w.devices, w'.devices, n);
    }
  }

  lemma BoundOthers(w: World, w': World, n: NodeId)
    requires AllDecrypt(w) && w'.store == w.store && w'.provisioned == w.provisioned
    ensures OthersTracked(w, w', n)
  {
    forall g, m | m != n && Tracked(w'.provisioned, g, m) ensures g in w'.store { assert Served(w, g, m); }
  }

  lemma SameKeysetsAt(ds: Fleet, ds': Fleet, m: NodeId)
    requires SameKeysets(ds, ds')
    ensures ds'.Keys == ds.Keys && (m in ds ==> ds'[m].keysets == ds[m].keysets)
  {
  }

  lemma RemoveKeysetKeeps(w: World, n: NodeId, keyset: KeysetId, env: Env)
    requires Invariant(w)
    ensures Invariant(RemoveKeyset(w, n, keyset, env).world)
  {
    hide KeysAgree, Forget, RemoveTracked, OneDevice;
    if RemoveKeyset(w, n, keyset, env).outcome == Done {
      RemoveTrackedFrame(w, n, {keyset});
      var w1 := RemoveTracked(w, n, {keyset});
      OneKeys(w.devices, w1.devices, n);
      forall g | g in GroupsOfNode(w, n) && g !in GroupsWithKeyset(w1, keyset) ensures Served(w1, g, n) {
        assert Tracked(w.provisioned, g, n);
      }
      hide AllDecrypt;
      ForgetKeeps(w, w1, n, GroupsWithKeyset(w1, keyset), true);
      ForgetStore(w1, n, GroupsWithKeyset(w1, keyset));
      ShrinksAgree(w.store, RemoveKeyset(w, n, keyset, env).world.store);
    }
  }

  lemma ResetKeeps(w: World, n: NodeId, env: Env)
    requires Invariant(w)
    ensures Invariant(ResetNode(w, n, env).world)
  {
    hide KeysAgree, AllDecrypt, WipeKeys, RemoveAllAcl, Forget, OneDevice, SameKeys;
    WipeFrame(w, n, env);
    var w1 := WipeKeys(w, n, env);
    AclFrame(w1, n, 0, env);
    var w2 := DropTracker(RemoveAllAcl(w1, n, env), n);
    SameIsOne(w1.devices, w2.devices, n);
    OneThrough(w.devices, w1.devices, w2.devices, n);
    ForgetKeeps(w, w2, n, GroupsOfNode(w2, n), true);
    ForgetStore(w2, n, GroupsOfNode(w2, n));
    ShrinksAgree(w.store, ResetNode(w, n, env).world.store);
  }

  lemma WipeFrame(w: World, n: NodeId, env: Env)
    ensures OneDevice(w.devices, WipeKeys(w, n, env).devices, n)
  {
    hide RemovableOf, ResetTargets, BruteForceRange;
  }

  /* ---- send_group_command ---- */

  lemma SendKeeps(w: World, g: GroupId, env: Env)
    requires Invariant(w)
    ensures Invariant(SendToGroup(w, g, env).world)
  {
    hide CanDecrypt, RefreshedTracker, RefreshedSaved, InjectPrefix, Refreshed;
    RefreshStore(w, g, env);
    if g in w.store {
      var hit := Refreshed(w, ProvisionedOf(w, g), w.store[g].keyset, w.store[g].key, env);
      var w' := SendToGroup(w, g, env).world;
      forall h, m | Tracked(w'.provisioned, h, m) ensures Served(w', h, m) {
        assert Tracked(w.provisioned, h, m) && Served(w, h, m);
        if m in hit { OverwriteKeeps(w.store, w.devices[m], g, h); }
      }
    }
  }

  // Writing a stored key disturbs no group that could be decrypted.
  lemma OverwriteKeeps(store: map<GroupId, StoredKey>, d: Device, g: GroupId, h: GroupId)
    requires KeysAgree(store) && g in store && h in store && CanDecrypt(d, h, store[h])
    ensures CanDecrypt(Overwrite(d, store[g].keyset, store[g].key), h, store[h])
  {
  }

  /* ---- group_add: what provisioning does to the device ---- */

  // Neither a slot for the key nor a keyset to take over.
  ghost predicate Stuck(w: World, n: NodeId, sk: StoredKey, env: Env) {
    StaysFull(w, n, sk, env) && !Reuses(w, n, sk, env)
  }

  // The new binding reaches the device.
  ghost predicate Binds(w: World, n: NodeId, sk: StoredKey, env: Env) {
    (KeyWritten(w, n, sk, env) || Reuses(w, n, sk, env)) && Effective(w, n, KeyMapWrite, env)
  }

  ghost function KeysetsAfter(w: World, n: NodeId, sk: StoredKey, env: Env): map<KeysetId, Key>
    requires n in w.devices
  {
    var left := if TableFull(w, n, sk, env) then w.devices[n].keysets - CleanedUp(w, n, env) else w.devices[n].keysets;
    if KeyWritten(w, n, sk, env) then left[sk.keyset := sk.key] else left
  }

  lemma InstallEffect(w: World, n: NodeId, sk: StoredKey, env: Env)
    requires n in w.devices
    ensures var w' := Install(w, n, sk, env).0;
      && StoreKept(w, w') && OneDevice(w.devices, w'.devices, n) && n in w'.devices
      && w'.devices[n].keyMap == w.devices[n].keyMap && w'.devices[n].keysets == KeysetsAfter(w, n, sk, env)
      && (TableFull(w, n, sk, env) ==> sk.keyset !in w.devices[n].keysets)
  {
    hide AddKeyset, Cleanup, OneDevice, CleanedUp, KeyWritten, StaysFull;
    InstallStatus(w, n, sk, env);
    AddKeysetFrame(w, n, sk.keyset, sk.key, 0, env);
    var w1 := AddKeyset(w, n, sk.keyset, sk.key, 0, env).0;
    OneKeys(w.devices, w1.devices, n);
    CleanupFrame(w, n, env);
    var w2 := Cleanup(w, n, env).0;
    OneKeys(w.devices, w2.devices, n);
    RemovedKeysets(w.devices[n], CleanedUp(w, n, env));
    AddKeysetFrame(w2, n, sk.keyset, sk.key, 1, env);
    var w3 := AddKeyset(w2, n, sk.keyset, sk.key, 1, env).0;
    OneKeys(w2.devices, w3.devices, n);
    OneThrough(w.devices, w2.devices, w3.devices, n);
  }

  lemma ProvisionEffect(w: World, n: NodeId, g: GroupId, sk: StoredKey, env: Env, winner: GroupId)
    requires n in w.devices && g in w.store && w.store[g] == sk
    ensures var p := Provision(w, n, g, sk, env, winner);
      && p.world.store == w.store[g := FinalKey(w, n, sk, env, winner)]
      && p.world.provisioned == w.provisioned && OneDevice(w.devices, p.world.devices, n) && n in p.world.devices
      && p.world.devices[n].keysets == KeysetsAfter(w, n, sk, env)
      && p.world.devices[n].keyMap ==
           (if Binds(w, n, sk, env)
            then Bind(if KeyMapRead(3) in env.down then [] else w.devices[n].keyMap, g,
                      FinalKey(w, n, sk, env, winner).keyset)
            else w.devices[n].keyMap)
      && (p.outcome == Invalid <==> Stuck(w, n, sk, env))
      && (p.reused.Some? <==> Reuses(w, n, sk, env))
  {
    hide Install, Reusable, Remap, BindOnDevice, StaysFull, KeyWritten, KeysetsAfter, OneDevice, Bind;
    InstallEffect(w, n, sk, env);
    InstallStatus(w, n, sk, env);
    InstallKept(w, n, sk, env);
    var (w1, status) := Install(w, n, sk, env);
    OneKeys(w.devices, w1.devices, n);
    assert w.store == w.store[g := sk];
    if status == Written {
      BindEffect(w1, n, g, sk.keyset, env);
      BoundThrough(w, w1, n, g, sk.keyset, env);
    } else if Reuses(w, n, sk, env) {
      var keyset := Min(Reusable(w1, n, env));
      var donor := PickWinner(w1.store, keyset, winner);
      ReuseEffect(w1, n, g, donor, env);
      var w2 := Remap(w1, n, g, w1.store[donor], env);
      BindEffect(w2, n, g, keyset, env);
      BoundThrough(w, w2, n, g, keyset, env);
    }
  }

  // The key is the group's own, or that of a group whose keyset the node's map names.
  lemma FinalKeyOrigin(w: World, n: NodeId, g: GroupId, sk: StoredKey, env: Env, winner: GroupId)
    requires n in w.devices && g in w.store && w.store[g] == sk
    ensures var final := FinalKey(w, n, sk, env, winner);
      && (exists donor :: donor in w.store && final == w.store[donor])
      && (if Reuses(w, n, sk, env)
          then TableFull(w, n, sk, env) && !KeyWritten(w, n, sk, env) && final.keyset in Referenced(w.devices[n].keyMap)
          else final == sk)
  {
    hide Provision, Reusable, CleanedUp, HasRoom;
    ProvisionStore(w, n, g, sk, env, winner);
    if Reuses(w, n, sk, env) { ReusableMapped(w, n, Min(Reusable(w, n, env)), env); }
  }

  lemma BoundThrough(w: World, w1: World, n: NodeId, g: GroupId, keyset: KeysetId, env: Env)
    requires OneDevice(w.devices, w1.devices, n)
    ensures BindOnDevice(w1, n, g, keyset, env).Some? ==>
      OneDevice(w.devices, BindOnDevice(w1, n, g, keyset, env).value.devices, n)
  {
    hide BindOnDevice, SameKeysets;
    BindFrame(w1, n, g, keyset, env);
    if BindOnDevice(w1, n, g, keyset, env).Some? {
      OneThrough(w.devices, w1.devices, BindOnDevice(w1, n, g, keyset, env).value.devices, n);
    }
  }

  lemma BindEffect(w: World, n: NodeId, g: GroupId, keyset: KeysetId, env: Env)
    requires n in w.devices
    ensures BindOnDevice(w, n, g, keyset, env).Some? <==> Reach(w, n, KeyMapWrite, env)
    ensures BindOnDevice(w, n, g, keyset, env).Some? ==>
      var w' := BindOnDevice(w, n, g, keyset, env).value;
      && n in w'.devices && w'.devices[n].keysets == w.devices[n].keysets
      && w'.devices[n].keyMap ==
           if Effective(w, n, KeyMapWrite, env)
             then Bind(if KeyMapRead(3) in env.down then [] else w.devices[n].keyMap, g, keyset)
           else w.devices[n].keyMap
  {
    hide Bind;
  }

  lemma ReuseEffect(w: World, n: NodeId, g: GroupId, donor: GroupId, env: Env)
    requires donor in w.store
    ensures var w' := Remap(w, n, g, w.store[donor], env);
      w'.store == w.store[g := w.store[donor]] && w'.provisioned == w.provisioned && w'.devices == w.devices
  {
    hide InjectPrefix;
  }

  lemma ReusableMapped(w: World, n: NodeId, keyset: KeysetId, env: Env)
    requires n in w.devices && keyset in Reusable(w, n, env)
    ensures keyset in Referenced(w.devices[n].keyMap)
  {
  }

  /* ---- group_add: the exact condition ---- */

  // Another group of the node keeps its binding and its keyset.
  ghost predicate KeepsOther(w: World, n: NodeId, sk: StoredKey, env: Env, other: StoredKey) {
    && (Binds(w, n, sk, env) ==> KeyMapRead(3) !in env.down)
    && (TableFull(w, n, sk, env) ==> Survives(w, n, other.keyset, env))
  }

  // The node is bound to the group's final keyset, now or before, and holds its key, now or before.
  ghost predicate GetsKey(w: World, n: NodeId, g: GroupId, sk: StoredKey, env: Env, final: StoredKey)
    requires n in w.devices
  {
    && (Binds(w, n, sk, env) || MapsTo(w.devices[n], g, final.keyset))
    && (KeyWritten(w, n, sk, env)
      || (Holds(w.devices[n], final) && (TableFull(w, n, sk, env) ==> Survives(w, n, final.keyset, env))))
  }

  // The command gets as far as recording the node.
  ghost predicate Joins(w: World, n: NodeId, sk: StoredKey, env: Env) {
    !Stuck(w, n, sk, env) && Reach(w, n, MemberAdd, env)
  }

  // Provisioning world w, whose other groups' keys are those of `store`, for a node that joins or not.
  ghost predicate ProvisionHarmless(w: World, n: NodeId, g: GroupId, env: Env, winner: GroupId,
                                    store: map<GroupId, StoredKey>)
    requires n in w.devices && g in w.store
  {
    var sk := w.store[g];
    var final := FinalKey(w, n, sk, env, winner);
    && Agrees(store, g, final)
    && (final.keyset == sk.keyset || ProvisionedOf(w, g) <= {n})
    && (forall h :: h in GroupsOfNode(w, n) && h != g && h in w.store ==> KeepsOther(w, n, sk, env, w.store[h]))
    && (Joins(w, n, sk, env) || n in ProvisionedOf(w, g) ==> GetsKey(w, n, g, sk, env, final))
  }

  ghost predicate AddHarmless(w: World, n: NodeId, ep: Endpoint, g: GroupId, env: Env, winner: GroupId) {
    var keyed := WithGroupKey(w, g, env);
    if Starts(w, n, ep, g, env) && n in keyed.devices && g in keyed.store
    then ProvisionHarmless(keyed, n, g, env, winner, w.store)
    else SupportsGroups(w, n, ep, env) ==> Agrees(w.store, g, KeyFor(w, g, env))
  }

  // Nothing else than SameInputs says matters.
  lemma SameHarmless(w: World, w': World, n: NodeId, g: GroupId, env: Env, winner: GroupId, store: map<GroupId,
                     StoredKey>)
    requires SameInputs(w, w', n) && n in w.devices && g in w.store
    ensures ProvisionHarmless(w', n, g, env, winner, store) <==> ProvisionHarmless(w, n, g, env, winner, store)
  {
    hide TableFull, KeyWritten, StaysFull, FinalKey, CleanupCandidates, Reusable, MapsTo, Agrees;
    SameOutcome(w, w', n, w.store[g], env, winner);
    SameCleanup(w, w', n, env);
    assert GroupsOfNode(w', n) == GroupsOfNode(w, n);
    forall k ensures Survives(w', n, k, env) <==> Survives(w, n, k, env) { }
    forall final ensures MapsTo(w'.devices[n], g, final) <==> MapsTo(w.devices[n], g, final) {
      SameMapsTo(w.devices[n], w'.devices[n], g, final);
    }
  }

  lemma SameMapsTo(d: Device, d': Device, g: GroupId, keyset: KeysetId)
    requires d'.keyMap == d.keyMap
    ensures MapsTo(d', g, keyset) <==> MapsTo(d, g, keyset)
  {
  }

  lemma OtherKeptIff(w: World, n: NodeId, g: GroupId, env: Env, winner: GroupId, h: GroupId, d': Device)
    requires n in w.devices && g in w.store && h in w.store && h != g && CanDecrypt(w.devices[n], h, w.store[h])
    requires Agrees(w.store, g, w.store[g]) || !KeyWritten(w, n, w.store[g], env)
    requires SameKeysAs(d', Provision(w, n, g, w.store[g], env, winner).world, n)
    ensures CanDecrypt(d', h, w.store[h]) <==> KeepsOther(w, n, w.store[g], env, w.store[h])
  {
    hide Provision, TableFull, KeyWritten, Binds, CleanedUp, Survives, OneDevice, Bind;
    var d, sk, other := w.devices[n], w.store[g], w.store[h];
    ProvisionEffect(w, n, g, sk, env, winner);
    InstallEffect(w, n, sk, env);
    var final := FinalKey(w, n, sk, env, winner);
    BindEntries(d.keyMap, g, final.keyset, h);
    BindEntries([], g, final.keyset, h);
    MapsToReferences(d, h, other.keyset);
    CleanedUpIff(w, n, other.keyset, env);
  }

  lemma GetsKeyIff(w: World, n: NodeId, g: GroupId, env: Env, winner: GroupId, d': Device)
    requires n in w.devices && g in w.store
    requires SameKeysAs(d', Provision(w, n, g, w.store[g], env, winner).world, n)
    ensures var final := FinalKey(w, n, w.store[g], env, winner);
      CanDecrypt(d', g, final) <==> GetsKey(w, n, g, w.store[g], env, final)
  {
    hide Provision, TableFull, KeyWritten, Binds, CleanedUp, Survives, OneDevice, Bind;
    var d, sk := w.devices[n], w.store[g];
    ProvisionEffect(w, n, g, sk, env, winner);
    InstallEffect(w, n, sk, env);
    FinalKeyOrigin(w, n, g, sk, env, winner);
    var final := FinalKey(w, n, sk, env, winner);
    BindEntries(d.keyMap, g, final.keyset, g);
    BindEntries([], g, final.keyset, g);
    if Reuses(w, n, sk, env) && Holds(d, final) { CleanedUpIff(w, n, final.keyset, env); }
  }

  // Another node tracked for the group is lost once the group's keyset id changes.
  lemma ChangeLosesOthers(w: World, w': World, n: NodeId, g: GroupId, m: NodeId)
    requires AllDecrypt(w) && OneDevice(w.devices, w'.devices, n) && m != n
    requires Tracked(w.provisioned, g, m) && Tracked(w'.provisioned, g, m) && g in w'.store
    requires g in w.store ==> w'.store[g].keyset != w.store[g].keyset
    ensures !AllDecrypt(w')
  {
    if AllDecrypt(w') { ServedWithSame(w, w', n, g, m); }
  }

  lemma ServedWithSame(w: World, w': World, n: NodeId, g: GroupId, m: NodeId)
    requires AllDecrypt(w) && AllDecrypt(w') && OneDevice(w.devices, w'.devices, n) && m != n
    requires Tracked(w.provisioned, g, m) && Tracked(w'.provisioned, g, m)
    ensures g in w.store && g in w'.store && w'.store[g].keyset == w.store[g].keyset
  {
    assert Served(w, g, m) && Served(w', g, m);
    assert EntriesOf(w.devices[m].keyMap, g)[0].keyset == w.store[g].keyset;
  }

  lemma AddKeepsIff(w: World, n: NodeId, ep: Endpoint, g: GroupId, env: Env, winner: GroupId)
    requires Invariant(w)
    ensures Invariant(AddToGroup(w, n, ep, g, env, winner).world) <==> AddHarmless(w, n, ep, g, env, winner)
  {
    hide Prepare, Provision, JoinGroup, KeysAgree, AllDecrypt, SameKeys, SameKeysets, WithGroupKey, Agrees,
         ProvisionHarmless, Starts;
    PrepareFrame(w, n, ep, g, env);
    PrepareStarts(w, n, ep, g, env);
    var r := Prepare(w, n, ep, g, env);
    DrawStore(w, g, env);
    UntrackedDraw(w, g);
    if r.outcome != Done {
      SameKeysKeep(w, r.world);
      if SupportsGroups(w, n, ep, env) {
        AgreesIff(w.store, g, r.world.store[g]);
        if g in w.store { assert w.store[g := w.store[g]] == w.store; }
      } else if g in w.store {
        AgreesIff(w.store, g, w.store[g]);
        assert w.store[g := w.store[g]] == w.store;
      }
    } else {
      var p := ProvisionAfter(r.world, n, g, env, winner);
      JoinFrame(p.world, n, ep, g, env);
      SameItself(p.world.devices);
      var w' := AddToGroup(w, n, ep, g, env, winner).world;
      PreparedKeeps(w, r.world, g);
      ProvisionedKeepsIff(w, r.world, w', n, g, env, winner);
      SameHarmless(WithGroupKey(w, g, env), r.world, n, g, env, winner, w.store);
    }
  }

  // A group without a stored key is tracked for nobody.
  lemma UntrackedDraw(w: World, g: GroupId)
    requires AllDecrypt(w)
    ensures g !in w.store ==> ProvisionedOf(w, g) == {}
  {
    if ProvisionedOf(w, g) != {} {
      var m :| m in ProvisionedOf(w, g);
      assert Tracked(w.provisioned, g, m) && Served(w, g, m);
    }
  }

  lemma PreparedKeeps(w: World, w1: World, g: GroupId)
    requires AllDecrypt(w) && SameKeys(w.devices, w1.devices) && w1.provisioned == w.provisioned
    requires g in w1.store && w1.store == w.store[g := w1.store[g]] && (g in w.store ==> w1.store[g] == w.store[g])
    ensures AllDecrypt(w1)
  {
    hide SameKeys;
    SameKeysKeep(w, w1);
  }

  // From the prepared world w1 to the world after steps 5 to 8.
  lemma ProvisionedKeepsIff(w: World, w1: World, w': World, n: NodeId, g: GroupId, env: Env, winner: GroupId)
    requires KeysAgree(w.store) && AllDecrypt(w1) && n in w1.devices && g in w1.store
    requires w1.store == w.store[g := w1.store[g]] && (g in w.store ==> w1.store[g] == w.store[g])
    requires g !in w.store ==> ProvisionedOf(w1, g) == {}
    requires var p := Provision(w1, n, g, w1.store[g], env, winner);
      && SameKeys(p.world.devices, w'.devices) && w'.store == p.world.store
      && w'.provisioned == (if p.outcome != Invalid && Reach(p.world, n, MemberAdd, env)
                            then p.world.provisioned[g := ProvisionedOf(p.world, g) + {n}] else p.world.provisioned)
    ensures Invariant(w') <==> ProvisionHarmless(w1, n, g, env, winner, w.store)
  {
    hide Provision, KeysAgree, AllDecrypt, SameKeys, Agrees, KeepsOther, GetsKey, OneDevice, Binds, KeysetsAfter,
         Bind, FinalKey, Reuses, Stuck, TableFull, KeyWritten, ServedAt, OthersTracked;
    var sk := w1.store[g];
    ProvisionEffect(w1, n, g, sk, env, winner);
    var p := Provision(w1, n, g, sk, env, winner);
    FinalKeyOrigin(w1, n, g, sk, env, winner);
    var final := FinalKey(w1, n, sk, env, winner);
    assert w'.store == w.store[g := final];
    AgreesIff(w.store, g, final);
    SameIsOne(p.world.devices, w'.devices, n);
    OneThrough(w1.devices, p.world.devices, w'.devices, n);
    OneKeys(w1.devices, w'.devices, n);
    OneKeys(w1.devices, p.world.devices, n);
    if Agrees(w.store, g, final) {
      if final.keyset != sk.keyset && !(ProvisionedOf(w1, g) <= {n}) {
        var m :| m in ProvisionedOf(w1, g) && m != n;
        assert Tracked(w1.provisioned, g, m) && Tracked(w'.provisioned, g, m);
        ChangeLosesOthers(w1, w', n, g, m);
      } else {
        SameEntry(w.store, w1.store, g, final);
        ProvisionedOthers(w1, w', n, g);
        OneNodeIff(w1, w', n);
        SameAt(p.world.devices, w'.devices, n);
        NodeGroups(w1, w', n, g, Joins(w1, n, sk, env));
        NodeKeepsIff(w, w1, w', n, g, env, winner);
      }
    }
  }

  lemma NodeGroups(w: World, w': World, n: NodeId, g: GroupId, joins: bool)
    requires w'.provisioned == if joins then w.provisioned[g := ProvisionedOf(w, g) + {n}] else w.provisioned
    ensures GroupsOfNode(w', n) == GroupsOfNode(w, n) + if joins then {g} else {}
  {
  }

  // A group that keeps its keyset id keeps its key.
  lemma SameEntry(store: map<GroupId, StoredKey>, store1: map<GroupId, StoredKey>, g: GroupId, final: StoredKey)
    requires KeysAgree(store) && g in store1 && store1 == store[g := store1[g]]
      && (g in store ==> store1[g] == store[g])
    requires exists donor :: donor in store1 && final == store1[donor]
    ensures g in store && final.keyset == store[g].keyset ==> final == store[g]
  {
  }

  lemma ProvisionedOthers(w: World, w': World, n: NodeId, g: GroupId)
    requires AllDecrypt(w) && g in w.store && g in w'.store && w'.store == w.store[g := w'.store[g]]
    requires w'.provisioned == w.provisioned || w'.provisioned == w.provisioned[g := ProvisionedOf(w, g) + {n}]
    requires ProvisionedOf(w, g) <= {n} || w'.store[g] == w.store[g]
    ensures OthersTracked(w, w', n)
  {
    forall h, m | m != n && Tracked(w'.provisioned, h, m)
      ensures Tracked(w.provisioned, h, m) && h in w'.store && w'.store[h] == w.store[h]
    {
      if h == g { assert m in ProvisionedOf(w, g); }
      assert Served(w, h, m);
    }
  }

  lemma NodeKeepsIff(w: World, w1: World, w': World, n: NodeId, g: GroupId, env: Env, winner: GroupId)
    requires AllDecrypt(w1) && n in w1.devices && g in w1.store && w1.store == w.store[g := w1.store[g]]
    requires Agrees(w.store, g, FinalKey(w1, n, w1.store[g], env, winner))
    requires w'.store == w1.store[g := FinalKey(w1, n, w1.store[g], env, winner)] && n in w'.devices
    requires SameKeysAs(w'.devices[n], Provision(w1, n, g, w1.store[g], env, winner).world, n)
    requires GroupsOfNode(w', n) == GroupsOfNode(w1, n) + if Joins(w1, n, w1.store[g], env) then {g} else {}
    ensures var sk := w1.store[g];
      ServedAt(w', n) <==>
        && (forall h :: h in GroupsOfNode(w1, n) && h != g && h in w1.store ==> KeepsOther(w1, n, sk, env, w1.store[h]))
        && (Joins(w1, n, sk, env) || n in ProvisionedOf(w1, g) ==>
          GetsKey(w1, n, g, sk, env, FinalKey(w1, n, sk, env, winner)))
  {
    hide Provision, AllDecrypt, Agrees, KeepsOther, GetsKey, Served, FinalKey, Joins;
    var sk := w1.store[g];
    EffectOfWrite(w, w1, n, g, env, winner);
    GetsKeyIff(w1, n, g, env, winner, w'.devices[n]);
    ServedMeans(w', g, n);
    forall h | h in GroupsOfNode(w1, n) && h != g
      ensures h in w1.store && (Served(w', h, n) <==> KeepsOther(w1, n, sk, env, w1.store[h]))
    {
      ServedMeans(w', h, n);
      TrackedServed(w1, h, n);
      ServedMeans(w1, h, n);
      OtherKeptIff(w1, n, g, env, winner, h, w'.devices[n]);
    }
  }

  // The keys of the device are those node n has in the world.
  ghost predicate SameKeysAs(d: Device, w: World, n: NodeId) {
    n in w.devices && d.keysets == w.devices[n].keysets && d.keyMap == w.devices[n].keyMap
  }

  lemma ServedMeans(w: World, g: GroupId, m: NodeId)
    ensures Served(w, g, m) <==> g in w.store && m in w.devices && CanDecrypt(w.devices[m], g, w.store[g])
  {
  }

  lemma TrackedServed(w: World, g: GroupId, m: NodeId)
    requires AllDecrypt(w) && g in GroupsOfNode(w, m)
    ensures Served(w, g, m)
  {
    assert Tracked(w.provisioned, g, m);
  }

  // A key that was written is the group's final one.
  lemma EffectOfWrite(w: World, w1: World, n: NodeId, g: GroupId, env: Env, winner: GroupId)
    requires n in w1.devices && g in w1.store && w1.store == w.store[g := w1.store[g]]
    requires Agrees(w.store, g, FinalKey(w1, n, w1.store[g], env, winner))
    ensures Agrees(w1.store, g, w1.store[g]) || !KeyWritten(w1, n, w1.store[g], env)
    ensures var p := Provision(w1, n, g, w1.store[g], env, winner);
      p.world.store == w1.store[g := FinalKey(w1, n, w1.store[g], env, winner)]
  {
    hide Provision, OneDevice, Binds, KeysetsAfter, Bind;
    ProvisionEffect(w1, n, g, w1.store[g], env, winner);
    FinalKeyOrigin(w1, n, g, w1.store[g], env, winner);
  }

  /* ---- All commands ---- */

  /** What a command must not do. Removing from all groups, removing keysets, resetting and groupcasts
      cannot do it, whatever fails in them. */
  ghost predicate Harmless(w: World, c: Command) {
    match c
    case Add(n, ep, g, env, winner) => AddHarmless(w, n, ep, g, env, winner)
    case Remove(n, g, env) => RemoveHarmless(w, n, g, env)
    case KeysetAddition(n, keyset, key, env) => WriteHarmless(w, n, keyset, key, env)
    case KeysetBinding(n, g, keyset, env) => BindHarmless(w, n, g, keyset, env)
    case _ => true
  }

  /** A command keeps the invariant if and only if it is harmless. */
  lemma ExecuteKeepsIff(w: World, c: Command)
    requires Invariant(w)
    ensures Invariant(Execute(w, c).world) <==> Harmless(w, c)
  {
    hide Invariant, AddHarmless, RemoveHarmless, WriteHarmless, BindHarmless;
    match c
    case Add(n, ep, g, env, winner) => AddKeepsIff(w, n, ep, g, env, winner);
    case Remove(n, g, env) => RemoveKeepsIff(w, n, g, env);
    case RemoveAll(n, ep, env) => RemoveAllKeeps(w, n, ep, env);
    case KeysetAddition(n, keyset, key, env) => AddKeysetKeepsIff(w, n, keyset, key, env);
    case KeysetBinding(n, g, keyset, env) => BindKeysetKeepsIff(w, n, g, keyset, env);
    case KeysetRemoval(n, keyset, env) => RemoveKeysetKeeps(w, n, keyset, env);
    case Reset(n, env) => ResetKeeps(w, n, env);
    case Send(g, env) => SendKeeps(w, g, env);
  }

  ghost predicate HoldsThroughout(w: World, cs: seq<Command>)
    decreases cs
  {
    Invariant(w) && (cs != [] ==> HoldsThroughout(Execute(w, cs[0]).world, cs[1..]))
  }

  ghost predicate HarmlessRun(w: World, cs: seq<Command>)
    decreases cs
  {
    cs != [] ==> Harmless(w, cs[0]) && HarmlessRun(Execute(w, cs[0]).world, cs[1..])
  }

  /** Over every run of the eight commands, on any number of arbitrary devices and whatever fails: a node
      tracked for a group maps the group exactly once, to the stored keyset, and holds the stored key
      under it, and shared keyset ids share one key, throughout the run, if and only if every command of
      it is harmless. */
  lemma {:induction false} RunKeepsIff(w: World, cs: seq<Command>)
    requires Invariant(w)
    ensures HoldsThroughout(w, cs) <==> HarmlessRun(w, cs)
    decreases cs
  {
    hide Invariant, Harmless, Execute;
    if cs != [] {
      ExecuteKeepsIff(w, cs[0]);
      if Harmless(w, cs[0]) { RunKeepsIff(Execute(w, cs[0]).world, cs[1..]); }
      else { HoldsNow(Execute(w, cs[0]).world, cs[1..]); }
    }
  }

  lemma HoldsNow(w: World, cs: seq<Command>)
    ensures HoldsThroughout(w, cs) ==> Invariant(w)
  {
    hide Invariant, Execute;
  }

  /* ---- Orderly runs ---- */

  // The reads and the write of GroupKeyMap that provisioning relies on.
  predicate MapCallsWork(env: Env) {
    KeyMapRead(1) !in env.down && KeyMapRead(3) !in env.down && KeyMapWrite !in env.refused
  }

  // The draw fits, GroupKeyMap reads and writes work, provisioning does not fail in transit, and another
  // group's key is taken over only if the device holds it and no other node is tracked for the group.
  ghost predicate OrderlyAdd(w: World, n: NodeId, ep: Endpoint, g: GroupId, env: Env, winner: GroupId) {
    && MapCallsWork(env) && (g in w.store || Agrees(w.store, g, Draw(g, env)))
    && (Starts(w, n, ep, g, env) ==> OrderlyProvision(WithGroupKey(w, g, env), n, g, KeyFor(w, g, env), env, winner))
  }

  ghost predicate OrderlyProvision(w: World, n: NodeId, g: GroupId, sk: StoredKey, env: Env, winner: GroupId) {
    && (KeyWritten(w, n, sk, env) || StaysFull(w, n, sk, env))
    && (KeyWritten(w, n, sk, env) || Reuses(w, n, sk, env) ==> Reach(w, n, KeyMapWrite, env))
    && (Reuses(w, n, sk, env) ==>
          ProvisionedOf(w, g) <= {n} && n in w.devices && Holds(w.devices[n], FinalKey(w, n, sk, env, winner)))
  }

  ghost predicate Orderly(w: World, c: Command) {
    match c
    case Add(n, ep, g, env, winner) => OrderlyAdd(w, n, ep, g, env, winner)
    case Remove(n, g, env) => KeyMapRead(0) !in env.down && KeyMapRead(1) !in env.down
    case KeysetAddition(n, keyset, key, env) =>
      forall g :: g in w.store && w.store[g].keyset == keyset ==> w.store[g].key == key
    case KeysetBinding(n, g, keyset, env) => g in w.store ==> w.store[g].keyset == keyset
    case _ => true
  }

  lemma OrderlyIsHarmless(w: World, c: Command)
    requires Invariant(w) && Orderly(w, c)
    ensures Harmless(w, c)
  {
    hide CleanupCandidates, AddToGroup, Prepare, Provision, AddKeyset, OrderlyAdd, AddHarmless;
    if c.Add? { OrderlyAddIsHarmless(w, c.node, c.endpoint, c.group, c.env, c.winner); }
  }

  lemma OrderlyAddIsHarmless(w: World, n: NodeId, ep: Endpoint, g: GroupId, env: Env, winner: GroupId)
    requires Invariant(w) && OrderlyAdd(w, n, ep, g, env, winner)
    ensures AddHarmless(w, n, ep, g, env, winner)
  {
    hide CleanupCandidates, KeysAgree, AllDecrypt, Agrees, WithGroupKey, TableFull, KeyWritten, StaysFull,
         ProvisionHarmless, OrderlyProvision;
    DrawStore(w, g, env);
    KeyedDevices(w, g, env);
    UntrackedDraw(w, g);
    AgreesIff(w.store, g, KeyFor(w, g, env));
    if g in w.store { assert w.store[g := w.store[g]] == w.store; }
    if Starts(w, n, ep, g, env) {
      SameItself(w.devices);
      PreparedKeeps(w, WithGroupKey(w, g, env), g);
      OrderlyIsProvisionHarmless(w, WithGroupKey(w, g, env), n, g, env, winner);
    }
  }

  lemma KeyedDevices(w: World, g: GroupId, env: Env)
    ensures var w' := WithGroupKey(w, g, env);
      w'.devices == w.devices && w'.tracker == w.tracker && w'.provisioned == w.provisioned
  {
    hide InjectPrefix;
  }

  lemma OrderlyIsProvisionHarmless(w: World, w1: World, n: NodeId, g: GroupId, env: Env, winner: GroupId)
    requires KeysAgree(w.store) && AllDecrypt(w1) && n in w1.devices && g in w1.store && MapCallsWork(env)
    requires w1.store == w.store[g := w1.store[g]] && Agrees(w.store, g, w1.store[g])
    requires OrderlyProvision(w1, n, g, w1.store[g], env, winner)
    ensures ProvisionHarmless(w1, n, g, env, winner, w.store)
  {
    hide CleanupCandidates, CleanedUp, Reusable, FinalKey, CanDecrypt, AllDecrypt, Agrees;
    var sk := w1.store[g];
    FinalKeyOrigin(w1, n, g, sk, env, winner);
    DonorAgrees(w.store, w1.store, g, FinalKey(w1, n, sk, env, winner));
    if Stuck(w1, n, sk, env) && n in ProvisionedOf(w1, g) {
      TrackedServed(w1, g, n);
      DecryptParts(w1.devices[n], g, sk);
    }
  }

  lemma DonorAgrees(store: map<GroupId, StoredKey>, store1: map<GroupId, StoredKey>, g: GroupId, final: StoredKey)
    requires KeysAgree(store) && g in store1 && store1 == store[g := store1[g]] && Agrees(store, g, store1[g])
    requires exists donor :: donor in store1 && final == store1[donor]
    ensures Agrees(store, g, final)
  {
    var donor :| donor in store1 && final == store1[donor];
  }

  // A normal return has a keyset for the group and reaches the map.
  lemma DoneReaches(w: World, n: NodeId, g: GroupId, sk: StoredKey, env: Env, winner: GroupId)
    ensures var p := Provision(w, n, g, sk, env, winner);
      p.outcome == Done <==> Reach(w, n, KeyMapWrite, env) && (KeyWritten(w, n, sk, env) || Reuses(w, n, sk, env))
  {
    hide Install, Reusable, Remap, KeyWritten, StaysFull;
    InstallKeys(w, n, sk, env);
    InstallStatus(w, n, sk, env);
    InstallKept(w, n, sk, env);
    var (w1, status) := Install(w, n, sk, env);
    if status == Exhausted && Reusable(w1, n, env) != {} {
      ReuseEffect(w1, n, g, PickWinner(w1.store, Min(Reusable(w1, n, env)), winner), env);
    }
  }

  lemma InstallKeys(w: World, n: NodeId, sk: StoredKey, env: Env)
    ensures Install(w, n, sk, env).0.devices.Keys == w.devices.Keys
  {
    hide AddKeyset, Cleanup, OneDevice;
    AddKeysetFrame(w, n, sk.keyset, sk.key, 0, env);
    var w1 := AddKeyset(w, n, sk.keyset, sk.key, 0, env).0;
    OneKeys(w.devices, w1.devices, n);
    CleanupFrame(w1, n, env);
    var w2 := Cleanup(w1, n, env).0;
    OneKeys(w1.devices, w2.devices, n);
    AddKeysetFrame(w2, n, sk.keyset, sk.key, 1, env);
    OneKeys(w2.devices, AddKeyset(w2, n, sk.keyset, sk.key, 1, env).0.devices, n);
  }

  ghost predicate OrderlyRun(w: World, cs: seq<Command>)
    decreases cs
  {
    cs != [] ==> Orderly(w, cs[0]) && OrderlyRun(Execute(w, cs[0]).world, cs[1..])
  }

  /** In particular over every run whose adds and removals can read and write the map, whose draws fit and
      whose reuse leaves no other node behind. */
  lemma {:induction false} RunKeeps(w: World, cs: seq<Command>)
    requires Invariant(w) && OrderlyRun(w, cs)
    ensures HoldsThroughout(w, cs) && Invariant(Run(w, cs))
    decreases cs
  {
    hide Invariant, Orderly, Execute, Harmless;
    if cs != [] {
      OrderlyIsHarmless(w, cs[0]);
      ExecuteKeepsIff(w, cs[0]);
      RunKeeps(Execute(w, cs[0]).world, cs[1..]);
    }
  }
}
