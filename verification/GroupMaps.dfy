/** GroupKeyMap against the keyset table of the same device: every entry names an installed keyset. */
module GroupMaps {
  import opened KeyChain
  import opened Devices
  import opened GroupProtocol
  import opened GroupFrames
  import opened GroupKeys
  import opened GroupTracker
  import opened GroupInvariant

  ghost predicate AllMapped(w: World) {
    forall m :: m in w.devices ==> MappedInstalled(w.devices[m])
  }

  // A command on one device is decided on that device.
  lemma OneMappedIff(w: World, w': World, n: NodeId)
    requires AllMapped(w) && OneDevice(w.devices, w'.devices, n)
    ensures AllMapped(w') <==> (n in w'.devices ==> MappedInstalled(w'.devices[n]))
  {
    forall m | m in w'.devices && m != n ensures MappedInstalled(w'.devices[m]) {
      assert MappedInstalled(w.devices[m]);
    }
  }

  lemma SameMapped(w: World, w': World)
    requires AllMapped(w) && SameKeys(w.devices, w'.devices)
    ensures AllMapped(w')
  {
    forall m | m in w'.devices ensures MappedInstalled(w'.devices[m]) {
      assert MappedInstalled(w.devices[m]);
    }
  }

  lemma RemovedMappedIff(d: Device, d': Device, gone: set<KeysetId>)
    requires MappedInstalled(d) && d'.keyMap == d.keyMap && d'.keysets == d.keysets - gone
    ensures MappedInstalled(d') <==> forall k :: k in Referenced(d.keyMap) ==> k !in gone
  {
    if MappedInstalled(d') {
      forall k | k in Referenced(d.keyMap) ensures k !in gone {
        var e :| e in d.keyMap && e.keyset == k;
        assert e in d'.keyMap;
      }
    }
    if forall k :: k in Referenced(d.keyMap) ==> k !in gone {
      forall e | e in d'.keyMap ensures e.keyset in d'.keysets { assert e.keyset in Referenced(d.keyMap); }
    }
  }

  /* ---- group_remove, group_remove_all ---- */

  // A cleanup takes no keyset that the map still names.
  ghost predicate CleanupSafe(w: World, n: NodeId, entries: seq<KeyMapEntry>, env: Env) {
    forall k :: k in Referenced(entries) ==> Survives(w, n, k, env)
  }

  // The map after a removal.
  function MapLeft(d: Device, groups: set<GroupId>, env: Env): seq<KeyMapEntry> {
    if KeyMapWrite in env.refused then d.keyMap
    else Without(if KeyMapRead(0) in env.down then [] else d.keyMap, groups)
  }

  lemma CleanupMappedIff(w: World, n: NodeId, env: Env, d': Device)
    requires n in w.devices && MappedInstalled(w.devices[n])
    requires d'.keyMap == w.devices[n].keyMap && d'.keysets == w.devices[n].keysets - CleanedUp(w, n, env)
    ensures MappedInstalled(d') <==> CleanupSafe(w, n, d'.keyMap, env)
  {
    hide CleanedUp, Survives;
    var d := w.devices[n];
    RemovedMappedIff(d, d', CleanedUp(w, n, env));
    forall k | k in Referenced(d.keyMap) ensures k !in CleanedUp(w, n, env) <==> Survives(w, n, k, env) {
      assert k in d.keysets;
      CleanedUpIff(w, n, k, env);
    }
  }

  lemma StrippedMapped(w: World, n: NodeId, groups: set<GroupId>, env: Env)
    requires AllMapped(w) && Reach(w, n, KeyMapWrite, env)
    ensures var s := Stripped(w, n, groups, env);
      && n in s.devices && MappedInstalled(s.devices[n]) && s.devices[n].keyMap == MapLeft(w.devices[n], groups, env)
      && forall k :: Survives(s, n, k, env) <==> Survives(w, n, k, env)
  {
    hide Stripped, Survives;
    StrippedEffect(w, n, groups, env);
    var s := Stripped(w, n, groups, env);
    assert MappedInstalled(w.devices[n]);
    forall k ensures Survives(s, n, k, env) <==> Survives(w, n, k, env) { SurvivesSame(w, s, n, k, env); }
  }

  lemma RemoveMappedIff(w: World, n: NodeId, g: GroupId, env: Env)
    requires AllMapped(w)
    ensures AllMapped(RemoveFromGroup(w, n, g, env).world)
      <==> (Reach(w, n, KeyMapWrite, env) ==> CleanupSafe(w, n, MapLeft(w.devices[n], {g}, env), env))
  {
    hide AllMapped, MappedInstalled, RemoveFromGroup, Stripped, Survives, OneDevice, CleanedUp;
    var w' := RemoveFromGroup(w, n, g, env).world;
    if Reach(w, n, KeyMapWrite, env) {
      StrippedEffect(w, n, {g}, env);
      StrippedMapped(w, n, {g}, env);
      RemovalEffect(w, n, g, env);
      var s := Stripped(w, n, {g}, env);
      OneThrough(w.devices, s.devices, w'.devices, n);
      OneMappedIff(w, w', n);
      CleanupMappedIff(s, n, env, w'.devices[n]);
    } else {
      RemovalStops(w, n, g, env);
      SameMapped(w, w');
    }
  }

  ghost predicate RemoveAllSafe(w: World, n: NodeId, ep: Endpoint, env: Env) {
    var groups := ListedGroups(w, n, ep, env);
    if groups == {} then n in w.devices ==> CleanupSafe(w, n, w.devices[n].keyMap, env)
    else Reach(w, n, KeyMapWrite, env) ==> CleanupSafe(w, n, MapLeft(w.devices[n], groups, env), env)
  }

  lemma RemoveAllMappedIff(w: World, n: NodeId, ep: Endpoint, env: Env)
    requires AllMapped(w)
    ensures AllMapped(RemoveFromAllGroups(w, n, ep, env).world) <==> RemoveAllSafe(w, n, ep, env)
  {
    hide AllMapped, MappedInstalled, FinishRemoveAll, RemoveMembers, StripKeyMap, Survives, OneDevice, SameKeys,
         ListedGroups;
    var groups := ListedGroups(w, n, ep, env);
    if groups == {} {
      SameItself(w.devices);
      SameIsOne(w.devices, w.devices, n);
      if n in w.devices { MappedAt(w, n); }
      FinishMappedIff(w, w, n, env);
    } else {
      MembersKeys(w, n, groups, env);
      StripReaches(RemoveMembers(w, n, groups, env), n, groups, env);
      if Reach(w, n, KeyMapWrite, env) {
        StrippedEffect(w, n, groups, env);
        StrippedMapped(w, n, groups, env);
        FinishMappedIff(w, Stripped(w, n, groups, env), n, env);
      } else {
        MembersFrame(w, n, groups, env);
        SameMapped(w, RemoveMembers(w, n, groups, env));
      }
    }
  }

  lemma FinishMappedIff(w: World, s: World, n: NodeId, env: Env)
    requires AllMapped(w) && OneDevice(w.devices, s.devices, n) && (n in s.devices ==> MappedInstalled(s.devices[n]))
    ensures AllMapped(FinishRemoveAll(s, n, env).world)
      <==> (n in s.devices ==> CleanupSafe(s, n, s.devices[n].keyMap, env))
  {
    hide AllMapped, MappedInstalled, Cleanup, RemoveAllAcl, SavedAfterForget, OneDevice, SameKeys, CleanedUp,
         Survives;
    var w1 := Cleanup(s, n, env).0;
    CleanupFrame(s, n, env);
    AclFrame(w1, n, 0, env);
    var w2 := RemoveAllAcl(w1, n, env);
    SameIsOne(w1.devices, w2.devices, n);
    OneThrough(w.devices, s.devices, w1.devices, n);
    OneThrough(w.devices, w1.devices, w2.devices, n);
    OneMappedIff(w, w2, n);
    SameAt(w1.devices, w2.devices, n);
    OneKeys(s.devices, w1.devices, n);
    MappedIsOfDevices(w2, FinishRemoveAll(s, n, env).world);
    if n in s.devices {
      RemovedKeysets(s.devices[n], CleanedUp(s, n, env));
      CleanupMappedIff(s, n, env, w2.devices[n]);
    }
  }

  lemma MappedIsOfDevices(w: World, w': World)
    requires w'.devices == w.devices
    ensures AllMapped(w') <==> AllMapped(w)
  {
  }

  /* ---- group_add ---- */

  function MapAfter(d: Device, g: GroupId, keyset: KeysetId, binds: bool, env: Env): seq<KeyMapEntry> {
    if binds then Bind(if KeyMapRead(3) in env.down then [] else d.keyMap, g, keyset) else d.keyMap
  }

  // Whatever the map names after provisioning is the key just written or survives a cleanup.
  ghost predicate ProvisionSafe(w: World, n: NodeId, g: GroupId, sk: StoredKey, env: Env, winner: GroupId)
    requires n in w.devices
  {
    TableFull(w, n, sk, env) ==>
      forall k :: k in Referenced(MapAfter(w.devices[n], g, FinalKey(w, n, sk, env, winner).keyset,
        Binds(w, n, sk, env), env)) ==>
        (KeyWritten(w, n, sk, env) && k == sk.keyset) || Survives(w, n, k, env)
  }

  lemma ProvisionMappedIff(w: World, n: NodeId, g: GroupId, env: Env, winner: GroupId)
    requires n in w.devices && MappedInstalled(w.devices[n]) && g in w.store
    ensures var p := Provision(w, n, g, w.store[g], env, winner);
      n in p.world.devices && (MappedInstalled(p.world.devices[n]) <==> ProvisionSafe(w, n, g, w.store[g], env, winner))
  {
    hide Provision, TableFull, KeyWritten, Binds, CleanedUp, Survives, OneDevice, Bind, FinalKey, Reuses;
    var d, sk := w.devices[n], w.store[g];
    ProvisionEffect(w, n, g, sk, env, winner);
    var d', final := Provision(w, n, g, sk, env, winner).world.devices[n], FinalKey(w, n, sk, env, winner);
    MapAfterNames(w, n, g, env, winner);
    forall k | k in Referenced(d'.keyMap)
      ensures k in d'.keysets <==> (TableFull(w, n, sk, env) ==>
        (KeyWritten(w, n, sk, env) && k == sk.keyset) || Survives(w, n, k, env))
    {
      if !(KeyWritten(w, n, sk, env) && k == sk.keyset) { CleanedUpIff(w, n, k, env); }
    }
    assert MappedInstalled(d') <==> forall k :: k in Referenced(d'.keyMap) ==> k in d'.keysets by {
      forall e | e in d'.keyMap ensures e.keyset in Referenced(d'.keyMap) { }
    }
  }

  // The map names what it named before, or the key just written.
  lemma MapAfterNames(w: World, n: NodeId, g: GroupId, env: Env, winner: GroupId)
    requires n in w.devices && MappedInstalled(w.devices[n]) && g in w.store
    ensures var d, sk := w.devices[n], w.store[g];
      var entries := MapAfter(d, g, FinalKey(w, n, sk, env, winner).keyset, Binds(w, n, sk, env), env);
      forall k :: k in Referenced(entries) ==>
        (KeyWritten(w, n, sk, env) && k == sk.keyset) || (k in Referenced(d.keyMap) && k in d.keysets)
  {
    hide TableFull, KeyWritten, FinalKey, Reuses;
    FinalKeyOrigin(w, n, g, w.store[g], env, winner);
    var d, final := w.devices[n], FinalKey(w, n, w.store[g], env, winner);
    assert forall e :: e in Bind(d.keyMap, g, final.keyset) ==> e in d.keyMap || e.keyset == final.keyset;
    assert forall e :: e in Bind([], g, final.keyset) ==> e.keyset == final.keyset;
  }

  // What a binding leaves in the GroupKeyMap.
  ghost predicate BoundTo(d: Device, d': Device, g: GroupId, keyset: KeysetId) {
    keyset in d'.keysets && MapsTo(d', g, keyset) && Without(d'.keyMap, {g}) == Without(d.keyMap, {g})
  }

  /** If every GroupKeyMap entry names an installed keyset and the map can be read and written, a normal
      return of provisioning leaves exactly one entry for the group, naming its keyset, which is
      installed, and all other entries in order; any other return leaves the map alone; and the
      assumption survives. */
  lemma ProvisionBinds(w: World, n: NodeId, g: GroupId, env: Env, winner: GroupId)
    requires n in w.devices && MappedInstalled(w.devices[n]) && g in w.store && MapCallsWork(env)
    ensures var p := Provision(w, n, g, w.store[g], env, winner);
      && n in p.world.devices && g in p.world.store && MappedInstalled(p.world.devices[n])
      && (p.outcome == Done ==> BoundTo(w.devices[n], p.world.devices[n], g, p.world.store[g].keyset))
      && (p.outcome != Done ==> p.world.devices[n].keyMap == w.devices[n].keyMap)
  {
    hide Provision, TableFull, KeyWritten, CleanupCandidates, OneDevice, Bind, FinalKey, Reuses;
    var d, sk := w.devices[n], w.store[g];
    ProvisionEffect(w, n, g, sk, env, winner);
    ProvisionMappedIff(w, n, g, env, winner);
    DoneReaches(w, n, g, sk, env, winner);
    var p, final := Provision(w, n, g, sk, env, winner), FinalKey(w, n, sk, env, winner);
    var d' := p.world.devices[n];
    if p.outcome == Done {
      BindEntries(d.keyMap, g, final.keyset, g);
      BindRest(d.keyMap, g, final.keyset);
      assert KeyMapEntry(g, final.keyset) in EntriesOf(d'.keyMap, g);
    }
  }

  lemma BindRest(entries: seq<KeyMapEntry>, g: GroupId, keyset: KeysetId)
    ensures Without(Bind(entries, g, keyset), {g}) == Without(entries, {g})
  {
    WithoutAppend(Without(entries, {g}), KeyMapEntry(g, keyset), {g});
    WithoutTwice(entries, {g});
  }

  ghost predicate AddSafe(w: World, n: NodeId, ep: Endpoint, g: GroupId, env: Env, winner: GroupId) {
    Starts(w, n, ep, g, env) ==> KeyedSafe(WithGroupKey(w, g, env), n, g, KeyFor(w, g, env), env, winner)
  }

  ghost predicate KeyedSafe(w: World, n: NodeId, g: GroupId, sk: StoredKey, env: Env, winner: GroupId) {
    n in w.devices && ProvisionSafe(w, n, g, sk, env, winner)
  }

  lemma SameSafe(w: World, w': World, n: NodeId, g: GroupId, sk: StoredKey, env: Env, winner: GroupId)
    requires SameInputs(w, w', n)
    ensures KeyedSafe(w', n, g, sk, env, winner) <==> KeyedSafe(w, n, g, sk, env, winner)
  {
    hide TableFull, KeyWritten, StaysFull, FinalKey, CleanupCandidates, Reusable, Bind;
    SameOutcome(w, w', n, sk, env, winner);
    SameCleanup(w, w', n, env);
    forall k ensures Survives(w', n, k, env) <==> Survives(w, n, k, env) { }
  }

  lemma AddMappedIff(w: World, n: NodeId, ep: Endpoint, g: GroupId, env: Env, winner: GroupId)
    requires AllMapped(w)
    ensures AllMapped(AddToGroup(w, n, ep, g, env, winner).world) <==> AddSafe(w, n, ep, g, env, winner)
  {
    hide AllMapped, Prepare, Provision, JoinGroup, ProvisionSafe, MappedInstalled, SameKeys, OneDevice, WithGroupKey,
         FinalKey, KeysetsAfter, Binds, Bind, SameInputs, Starts;
    PrepareFrame(w, n, ep, g, env);
    PrepareStarts(w, n, ep, g, env);
    DrawStore(w, g, env);
    var r := Prepare(w, n, ep, g, env);
    SameMapped(w, r.world);
    if r.outcome == Done {
      var p := ProvisionAfter(r.world, n, g, env, winner);
      var w' := AddToGroup(w, n, ep, g, env, winner).world;
      ProvisionEffect(r.world, n, g, r.world.store[g], env, winner);
      JoinFrame(p.world, n, ep, g, env);
      SameItself(p.world.devices);
      SameIsOne(p.world.devices, w'.devices, n);
      OneThrough(r.world.devices, p.world.devices, w'.devices, n);
      OneMappedIff(r.world, w', n);
      MappedAt(r.world, n);
      ProvisionMappedIff(r.world, n, g, env, winner);
      SameMappedAt(p.world.devices, w'.devices, n);
      SameSafe(WithGroupKey(w, g, env), r.world, n, g, KeyFor(w, g, env), env, winner);
    }
  }

  lemma MappedAt(w: World, n: NodeId)
    requires AllMapped(w) && n in w.devices
    ensures MappedInstalled(w.devices[n])
  {
  }

  lemma SameMappedAt(ds: Fleet, ds': Fleet, n: NodeId)
    requires SameKeys(ds, ds') && n in ds
    ensures n in ds' && (MappedInstalled(ds'[n]) <==> MappedInstalled(ds[n]))
  {
  }

  /* ---- All commands ---- */

  // What a reset takes from the device's keyset table.
  function WipedKeysets(w: World, n: NodeId, env: Env): set<KeysetId> {
    RemovableOf(w, n, ResetTargets(w, n) + BruteForceRange(), env)
  }

  lemma ResetMappedIff(w: World, n: NodeId, env: Env)
    requires AllMapped(w)
    ensures AllMapped(ResetNode(w, n, env).world) <==>
      (Effective(w, n, KeyMapWrite, env) || n !in w.devices || forall k :: k in Referenced(w.devices[n].keyMap) ==>
        k !in WipedKeysets(w, n, env))
  {
    hide ResetNode, RemovableOf, ResetTargets;
    ResetDevice(w, n, env);
    var w' := ResetNode(w, n, env).world;
    OneMappedIff(w, w', n);
    if n in w.devices && !Effective(w, n, KeyMapWrite, env) {
      RemovedMappedIff(w.devices[n], w'.devices[n], WipedKeysets(w, n, env));
    }
  }

  lemma KeysetRemovalMappedIff(w: World, n: NodeId, keyset: KeysetId, env: Env)
    requires AllMapped(w)
    ensures AllMapped(RemoveKeyset(w, n, keyset, env).world) <==>
      (KeysetGoes(w, n, keyset, env) ==> keyset !in Referenced(w.devices[n].keyMap))
  {
    hide Forget, RemoveTracked, OneDevice, AllMapped, MappedInstalled, Referenced;
    if RemoveKeyset(w, n, keyset, env).outcome == Done {
      RemoveTrackedFrame(w, n, {keyset});
      var w1 := RemoveTracked(w, n, {keyset});
      OneMappedIff(w, w1, n);
      MappedAt(w, n);
      OneKeys(w.devices, w1.devices, n);
      RemovedMappedIff(w.devices[n], w1.devices[n], {keyset});
      MappedIsOfDevices(w1, RemoveKeyset(w, n, keyset, env).world);
    }
  }

  lemma KeysetAdditionMapped(w: World, n: NodeId, keyset: KeysetId, key: Key, env: Env)
    requires AllMapped(w)
    ensures AllMapped(AddKeysetTo(w, n, keyset, key, env).world)
  {
    hide AddKeyset;
    AddKeysetFrame(w, n, keyset, key, 0, env);
    OneMappedIff(w, AddKeysetTo(w, n, keyset, key, env).world, n);
    if n in w.devices { assert MappedInstalled(w.devices[n]); }
  }

  lemma KeysetBindingMappedIff(w: World, n: NodeId, g: GroupId, keyset: KeysetId, env: Env)
    requires AllMapped(w)
    ensures AllMapped(BindKeyset(w, n, g, keyset, env).world)
      <==> (Rebinds(w, n, env) ==> keyset in w.devices[n].keysets)
  {
    hide BindKeyset, OneDevice, Bind;
    BindKeysetFrame(w, n, g, keyset, env);
    var w' := BindKeyset(w, n, g, keyset, env).world;
    OneMappedIff(w, w', n);
    OneKeys(w.devices, w'.devices, n);
    if n in w.devices {
      assert MappedInstalled(w.devices[n]);
      BindEntries(w.devices[n].keyMap, g, keyset, g);
      BoundMembers(w.devices[n].keyMap, g, keyset);
    }
  }

  lemma BoundMembers(entries: seq<KeyMapEntry>, g: GroupId, keyset: KeysetId)
    ensures KeyMapEntry(g, keyset) in Bind(entries, g, keyset)
    ensures forall e :: e in Bind(entries, g, keyset) ==> e in entries || e == KeyMapEntry(g, keyset)
  {
  }

  lemma SendMapped(w: World, g: GroupId, env: Env)
    requires AllMapped(w)
    ensures AllMapped(SendToGroup(w, g, env).world)
  {
    hide Refreshed, RefreshedTracker, RefreshedSaved, InjectPrefix;
    var w' := SendToGroup(w, g, env).world;
    forall m | m in w'.devices ensures MappedInstalled(w'.devices[m]) { assert MappedInstalled(w.devices[m]); }
  }

  /** What a command must not do: remove a keyset that its device's map still names afterwards, or bind one
      that is not installed. */
  ghost predicate MapSafe(w: World, c: Command) {
    match c
    case Add(n, ep, g, env, winner) => AddSafe(w, n, ep, g, env, winner)
    case Remove(n, g, env) => Reach(w, n, KeyMapWrite, env) ==> CleanupSafe(w, n, MapLeft(w.devices[n], {g}, env), env)
    case RemoveAll(n, ep, env) => RemoveAllSafe(w, n, ep, env)
    case KeysetBinding(n, g, keyset, env) => Rebinds(w, n, env) ==> keyset in w.devices[n].keysets
    case KeysetRemoval(n, keyset, env) =>
      KeysetGoes(w, n, keyset, env) ==> keyset !in Referenced(w.devices[n].keyMap)
    case Reset(n, env) =>
      Effective(w, n, KeyMapWrite, env) || n !in w.devices || forall k :: k in Referenced(w.devices[n].keyMap) ==>
        k !in WipedKeysets(w, n, env)
    case _ => true
  }

  lemma ExecuteMappedIff(w: World, c: Command)
    requires AllMapped(w)
    ensures AllMapped(Execute(w, c).world) <==> MapSafe(w, c)
  {
    hide AllMapped, AddSafe, CleanupSafe, RemoveAllSafe, AddToGroup, RemoveFromGroup, RemoveFromAllGroups,
         RemoveKeyset, ResetNode, SendToGroup, AddKeysetTo, Referenced, WipedKeysets, MapLeft;
    match c
    case Add(n, ep, g, env, winner) => AddMappedIff(w, n, ep, g, env, winner);
    case Remove(n, g, env) => RemoveMappedIff(w, n, g, env);
    case RemoveAll(n, ep, env) => RemoveAllMappedIff(w, n, ep, env);
    case KeysetAddition(n, keyset, key, env) => KeysetAdditionMapped(w, n, keyset, key, env);
    case KeysetBinding(n, g, keyset, env) => KeysetBindingMappedIff(w, n, g, keyset, env);
    case KeysetRemoval(n, keyset, env) => KeysetRemovalMappedIff(w, n, keyset, env);
    case Reset(n, env) => ResetMappedIff(w, n, env);
    case Send(g, env) => SendMapped(w, g, env);
  }

  ghost predicate MappedThroughout(w: World, cs: seq<Command>)
    decreases cs
  {
    AllMapped(w) && (cs != [] ==> MappedThroughout(Execute(w, cs[0]).world, cs[1..]))
  }

  ghost predicate MapSafeRun(w: World, cs: seq<Command>)
    decreases cs
  {
    cs != [] ==> MapSafe(w, cs[0]) && MapSafeRun(Execute(w, cs[0]).world, cs[1..])
  }

  /** Over every run, every GroupKeyMap entry of every device names a keyset installed there, throughout,
      if and only if no command removes a keyset that the map still names afterwards or binds one that is
      not installed. */
  lemma {:induction false} RunMappedIff(w: World, cs: seq<Command>)
    requires AllMapped(w)
    ensures MappedThroughout(w, cs) <==> MapSafeRun(w, cs)
    decreases cs
  {
    hide AllMapped, MapSafe, Execute;
    if cs != [] {
      ExecuteMappedIff(w, cs[0]);
      if MapSafe(w, cs[0]) { RunMappedIff(Execute(w, cs[0]).world, cs[1..]); }
      else { MappedNow(Execute(w, cs[0]).world, cs[1..]); }
    }
  }

  lemma MappedNow(w: World, cs: seq<Command>)
    ensures MappedThroughout(w, cs) ==> AllMapped(w)
  {
    hide AllMapped, Execute;
  }
}
