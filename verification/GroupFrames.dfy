/** What the steps of the group commands leave alone: keysets and GroupKeyMap of devices they do not write
    to, and of all devices where they only touch group tables and access control lists. */
module GroupFrames {
  import opened KeyChain
  import opened Devices
  import opened GroupProtocol

  type Fleet = map<NodeId, Device>

  ghost predicate SameKeysets(ds: Fleet, ds': Fleet) {
    && ds'.Keys == ds.Keys
    && forall m :: m in ds ==> ds'[m].keysets == ds[m].keysets && ds'[m].foreign == ds[m].foreign
  }

  // Keysets and GroupKeyMap of every device unchanged.
  ghost predicate SameKeys(ds: Fleet, ds': Fleet) {
    SameKeysets(ds, ds') && forall m :: m in ds ==> ds'[m].keyMap == ds[m].keyMap
  }

  // Keysets and GroupKeyMap of every device but node n's unchanged.
  ghost predicate OneDevice(ds: Fleet, ds': Fleet, n: NodeId) {
    && ds'.Keys == ds.Keys
    && forall m :: m in ds && m != n ==> ds'[m].keysets == ds[m].keysets && ds'[m].keyMap == ds[m].keyMap
  }

  // Nothing of the controller's but its tracker differs.
  ghost predicate StoreKept(w: World, w': World) {
    w'.store == w.store && w'.kvs == w.kvs && w'.provisioned == w.provisioned
  }

  lemma SameThrough(ds: Fleet, ds1: Fleet, ds2: Fleet)
    requires SameKeys(ds, ds1) && SameKeys(ds1, ds2)
    ensures SameKeys(ds, ds2)
  {
  }

  lemma OneThrough(ds: Fleet, ds1: Fleet, ds2: Fleet, n: NodeId)
    requires OneDevice(ds, ds1, n) && OneDevice(ds1, ds2, n)
    ensures OneDevice(ds, ds2, n)
  {
  }

  lemma OneKeys(ds: Fleet, ds': Fleet, n: NodeId)
    requires OneDevice(ds, ds', n)
    ensures ds'.Keys == ds.Keys
  {
  }

  lemma SameIsOne(ds: Fleet, ds': Fleet, n: NodeId)
    requires SameKeys(ds, ds')
    ensures OneDevice(ds, ds', n)
  {
  }

  lemma SameItself(ds: Fleet)
    ensures SameKeys(ds, ds)
  {
  }

  lemma PutIsOne(ds: Fleet, n: NodeId, d: Device)
    requires n in ds
    ensures OneDevice(ds, ds[n := d], n)
    ensures d.keysets == ds[n].keysets && d.foreign == ds[n].foreign ==> SameKeysets(ds, ds[n := d])
    ensures d.keysets == ds[n].keysets && d.foreign == ds[n].foreign && d.keyMap == ds[n].keyMap ==>
      SameKeys(ds, ds[n := d])
  {
  }

  /* ---- Group tables ---- */

  lemma MembersFrame(w: World, n: NodeId, groups: set<GroupId>, env: Env)
    ensures SameKeys(w.devices, RemoveMembers(w, n, groups, env).devices)
  {
    hide Drop, Dropped;
  }

  lemma RoomFrame(w: World, n: NodeId, ep: Endpoint, g: GroupId, env: Env)
    ensures var w' := MakeRoom(w, n, ep, g, env).world;
      SameKeys(w.devices, w'.devices) && w'.devices.Keys == w.devices.Keys && SameInputs(w, w', n)
  {
    hide Drop, SameKeys;
    SameItself(w.devices);
    if n in w.devices {
      var d := w.devices[n];
      PutIsOne(w.devices, n, d.(tables := d.tables[ep := DropMembers(TableOf(d, ep), {Oldest(TableOf(d, ep))})]));
    }
  }

  // What provisioning node n looks at: the controller's maps, and the node's keysets and GroupKeyMap.
  ghost predicate SameInputs(w: World, w': World, n: NodeId) {
    && w'.store == w.store && w'.tracker == w.tracker && w'.provisioned == w.provisioned
    && w'.devices.Keys == w.devices.Keys
    && (n in w.devices ==>
          && w'.devices[n].keysets == w.devices[n].keysets && w'.devices[n].keyMap == w.devices[n].keyMap
          && w'.devices[n].keysetCapacity == w.devices[n].keysetCapacity)
  }

  // The group table has room for the group, or can be made to.
  predicate RoomMade(w: World, n: NodeId, ep: Endpoint, g: GroupId, env: Env) {
    && Reach(w, n, MembershipGet, env)
    && var t := TableOf(w.devices[n], ep);
       || g in t.members || !env.capacityKnown || |t.members| < t.capacity
       || (t.members != [] && Reach(w, n, OldestEvict, env))
  }

  // group_add gets as far as provisioning.
  predicate Starts(w: World, n: NodeId, ep: Endpoint, g: GroupId, env: Env) {
    SupportsGroups(w, n, ep, env) && RoomMade(w, n, ep, g, env)
  }

  lemma PrepareStarts(w: World, n: NodeId, ep: Endpoint, g: GroupId, env: Env)
    ensures var r := Prepare(w, n, ep, g, env);
      && (r.outcome == Done <==> Starts(w, n, ep, g, env))
      && (SupportsGroups(w, n, ep, env) ==> SameInputs(WithGroupKey(w, g, env), r.world, n))
  {
    hide InjectPrefix, Drop, SameKeys, SameInputs;
    RoomFrame(WithGroupKey(w, g, env), n, ep, g, env);
  }

  ghost function Oldest(t: GroupTable): GroupId {
    if t.members == [] then 0 else t.members[0]
  }

  // Steps 1 to 4 of group_add write the store and at most one group table.
  lemma PrepareFrame(w: World, n: NodeId, ep: Endpoint, g: GroupId, env: Env)
    ensures var r := Prepare(w, n, ep, g, env);
      && SameKeys(w.devices, r.world.devices)
      && r.world.tracker == w.tracker && r.world.provisioned == w.provisioned
      && (if SupportsGroups(w, n, ep, env) then StoreKept(WithGroupKey(w, g, env), r.world) else r.world == w)
      && (r.outcome == Done ==> SupportsGroups(w, n, ep, env) && g in r.world.store && n in r.world.devices)
  {
    hide SameKeys, MakeRoom, InjectPrefix;
    SameItself(w.devices);
    RoomFrame(WithGroupKey(w, g, env), n, ep, g, env);
  }

  /* ---- Access control lists ---- */

  lemma AclFrame(w: World, n: NodeId, g: GroupId, env: Env)
    ensures SameKeys(w.devices, EnsureAcl(w, n, g, env).devices)
    ensures SameKeys(w.devices, RemoveAcl(w, n, g, env).devices)
    ensures SameKeys(w.devices, RemoveAllAcl(w, n, env).devices)
  {
    hide HasGroup, EnsureGroup, RemoveGroup, RemoveAllGroups, SameKeys;
    SameItself(w.devices);
    if n in w.devices {
      var d := w.devices[n];
      PutIsOne(w.devices, n, d.(acl := EnsureGroup(d.acl, g)));
      PutIsOne(w.devices, n, d.(acl := EnsureGroup([], g)));
      PutIsOne(w.devices, n, d.(acl := RemoveGroup(d.acl, g)));
      PutIsOne(w.devices, n, d.(acl := RemoveAllGroups(d.acl)));
    }
  }

  // Steps 6 to 8 of group_add.
  lemma JoinFrame(w: World, n: NodeId, ep: Endpoint, g: GroupId, env: Env)
    ensures var r := JoinGroup(w, n, ep, g, env);
      && SameKeys(w.devices, r.world.devices)
      && r.world.store == w.store && r.world.tracker == w.tracker && r.world.kvs == w.kvs
      && r.outcome == (if Reach(w, n, MemberAdd, env) then Done else CallFailed)
      && r.world.provisioned ==
           (if r.outcome == Done then w.provisioned[g := ProvisionedOf(w, g) + {n}] else w.provisioned)
  {
    hide EnsureAcl, AddMember, SameKeys;
    SameItself(w.devices);
    if Reach(w, n, MemberAdd, env) { MemberAclFrame(w, n, ep, AddMember(TableOf(w.devices[n], ep), g), g, env); }
  }

  lemma MemberAclFrame(w: World, n: NodeId, ep: Endpoint, t: GroupTable, g: GroupId, env: Env)
    requires n in w.devices
    ensures SameKeys(w.devices, EnsureAcl(w, n, g, env).devices)
    ensures SameKeys(w.devices, EnsureAcl(PutTable(w, n, ep, t), n, g, env).devices)
  {
    hide EnsureAcl, SameKeys;
    var w1 := PutTable(w, n, ep, t);
    PutIsOne(w.devices, n, w.devices[n].(tables := w.devices[n].tables[ep := t]));
    AclFrame(w, n, g, env);
    AclFrame(w1, n, g, env);
    SameThrough(w.devices, w1.devices, EnsureAcl(w1, n, g, env).devices);
  }

  /* ---- Keysets and GroupKeyMap of one node ---- */

  lemma StripFrame(w: World, n: NodeId, groups: set<GroupId>, env: Env)
    ensures StripKeyMap(w, n, groups, env).Some? ==>
      var w' := StripKeyMap(w, n, groups, env).value;
      && SameKeysets(w.devices, w'.devices) && OneDevice(w.devices, w'.devices, n) && n in w'.devices
      && w'.devices[n].keyMap ==
           if KeyMapWrite in env.refused then w.devices[n].keyMap else Without(ReadKeyMap(w, n, 0, env), groups)
  {
    hide Without, ReadKeyMap;
  }

  lemma BindFrame(w: World, n: NodeId, g: GroupId, keyset: KeysetId, env: Env)
    ensures BindOnDevice(w, n, g, keyset, env).Some? ==>
      var w' := BindOnDevice(w, n, g, keyset, env).value;
      && SameKeysets(w.devices, w'.devices) && OneDevice(w.devices, w'.devices, n) && n in w'.devices
      && w'.devices[n].keyMap ==
           if KeyMapWrite in env.refused then w.devices[n].keyMap else Bind(ReadKeyMap(w, n, 3, env), g, keyset)
  {
    hide Bind, ReadKeyMap;
  }

  // group_bind_key_set gets its binding onto the device.
  ghost predicate Rebinds(w: World, n: NodeId, env: Env) {
    Reach(w, n, KeyMapRead(0), env) && !env.noAttributes && Effective(w, n, KeyMapWrite, env)
  }

  function MapBound(d: Device, g: GroupId, keyset: KeysetId, binds: bool): seq<KeyMapEntry> {
    if binds then Bind(d.keyMap, g, keyset) else d.keyMap
  }

  lemma BindKeysetFrame(w: World, n: NodeId, g: GroupId, keyset: KeysetId, env: Env)
    ensures var w' := BindKeyset(w, n, g, keyset, env).world;
      && SameKeysets(w.devices, w'.devices) && OneDevice(w.devices, w'.devices, n)
      && (n in w.devices ==> w'.devices[n].keyMap == MapBound(w.devices[n], g, keyset, Rebinds(w, n, env)))
  {
    hide Bind;
  }

  // One KeySetWrite.
  lemma AddKeysetFrame(w: World, n: NodeId, keyset: KeysetId, key: Key, attempt: nat, env: Env)
    ensures var (w', status) := AddKeyset(w, n, keyset, key, attempt, env);
      && StoreKept(w, w') && OneDevice(w.devices, w'.devices, n)
      && (status != Written ==> w' == w)
      && (status == Written ==> n in w.devices && w'.devices[n] == Overwrite(w.devices[n], keyset, key))
      && (status == Exhausted ==> n in w.devices && keyset !in w.devices[n].keysets)
  {
    hide OneDevice, Overwrite;
    SameItself(w.devices);
    SameIsOne(w.devices, w.devices, n);
    if n in w.devices { PutIsOne(w.devices, n, Overwrite(w.devices[n], keyset, key)); }
  }

  // The keysets a cleanup removes.
  function CleanedUp(w: World, n: NodeId, env: Env): set<KeysetId> {
    RemovableOf(w, n, Orphaned(w, n, env), env)
  }

  lemma RemoveTrackedFrame(w: World, n: NodeId, gone: set<KeysetId>)
    requires gone != {} ==> n in w.devices
    ensures var w' := RemoveTracked(w, n, gone);
      && StoreKept(w, w') && OneDevice(w.devices, w'.devices, n)
      && (n in w.devices ==> w'.devices[n] == RemoveKeysets(w.devices[n], gone))
  {
    hide OneDevice, RemoveKeysets;
    SameItself(w.devices);
    SameIsOne(w.devices, w.devices, n);
    if n in w.devices {
      PutIsOne(w.devices, n, RemoveKeysets(w.devices[n], gone));
      RemoveNothing(w.devices[n]);
    }
  }

  lemma RemoveNothing(d: Device)
    ensures RemoveKeysets(d, {}) == d
  {
    assert d.keysets - {} == d.keysets;
  }

  lemma CleanupFrame(w: World, n: NodeId, env: Env)
    ensures var w' := Cleanup(w, n, env).0;
      && StoreKept(w, w') && OneDevice(w.devices, w'.devices, n)
      && (n in w.devices ==> w'.devices[n] == RemoveKeysets(w.devices[n], CleanedUp(w, n, env)))
  {
    hide OneDevice, RemoveKeysets, RemoveTracked, Orphaned;
    RemoveTrackedFrame(w, n, CleanedUp(w, n, env));
  }
}
