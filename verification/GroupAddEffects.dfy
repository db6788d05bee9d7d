/** What one group_add does to the group table and the ACL of the device it is sent to. */
module GroupAddEffects {
  import opened Wrappers
  import opened Minimum
  import opened KeyChain
  import opened Devices
  import opened GroupProtocol
  import opened Filters
  import opened GroupEffects

  /* ---- Keys ---- */

  function WithKeysOf(d: Device, d': Device): Device {
    d.(keysets := d'.keysets, keyMap := d'.keyMap, foreign := d'.foreign)
  }

  // Keysets and GroupKeyMap of one device, and nothing else of any, may differ.
  ghost predicate KeysOnly(w: World, w': World, n: NodeId) {
    && w'.devices.Keys == w.devices.Keys && w'.provisioned == w.provisioned
    && forall m :: m in w.devices ==>
      w'.devices[m] == if m == n then WithKeysOf(w.devices[m], w'.devices[m]) else w.devices[m]
  }

  // The group's own keyset id and a key just drawn, unless the group has an entry.
  function Wanted(w: World, g: GroupId, env: Env): StoredKey {
    if g in w.store then w.store[g] else StoredKey(g % 0xFFFE + 1, env.freshKey)
  }

  function Keyed(w: World, g: GroupId, env: Env): World {
    w.(store := w.store[g := Wanted(w, g, env)])
  }

  // The keysets a cleanup removes.
  ghost function Gone(w: World, n: NodeId, env: Env): set<KeysetId>
    requires n in w.devices
  {
    set k | k in w.devices[n].keysets && Orphan(w, n, k, w.devices[n].keyMap, env)
  }

  // One entry for the group after all the others that could be read, where the map can be written.
  ghost predicate Bound(d: Device, d': Device, g: GroupId, keyset: KeysetId, env: Env) {
    d'.keyMap ==
      if KeyMapWrite in env.down || KeyMapWrite in env.refused then d.keyMap
      else Filter(if KeyMapRead(3) in env.down then [] else d.keyMap, NotMapping({g})) + [KeyMapEntry(g, keyset)]
  }

  function Tracking(w: World, n: NodeId): set<KeysetId> {
    if n in w.tracker then w.tracker[n] else {}
  }

  // The key is on the device, bound, and in the tracker.
  ghost predicate Installs(w: World, w': World, n: NodeId, g: GroupId, sk: StoredKey, gone: set<KeysetId>, env: Env)
    requires n in w.devices && n in w'.devices
  {
    var d, d' := w.devices[n], w'.devices[n];
    && d'.keysets == (d.keysets - gone)[sk.keyset := sk.key] && d'.foreign == d.foreign - {sk.keyset}
    && Bound(d, d', g, sk.keyset, env)
    && w'.tracker == w.tracker[n := Tracking(w, n) - gone + {sk.keyset}]
    && w'.store == w.store
  }

  // Nothing but what a cleanup removed is different.
  ghost predicate Cleans(w: World, w': World, n: NodeId, gone: set<KeysetId>)
    requires n in w.devices && n in w'.devices
  {
    && w'.devices[n].keysets == w.devices[n].keysets - gone && w'.devices[n].foreign == w.devices[n].foreign
    && w'.devices[n].keyMap == w.devices[n].keyMap
    && w'.tracker == (if n in w.tracker then w.tracker[n := w.tracker[n] - gone] else w.tracker)
    && w'.store == w.store
  }

  // A keyset of the store that the device's map names.
  ghost predicate CanReuse(w: World, n: NodeId, k: KeysetId, env: Env)
    requires n in w.devices
  {
    && KeyMapRead(2) !in env.down
    && (exists h :: h in w.store && w.store[h].keyset == k)
    && exists e :: e in w.devices[n].keyMap && e.keyset == k
  }

  // The group is bound to the least such keyset and shares the entry of a group that has it.
  ghost predicate TakesOver(w: World, w': World, n: NodeId, g: GroupId, gone: set<KeysetId>, winner: GroupId, env: Env)
    requires n in w.devices && n in w'.devices
  {
    var d, d' := w.devices[n], w'.devices[n];
    && g in w'.store && w'.store == w.store[g := w'.store[g]]
    && var k := w'.store[g].keyset;
    && CanReuse(w, n, k, env) && (forall x :: CanReuse(w, n, x, env) ==> k <= x)
    && (exists h :: h in w.store && w.store[h] == w'.store[g])
    && (winner in w.store && w.store[winner].keyset == k ==> w'.store[g] == w.store[winner])
    && d'.keysets == d.keysets - gone && d'.foreign == d.foreign && Bound(d, d', g, k, env)
    && w'.tracker.Keys == w.tracker.Keys + {n} && Tracking(w', n) == Tracking(w, n) - gone + {k}
    && forall m :: m in w.tracker && m != n ==> w'.tracker[m] == w.tracker[m]
  }

  predicate HasSlot(d: Device, keyset: KeysetId) {
    keyset in d.keysets || |d.keysets| < d.keysetCapacity
  }

  // The key cannot be written at first or after a cleanup, and there is none to reuse.
  ghost predicate Keyless(w: World, n: NodeId, keyset: KeysetId, env: Env)
    requires n in w.devices
  {
    && !Fails(w, n, keyset, env) && !HasSlot(w.devices[n], keyset)
    && (Gone(w, n, env) == {} || |w.devices[n].keysets - Gone(w, n, env)| >= w.devices[n].keysetCapacity)
    && forall k :: !CanReuse(w, n, k, env)
  }

  // A KeySetWrite that is made does not arrive.
  ghost predicate Fails(w: World, n: NodeId, keyset: KeysetId, env: Env)
    requires n in w.devices
  {
    || KeysetWrite(n, 0) in env.down
    || (!HasSlot(w.devices[n], keyset) && Gone(w, n, env) != {} && KeysetWrite(n, 1) in env.down)
  }

  /** All that provisioning can come to: the key written at once; or after a cleanup; or the least mapped
      keyset taken over; or nothing but, perhaps, a cleanup. */
  ghost predicate Provisions(w: World, w': World, n: NodeId, g: GroupId, sk: StoredKey, env: Env, winner: GroupId)
    requires n in w.devices && n in w'.devices
  {
    var d, gone := w.devices[n], Gone(w, n, env);
    if KeysetWrite(n, 0) in env.down then Cleans(w, w', n, {})
    else if HasSlot(d, sk.keyset) then Installs(w, w', n, g, sk, {}, env)
    else if gone != {} && KeysetWrite(n, 1) in env.down then Cleans(w, w', n, gone)
    else if gone != {} && |d.keysets - gone| < d.keysetCapacity then Installs(w, w', n, g, sk, gone, env)
    else if forall k :: !CanReuse(w, n, k, env) then Cleans(w, w', n, gone)
    else TakesOver(w, w', n, g, gone, winner, env)
  }

  lemma WriteStep(w: World, n: NodeId, sk: StoredKey, attempt: nat, env: Env)
    requires n in w.devices
    ensures var (w', status) := AddKeyset(w, n, sk.keyset, sk.key, attempt, env);
      && status == (if KeysetWrite(n, attempt) in env.down then Failed
                    else if HasSlot(w.devices[n], sk.keyset) then WriteStatus.Written else Exhausted)
      && (status != WriteStatus.Written ==> w' == w)
      && (status == WriteStatus.Written ==> var d := w.devices[n];
            && w'.devices == w.devices[n := d.(keysets := d.keysets[sk.keyset := sk.key],
                                               foreign := d.foreign - {sk.keyset})]
            && w'.tracker == w.tracker[n := Tracking(w, n) + {sk.keyset}]
            && w'.store == w.store && w'.provisioned == w.provisioned)
  {
  }

  lemma CleanStep(w: World, n: NodeId, env: Env)
    requires n in w.devices
    ensures var (w', cleaned) := Cleanup(w, n, env); var gone := Gone(w, n, env);
      && (cleaned > 0 <==> gone != {})
      && n in w'.devices && Cleans(w, w', n, gone) && KeysOnly(w, w', n)
      && gone <= w.devices[n].keysets.Keys
  {
    hide RemovableOf, Orphaned, Orphan, RemoveTracked;
    OrphansGo(w, n, env);
    var gone := RemovableOf(w, n, Orphaned(w, n, env), env);
    assert gone == Gone(w, n, env);
    RemoveStep(w, n, gone);
  }

  lemma BindStep(w: World, n: NodeId, g: GroupId, keyset: KeysetId, env: Env)
    requires n in w.devices
    ensures var b := BindOnDevice(w, n, g, keyset, env);
      && (b.None? <==> KeyMapWrite in env.down)
      && (b.None? ==> Bound(w.devices[n], w.devices[n], g, keyset, env))
      && (b.Some? ==>
            && n in b.value.devices && b.value == w.(devices := b.value.devices)
            && b.value.devices == w.devices[n := w.devices[n].(keyMap := b.value.devices[n].keyMap)]
            && Bound(w.devices[n], b.value.devices[n], g, keyset, env))
  {
    hide Filter, Without;
    WithoutFilters(w.devices[n].keyMap, {g});
    WithoutFilters([], {g});
    assert w.devices == w.devices[n := w.devices[n]];
  }

  // Writing, then binding.
  lemma InstallsStep(w: World, w1: World, w2: World, n: NodeId, g: GroupId, sk: StoredKey, gone: set<KeysetId>,
                     env: Env)
    requires n in w.devices && n in w1.devices && Cleans(w, w1, n, gone) && KeysOnly(w, w1, n)
    requires var d := w1.devices[n];
      && w2.devices == w1.devices[n := d.(keysets := d.keysets[sk.keyset := sk.key],
                                          foreign := d.foreign - {sk.keyset})]
      && w2.tracker == w1.tracker[n := Tracking(w1, n) + {sk.keyset}]
      && w2.store == w1.store && w2.provisioned == w1.provisioned
    ensures var p := FinishProvision(w2, n, g, sk.keyset, None, env); var w' := p.world;
      p.outcome != Invalid && n in w'.devices && Installs(w, w', n, g, sk, gone, env) && KeysOnly(w, w', n)
  {
    hide BindOnDevice, Bound;
    BindStep(w2, n, g, sk.keyset, env);
    TrackedTwice(w, w1, n, gone, sk.keyset);
    var w' := FinishProvision(w2, n, g, sk.keyset, None, env).world;
    SameBinds(w.devices[n], w2.devices[n], w'.devices[n], g, sk.keyset, env);
  }

  lemma TrackedTwice(w: World, w1: World, n: NodeId, gone: set<KeysetId>, keyset: KeysetId)
    requires w1.tracker == if n in w.tracker then w.tracker[n := w.tracker[n] - gone] else w.tracker
    ensures w1.tracker[n := Tracking(w1, n) + {keyset}] == w.tracker[n := Tracking(w, n) - gone + {keyset}]
  {
    assert Tracking(w1, n) == Tracking(w, n) - gone;
  }

  lemma SameBinds(d: Device, d1: Device, d': Device, g: GroupId, keyset: KeysetId, env: Env)
    requires d1.keyMap == d.keyMap && Bound(d1, d', g, keyset, env)
    ensures Bound(d, d', g, keyset, env)
  {
  }

  lemma ReusableIs(w: World, w1: World, n: NodeId, gone: set<KeysetId>, env: Env)
    requires n in w.devices && n in w1.devices && Cleans(w, w1, n, gone)
    ensures forall k :: k in Reusable(w1, n, env) <==> CanReuse(w, n, k, env)
  {
  }

  lemma TakesOverStep(w: World, w1: World, n: NodeId, g: GroupId, gone: set<KeysetId>, env: Env, winner: GroupId)
    requires n in w.devices && n in w1.devices && Cleans(w, w1, n, gone) && KeysOnly(w, w1, n)
    requires g in w.store && Reusable(w1, n, env) != {}
    ensures var k := Min(Reusable(w1, n, env));
      var w2 := Remap(w1, n, g, w1.store[PickWinner(w1.store, k, winner)], env);
      var p := FinishProvision(w2, n, g, k, Some(k), env); var w' := p.world;
      p.outcome != Invalid && n in w'.devices && TakesOver(w, w', n, g, gone, winner, env) && KeysOnly(w, w', n)
  {
    hide BindOnDevice, Bound, CanReuse, Reusable, Remap;
    ReusableIs(w, w1, n, gone, env);
    var k := Min(Reusable(w1, n, env));
    var donor := PickWinner(w1.store, k, winner);
    var w2 := Remap(w1, n, g, w1.store[donor], env);
    RemapStep(w1, n, g, w1.store[donor], env);
    BindStep(w2, n, g, k, env);
    var w' := FinishProvision(w2, n, g, k, Some(k), env).world;
    SameBinds(w.devices[n], w2.devices[n], w'.devices[n], g, k, env);
  }

  lemma RemapStep(w: World, n: NodeId, g: GroupId, sk: StoredKey, env: Env)
    ensures var w' := Remap(w, n, g, sk, env);
      && w'.devices == w.devices && w'.provisioned == w.provisioned && w'.store == w.store[g := sk]
      && w'.tracker.Keys == w.tracker.Keys + {n} && Tracking(w', n) == Tracking(w, n) + {sk.keyset}
      && forall m :: m in w.tracker && m != n ==> w'.tracker[m] == w.tracker[m]
  {
    hide InjectPrefix;
  }

  lemma ProvisionStep(w: World, n: NodeId, g: GroupId, sk: StoredKey, env: Env, winner: GroupId)
    requires n in w.devices && g in w.store
    ensures var p := Provision(w, n, g, sk, env, winner);
      && n in p.world.devices && KeysOnly(w, p.world, n)
      && (p.outcome == Invalid <==> Keyless(w, n, sk.keyset, env))
      && Provisions(w, p.world, n, g, sk, env, winner)
  {
    hide AddKeyset, Cleanup, Reusable, Remap, FinishProvision, Gone, CanReuse, Installs, TakesOver, HasSlot, Cleans,
         KeysOnly;
    WriteStep(w, n, sk, 0, env);
    CleansNothing(w, n);
    var (w0, s0) := AddKeyset(w, n, sk.keyset, sk.key, 0, env);
    if s0 == WriteStatus.Written {
      InstallsStep(w, w, w0, n, g, sk, {}, env);
    } else if s0 == Exhausted {
      CleanStep(w, n, env);
      var w1 := Cleanup(w, n, env).0;
      WriteStep(w1, n, sk, 1, env);
      SlotAfter(w, w1, n, sk.keyset, Gone(w, n, env));
      ReusableIs(w, w1, n, Gone(w, n, env), env);
      var (w2, s1) := AddKeyset(w1, n, sk.keyset, sk.key, 1, env);
      if Gone(w, n, env) != {} && s1 == WriteStatus.Written {
        InstallsStep(w, w1, w2, n, g, sk, Gone(w, n, env), env);
      } else if Reusable(w1, n, env) != {} {
        TakesOverStep(w, w1, n, g, Gone(w, n, env), env, winner);
      }
    }
  }

  lemma CleansNothing(w: World, n: NodeId)
    requires n in w.devices
    ensures Cleans(w, w, n, {}) && KeysOnly(w, w, n)
  {
    assert w.devices[n].keysets - {} == w.devices[n].keysets;
    if n in w.tracker { assert w.tracker[n] - {} == w.tracker[n] && w.tracker == w.tracker[n := w.tracker[n]]; }
  }

  lemma SlotAfter(w: World, w1: World, n: NodeId, keyset: KeysetId, gone: set<KeysetId>)
    requires n in w.devices && n in w1.devices && Cleans(w, w1, n, gone) && KeysOnly(w, w1, n)
    requires !HasSlot(w.devices[n], keyset)
    ensures HasSlot(w1.devices[n], keyset) <==> |w.devices[n].keysets - gone| < w.devices[n].keysetCapacity
  {
  }

  /* ---- Group table and ACL ---- */

  // group_add gets as far as provisioning: the endpoint has a Groups cluster, and room or an oldest group
  // that can be told to go.
  predicate Begins(d: Device, ep: Endpoint, g: GroupId, env: Env) {
    && ServerListRead !in env.down && ep in d.tables && MembershipGet !in env.down
    && var t := d.tables[ep];
       || g in t.members || !env.capacityKnown || |t.members| < t.capacity
       || (t.members != [] && OldestEvict !in env.down)
  }

  function AfterEviction(t: GroupTable, g: GroupId, env: Env): seq<GroupId> {
    if g in t.members || !env.capacityKnown || |t.members| < t.capacity || OldestEvict in env.refused || t.members == []
    then t.members else Filter(t.members, Other(t.members[0]))
  }

  function AfterAdding(t: GroupTable, g: GroupId, env: Env): seq<GroupId> {
    var members := AfterEviction(t, g, env);
    if MemberAdd in env.refused || g in members || |members| >= t.capacity then members else members + [g]
  }

  // What the ACL read tells; the grant is appended unless it is there.
  ghost function AfterGranting(acl: seq<AclEntry>, g: GroupId, env: Env): seq<AclEntry> {
    var told := if env.noAttributes then [] else acl;
    if AclRead in env.down || AclWrite in env.down || AclWrite in env.refused
       || exists e :: e in told && e.auth == Group && g in e.subjects
    then acl else told + [AclEntry(3, Group, [g], [])]
  }

  lemma KeyStep(w: World, g: GroupId, env: Env)
    ensures var w' := WithGroupKey(w, g, env);
      && w'.devices == w.devices && w'.tracker == w.tracker && w'.provisioned == w.provisioned
      && w'.store == w.store[g := Wanted(w, g, env)]
  {
    hide InjectPrefix;
    if g in w.store { assert w.store == w.store[g := w.store[g]]; }
  }

  lemma RoomStep(w: World, n: NodeId, ep: Endpoint, g: GroupId, env: Env)
    requires n in w.devices && ep in w.devices[n].tables && ServerListRead !in env.down
    ensures var r := MakeRoom(w, n, ep, g, env);
      && (r.outcome == Done <==> Begins(w.devices[n], ep, g, env))
      && (r.outcome != Done ==> r.world == w)
      && (r.outcome == Done ==> var t := w.devices[n].tables[ep];
            r.world.devices == w.devices[n := w.devices[n].(
              tables := w.devices[n].tables[ep := GroupTable(AfterEviction(t, g, env), t.capacity)])])
  {
    hide Filter, Drop;
    var d := w.devices[n];
    var t := d.tables[ep];
    assert d.tables == d.tables[ep := t] && w.devices == w.devices[n := d];
    if t.members != [] { DropFilters(t.members, {t.members[0]}, Other(t.members[0])); }
  }

  lemma PrepareStep(w: World, n: NodeId, ep: Endpoint, g: GroupId, env: Env)
    requires n in w.devices
    ensures var r := Prepare(w, n, ep, g, env);
      var w' := r.world;
      && (r.outcome == Done <==> Begins(w.devices[n], ep, g, env))
      && (r.outcome == Done ==> var t := w.devices[n].tables[ep];
            && w'.devices == w.devices[n := w.devices[n].(
                 tables := w.devices[n].tables[ep := GroupTable(AfterEviction(t, g, env), t.capacity)])]
            && w'.store == w.store[g := Wanted(w, g, env)])
      && (r.outcome != Done ==>
            && w'.devices == w.devices
            && w'.store == (if ServerListRead !in env.down && ep in w.devices[n].tables
                            then w.store[g := Wanted(w, g, env)] else w.store))
      && w'.tracker == w.tracker && w'.provisioned == w.provisioned
  {
    hide WithGroupKey, MakeRoom, AfterEviction;
    KeyStep(w, g, env);
    if SupportsGroups(w, n, ep, env) { RoomStep(WithGroupKey(w, g, env), n, ep, g, env); }
  }

  // The devices after AddGroup and the grant.
  ghost function Joined(w: World, n: NodeId, ep: Endpoint, g: GroupId, env: Env): map<NodeId, Device>
    requires n in w.devices && ep in w.devices[n].tables
  {
    var d, t := w.devices[n], w.devices[n].tables[ep];
    var members := if MemberAdd in env.refused || g in t.members || |t.members| >= t.capacity then t.members
      else t.members + [g];
    w.devices[n := d.(tables := d.tables[ep := GroupTable(members, t.capacity)], acl := AfterGranting(d.acl, g, env))]
  }

  lemma JoinStep(w: World, n: NodeId, ep: Endpoint, g: GroupId, env: Env)
    requires n in w.devices && ep in w.devices[n].tables
    ensures var r := JoinGroup(w, n, ep, g, env);
      var w' := r.world;
      && r.outcome == (if MemberAdd in env.down then CallFailed else Done)
      && (r.outcome != Done ==> w' == w)
      && w'.store == w.store && w'.tracker == w.tracker
      && (r.outcome == Done ==>
            && w'.devices == Joined(w, n, ep, g, env)
            && w'.provisioned == w.provisioned[g := (if g in w.provisioned then w.provisioned[g] else {}) + {n}])
  {
    var d := w.devices[n];
    assert d.tables == d.tables[ep := d.tables[ep]] && w.devices == w.devices[n := d];
  }

  /** The whole of group_add. Once begun, the keys are provisioned, one way or the other. It returns normally
      exactly if it began, was not stuck without a key for the device, and AddGroup arrived. Then the group
      is on the endpoint if there is room, granted in the access control list, and the node is recorded;
      otherwise neither list nor record is touched. */
  lemma AddEffects(w: World, n: NodeId, ep: Endpoint, g: GroupId, env: Env, winner: GroupId)
    requires n in w.devices
    ensures var r := Execute(w, Add(n, ep, g, env, winner));
      var w' := r.world; var d := w.devices[n];
      && OnlyNode(w, w', n)
      && (r.outcome == Done <==>
            && Begins(d, ep, g, env) && !Keyless(Keyed(w, g, env), n, Wanted(w, g, env).keyset, env)
            && MemberAdd !in env.down)
      && (Begins(d, ep, g, env) ==> Provisions(Keyed(w, g, env), w', n, g, Wanted(w, g, env), env, winner))
      && (r.outcome == Done ==>
            && w'.devices[n].tables ==
                 d.tables[ep := GroupTable(AfterAdding(d.tables[ep], g, env), d.tables[ep].capacity)]
            && w'.devices[n].acl == AfterGranting(d.acl, g, env)
            && w'.provisioned == w.provisioned[g := (if g in w.provisioned then w.provisioned[g] else {}) + {n}])
      && (r.outcome != Done ==> w'.devices[n].acl == d.acl && w'.provisioned == w.provisioned)
      && (!Begins(d, ep, g, env) ==>
            && w'.devices == w.devices && w'.tracker == w.tracker
            && w'.store == (if ServerListRead !in env.down && ep in d.tables then Keyed(w, g, env).store else w.store))
  {
    hide Prepare, Provision, JoinGroup, Begins, Provisions, Keyless, AfterEviction, AfterAdding, AfterGranting,
         KeysOnly, Joined;
    PrepareStep(w, n, ep, g, env);
    var prepared := Prepare(w, n, ep, g, env);
    if prepared.outcome == Done {
      var w1 := prepared.world;
      var sk := Wanted(w, g, env);
      ProvisionStep(w1, n, g, sk, env, winner);
      var p := Provision(w1, n, g, sk, env, winner);
      KeysOnlyAt(w1, p.world, n);
      BeginsThere(w.devices[n], ep, g, env);
      JoinStep(p.world, n, ep, g, env);
      var w' := Execute(w, Add(n, ep, g, env, winner)).world;
      AddParts(w, w1, p.world, w', n, ep, g, env, Execute(w, Add(n, ep, g, env, winner)).outcome == Done);
      SameProvisions(Keyed(w, g, env), w1, p.world, w', n, g, sk, env, winner);
    }
  }

  // What provisioning node n looks at and changes.
  ghost predicate SameSight(w: World, w1: World, n: NodeId) {
    && n in w.devices && n in w1.devices && w1.store == w.store && w1.tracker == w.tracker
    && var d, d1 := w.devices[n], w1.devices[n];
       d1.keysets == d.keysets && d1.keyMap == d.keyMap && d1.foreign == d.foreign
       && d1.keysetCapacity == d.keysetCapacity
  }

  lemma SameProvisions(k: World, w1: World, p: World, w': World, n: NodeId, g: GroupId, sk: StoredKey, env: Env,
                       winner: GroupId)
    requires SameSight(k, w1, n) && SameSight(w', p, n)
    ensures Provisions(w1, p, n, g, sk, env, winner) ==> Provisions(k, w', n, g, sk, env, winner)
    ensures Keyless(w1, n, sk.keyset, env) <==> Keyless(k, n, sk.keyset, env)
  {
    hide Gone, CanReuse, Installs, Cleans, TakesOver;
    SameGone(k, w1, n, env);
    SameReuse(k, w1, n, env);
    var gone := Gone(k, n, env);
    SameInstalls(k, w1, p, w', n, g, sk, {}, env);
    SameInstalls(k, w1, p, w', n, g, sk, gone, env);
    SameTakeOver(k, w1, p, w', n, g, {}, env, winner);
    SameTakeOver(k, w1, p, w', n, g, gone, env, winner);
  }

  lemma SameReuse(k: World, w1: World, n: NodeId, env: Env)
    requires SameSight(k, w1, n)
    ensures forall x :: CanReuse(w1, n, x, env) <==> CanReuse(k, n, x, env)
  {
  }

  lemma SameInstalls(k: World, w1: World, p: World, w': World, n: NodeId, g: GroupId, sk: StoredKey,
                     gone: set<KeysetId>, env: Env)
    requires SameSight(k, w1, n) && SameSight(w', p, n)
    ensures Installs(w1, p, n, g, sk, gone, env) ==> Installs(k, w', n, g, sk, gone, env)
  {
    hide Filter;
  }

  lemma SameTakeOver(k: World, w1: World, p: World, w': World, n: NodeId, g: GroupId, gone: set<KeysetId>, env: Env,
                     winner: GroupId)
    requires SameSight(k, w1, n) && SameSight(w', p, n)
    ensures Cleans(w1, p, n, gone) ==> Cleans(k, w', n, gone)
    ensures TakesOver(w1, p, n, g, gone, winner, env) ==> TakesOver(k, w', n, g, gone, winner, env)
  {
    hide Filter, CanReuse;
    SameReuse(k, w1, n, env);
  }

  // Tracker entries of other nodes are not touched.
  lemma TrackerElsewhere(w: World, w': World, n: NodeId, g: GroupId, sk: StoredKey, env: Env, winner: GroupId,
                         m: NodeId)
    requires n in w.devices && n in w'.devices && Provisions(w, w', n, g, sk, env, winner) && m != n
    ensures SameTracker(w, w', m)
  {
    hide Gone, CanReuse, HasSlot, Installs, Cleans, TakesOver, SameTracker;
    PiecesTracked(w, w', n, g, sk, {}, env, winner, m);
    PiecesTracked(w, w', n, g, sk, Gone(w, n, env), env, winner, m);
  }

  lemma PiecesTracked(w: World, w': World, n: NodeId, g: GroupId, sk: StoredKey, gone: set<KeysetId>, env: Env,
                      winner: GroupId, m: NodeId)
    requires n in w.devices && n in w'.devices && m != n
    ensures Installs(w, w', n, g, sk, gone, env) ==> SameTracker(w, w', m)
    ensures Cleans(w, w', n, gone) ==> SameTracker(w, w', m)
    ensures TakesOver(w, w', n, g, gone, winner, env) ==> SameTracker(w, w', m)
  {
    hide CanReuse, Bound;
  }

  lemma KeysOnlyElsewhere(w: World, w': World, n: NodeId, m: NodeId)
    requires KeysOnly(w, w', n) && m in w.devices && m != n
    ensures m in w'.devices && w'.devices[m] == w.devices[m]
  {
  }

  lemma KeysOnlyAt(w: World, w': World, n: NodeId)
    requires KeysOnly(w, w', n) && n in w.devices
    ensures n in w'.devices && w'.provisioned == w.provisioned && w'.devices[n].tables == w.devices[n].tables
    ensures w'.devices[n].keysetCapacity == w.devices[n].keysetCapacity && w'.devices[n].acl == w.devices[n].acl
  {
  }

  lemma BeginsThere(d: Device, ep: Endpoint, g: GroupId, env: Env)
    requires Begins(d, ep, g, env)
    ensures ep in d.tables
  {
  }

  // The device of node n afterwards: the parts were written by one step each.
  lemma AddParts(w: World, w1: World, p: World, w': World, n: NodeId, ep: Endpoint, g: GroupId, env: Env, joined: bool)
    requires n in w.devices && ep in w.devices[n].tables && n in w1.devices && n in p.devices
    requires var t := w.devices[n].tables[ep];
      w1.devices == w.devices[n := w.devices[n].(
        tables := w.devices[n].tables[ep := GroupTable(AfterEviction(t, g, env), t.capacity)])]
    requires KeysOnly(w1, p, n)
    requires ep in p.devices[n].tables && w'.devices == if joined then Joined(p, n, ep, g, env) else p.devices
    ensures OnlyNode(w, w', n)
    ensures !joined ==> w'.devices[n].acl == w.devices[n].acl
    ensures joined ==>
        && w'.devices[n].acl == AfterGranting(w.devices[n].acl, g, env)
        && w'.devices[n].tables == w.devices[n].tables[ep :=
             GroupTable(AfterAdding(w.devices[n].tables[ep], g, env), w.devices[n].tables[ep].capacity)]
    ensures w'.devices[n].keysets == p.devices[n].keysets && w'.devices[n].keyMap == p.devices[n].keyMap
    ensures w'.devices[n].foreign == p.devices[n].foreign
    ensures w'.devices[n].keysetCapacity == p.devices[n].keysetCapacity
  {
    hide AfterEviction, AfterGranting;
  }

  lemma SameGone(k: World, w1: World, n: NodeId, env: Env)
    requires n in k.devices && n in w1.devices && w1.store == k.store && w1.tracker == k.tracker
    requires w1.devices[n].keysets == k.devices[n].keysets && w1.devices[n].keyMap == k.devices[n].keyMap
    ensures Gone(w1, n, env) == Gone(k, n, env)
  {
    forall x ensures Candidate(w1, n, x, env) <==> Candidate(k, n, x, env) { }
    hide Candidate;
  }

  /* ---- What that means for a well-behaved device ---- */

  function FifoMembers(t: GroupTable, g: GroupId): seq<GroupId> {
    if g in t.members then t.members
    else if |t.members| < t.capacity || t.members == [] then t.members + [g]
    else t.members[1..] + [g]
  }

  lemma FifoFits(t: GroupTable, g: GroupId)
    requires NoRepeats(t.members) && |t.members| <= t.capacity && (t.members != [] || t.capacity > 0)
    ensures NoRepeats(FifoMembers(t, g)) && |FifoMembers(t, g)| <= t.capacity && g in FifoMembers(t, g)
  {
    var members := FifoMembers(t, g);
    assert g !in t.members ==> members[|members| - 1] == g;
  }

  lemma AddingIsFifo(t: GroupTable, g: GroupId, env: Env)
    requires env.capacityKnown && OldestEvict !in env.refused && MemberAdd !in env.refused
    requires NoRepeats(t.members) && |t.members| <= t.capacity && (t.members != [] || t.capacity > 0)
    ensures AfterAdding(t, g, env) == FifoMembers(t, g)
  {
    hide Filter;
    if t.members != [] {
      DropOldest(t.members);
      DropFilters(t.members, {t.members[0]}, Other(t.members[0]));
    }
  }

  /** When the capacity is reported and the device carries out what it is told, group_add leaves the
      endpoint's group list as it was (a member), extends it (a free slot) or replaces its oldest entry
      (full), and touches no other endpoint. */
  lemma AddIsFifo(w: World, n: NodeId, ep: Endpoint, g: GroupId, env: Env, winner: GroupId)
    requires n in w.devices && ep in w.devices[n].tables && env.capacityKnown
    requires OldestEvict !in env.refused && MemberAdd !in env.refused
    requires NoRepeats(w.devices[n].tables[ep].members)
      && |w.devices[n].tables[ep].members| <= w.devices[n].tables[ep].capacity
    ensures AddToGroup(w, n, ep, g, env, winner).outcome == Done ==>
      var t, w' := w.devices[n].tables[ep], AddToGroup(w, n, ep, g, env, winner).world;
      && n in w'.devices
      && w'.devices[n].tables == w.devices[n].tables[ep := GroupTable(FifoMembers(t, g), t.capacity)]
      && NoRepeats(FifoMembers(t, g)) && g in FifoMembers(t, g) && |FifoMembers(t, g)| <= t.capacity
  {
    hide AddToGroup, FifoMembers, AfterAdding, NoRepeats, Provisions, Keyless, AfterGranting;
    AddEffects(w, n, ep, g, env, winner);
    if AddToGroup(w, n, ep, g, env, winner).outcome == Done {
      AddingIsFifo(w.devices[n].tables[ep], g, env);
      FifoFits(w.devices[n].tables[ep], g);
    }
  }

  /** The grant of a group_add keeps what was there exactly when the read returned attributes: a read
      without attributes counts as an empty list, and then one grant replaces the whole list, unless the list
      was empty or that very grant. */
  lemma EnsureAclKeepsIff(w: World, n: NodeId, ep: Endpoint, g: GroupId, env: Env, winner: GroupId)
    requires n in w.devices && Execute(w, Add(n, ep, g, env, winner)).outcome == Done
    requires AclRead !in env.down && AclWrite !in env.down && AclWrite !in env.refused
    ensures n in Execute(w, Add(n, ep, g, env, winner)).world.devices
    ensures var acl, acl' := w.devices[n].acl, Execute(w, Add(n, ep, g, env, winner)).world.devices[n].acl;
      && HasGroup(acl', g)
      && (acl <= acl' <==> !env.noAttributes || acl == [] || acl == [AclEntry(3, Group, [g], [])])
      && (!env.noAttributes ==> acl' == EnsureGroup(acl, g))
  {
    hide Execute, AfterGranting, Provisions, Keyless, Begins, HasGroup, EnsureGroup;
    AddEffects(w, n, ep, g, env, winner);
    GrantingKeepsIff(w.devices[n].acl, g, env);
  }

  lemma GrantingKeepsIff(acl: seq<AclEntry>, g: GroupId, env: Env)
    requires AclRead !in env.down && AclWrite !in env.down && AclWrite !in env.refused
    ensures var acl' := AfterGranting(acl, g, env);
      && HasGroup(acl', g)
      && (acl <= acl' <==> !env.noAttributes || acl == [] || acl == [AclEntry(3, Group, [g], [])])
      && (!env.noAttributes ==> acl' == EnsureGroup(acl, g))
  {
    var grant := AclEntry(3, Group, [g], []);
    var acl' := AfterGranting(acl, g, env);
    assert GrantsGroup(grant, g);
    if env.noAttributes {
      assert acl' == [grant] && grant in acl';
      if acl <= [grant] && acl != [] { assert acl == [grant]; }
    } else if !HasGroup(acl, g) {
      assert grant in acl';
    } else {
      var e :| e in acl && GrantsGroup(e, g);
    }
  }
}
