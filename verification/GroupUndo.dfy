/** What a group_remove undoes of a group_add. */
module GroupUndo {
  import opened Filters
  import opened Devices
  import opened GroupProtocol
  import opened GroupEffects
  import opened GroupAddEffects

  // No call fails.
  predicate Smooth(env: Env) {
    env.down == {} && env.refused == {} && !env.noAttributes
  }

  // Nothing on the device speaks of the group.
  ghost predicate Unheard(d: Device, g: GroupId) {
    && (forall ep :: ep in d.tables ==> g !in d.tables[ep].members)
    && (forall e :: e in d.acl ==> !(e.auth == Group && g in e.subjects))
    && forall e :: e in d.keyMap ==> e.group != g
  }

  lemma {:induction false} FilterAll<T>(xs: seq<T>, keep: T -> bool)
    requires forall i :: 0 <= i < |xs| ==> keep(xs[i])
    ensures Filter(xs, keep) == xs
  {
    if xs != [] {
      var last := |xs| - 1;
      FilterAll(xs[..last], keep);
      assert xs == xs[..last] + [xs[last]];
    }
  }

  // All of `xs` is kept, and `x` is not.
  lemma FilterUndoes<T>(xs: seq<T>, x: T, keep: T -> bool)
    requires !keep(x) && forall i :: 0 <= i < |xs| ==> keep(xs[i])
    ensures Filter(xs + [x], keep) == xs && Filter(xs, keep) == xs
  {
    FilterAll(xs, keep);
    FilterAppend(xs, [x], keep);
    FilterOne(x, keep);
  }

  // The state of node n after group_add.
  lemma AddedDevice(w: World, n: NodeId, ep: Endpoint, g: GroupId, env: Env, winner: GroupId) returns (k: KeysetId)
    requires n in w.devices && Smooth(env) && Unheard(w.devices[n], g) && ep in w.devices[n].tables
    requires |w.devices[n].tables[ep].members| < w.devices[n].tables[ep].capacity
    requires Execute(w, Add(n, ep, g, env, winner)).outcome == Done
    ensures var d, w' := w.devices[n], Execute(w, Add(n, ep, g, env, winner)).world;
      && n in w'.devices && OnlyNode(w, w', n)
      && w'.devices[n].tables ==
           d.tables[ep := GroupTable(d.tables[ep].members + [g], d.tables[ep].capacity)]
      && w'.devices[n].acl == d.acl + [AclEntry(3, Group, [g], [])]
      && w'.devices[n].keyMap == d.keyMap + [KeyMapEntry(g, k)]
      && g in w'.provisioned && n in w'.provisioned[g]
  {
    hide Execute, Keyless, Filter, Provisions, Bound, AfterAdding, AfterGranting, Unheard;
    AddEffects(w, n, ep, g, env, winner);
    var d, w' := w.devices[n], Execute(w, Add(n, ep, g, env, winner)).world;
    k := ProvisionsBinds(Keyed(w, g, env), w', n, g, Wanted(w, g, env), env, winner);
    BoundAppends(d, w'.devices[n], g, k, env);
    AddsAtEnd(d, ep, g, env);
  }

  lemma AddsAtEnd(d: Device, ep: Endpoint, g: GroupId, env: Env)
    requires Smooth(env) && Unheard(d, g) && ep in d.tables && |d.tables[ep].members| < d.tables[ep].capacity
    ensures AfterAdding(d.tables[ep], g, env) == d.tables[ep].members + [g]
    ensures AfterGranting(d.acl, g, env) == d.acl + [AclEntry(3, Group, [g], [])]
  {
  }

  // Where nothing fails and there is a key, the map is bound to some keyset.
  lemma ProvisionsBinds(w: World, w': World, n: NodeId, g: GroupId, sk: StoredKey, env: Env, winner: GroupId)
    returns (k: KeysetId)
    requires n in w.devices && n in w'.devices && Smooth(env)
    requires Provisions(w, w', n, g, sk, env, winner) && !Keyless(w, n, sk.keyset, env)
    ensures Bound(w.devices[n], w'.devices[n], g, k, env)
  {
    hide Gone, CanReuse, HasSlot, Installs, Cleans, TakesOver, Bound;
    k := sk.keyset;
    if Installs(w, w', n, g, sk, {}, env) {
      InstallsBinds(w, w', n, g, sk, {}, env);
    } else if Installs(w, w', n, g, sk, Gone(w, n, env), env) {
      InstallsBinds(w, w', n, g, sk, Gone(w, n, env), env);
    } else {
      k := TakesOverBinds(w, w', n, g, Gone(w, n, env), winner, env);
    }
  }

  lemma InstallsBinds(w: World, w': World, n: NodeId, g: GroupId, sk: StoredKey, gone: set<KeysetId>, env: Env)
    requires n in w.devices && n in w'.devices && Installs(w, w', n, g, sk, gone, env)
    ensures Bound(w.devices[n], w'.devices[n], g, sk.keyset, env)
  {
    hide Bound;
  }

  lemma TakesOverBinds(w: World, w': World, n: NodeId, g: GroupId, gone: set<KeysetId>, winner: GroupId, env: Env)
    returns (k: KeysetId)
    requires n in w.devices && n in w'.devices && TakesOver(w, w', n, g, gone, winner, env)
    ensures Bound(w.devices[n], w'.devices[n], g, k, env)
  {
    hide Bound, CanReuse;
    k := w'.store[g].keyset;
  }

  lemma BoundAppends(d: Device, d': Device, g: GroupId, k: KeysetId, env: Env)
    requires Bound(d, d', g, k, env) && Smooth(env) && Unheard(d, g)
    ensures d'.keyMap == d.keyMap + [KeyMapEntry(g, k)]
  {
    hide Filter;
    FilterKeyMap(d.keyMap, g);
  }

  lemma FilterKeyMap(keyMap: seq<KeyMapEntry>, g: GroupId)
    requires forall e :: e in keyMap ==> e.group != g
    ensures Filter(keyMap, NotMapping({g})) == keyMap
  {
    FilterAll(keyMap, NotMapping({g}));
  }

  /** Where nothing fails, and the device did not speak of the group and had a free slot for it, removing the group
      from the node again undoes what adding it did there: group tables, access control list and GroupKeyMap are as
      they were, on every listed endpoint, and the node is not tracked for the group. */
  lemma RemoveUndoesAdd(w: World, n: NodeId, ep: Endpoint, g: GroupId, env: Env, winner: GroupId, env': Env)
    requires n in w.devices && Smooth(env) && Smooth(env') && Unheard(w.devices[n], g)
    requires ep in w.devices[n].tables && ep in w.devices[n].parts
    requires |w.devices[n].tables[ep].members| < w.devices[n].tables[ep].capacity
    requires Execute(w, Add(n, ep, g, env, winner)).outcome == Done
    ensures var d, added := w.devices[n], Execute(w, Add(n, ep, g, env, winner)).world;
      var r := Execute(added, Remove(n, g, env'));
      && added.devices[n].tables != d.tables && added.devices[n].acl != d.acl && added.devices[n].keyMap != d.keyMap
      && r.outcome == Done && n in r.world.devices
      && r.world.devices[n].tables == d.tables && r.world.devices[n].acl == d.acl
      && r.world.devices[n].keyMap == d.keyMap
      && g in r.world.provisioned && n !in r.world.provisioned[g]
  {
    hide Execute, Filter, Leaves, Unmaps, CleansUp;
    var d, added := w.devices[n], Execute(w, Add(n, ep, g, env, winner)).world;
    var k := AddedDevice(w, n, ep, g, env, winner);
    var d1 := added.devices[n];
    RemoveEffects(added, n, g, env');
    var d2 := Execute(added, Remove(n, g, env')).world.devices[n];
    LeavesUndone(d, d1, d2, ep, g, env');
    MapUndone(d, d1, d2, g, k, env');
    AclUndone(d, g);
  }

  lemma LeavesUndone(d: Device, d1: Device, d2: Device, ep: Endpoint, g: GroupId, env: Env)
    requires Smooth(env) && Unheard(d, g) && ep in d.tables && ep in d.parts && d1.parts == d.parts
    requires d1.tables == d.tables[ep := GroupTable(d.tables[ep].members + [g], d.tables[ep].capacity)]
    requires Leaves(d1, d2, {g}, env)
    ensures d2.tables == d.tables && d1.tables != d.tables
  {
    hide Filter;
    forall x | x in d.tables ensures d2.tables[x] == d.tables[x] {
      FilterUndoes(d.tables[x].members, g, Staying({g}, x, env));
    }
    assert |d1.tables[ep].members| == |d.tables[ep].members| + 1;
  }

  lemma MapUndone(d: Device, d1: Device, d2: Device, g: GroupId, k: KeysetId, env: Env)
    requires Smooth(env) && Unheard(d, g) && d1.keyMap == d.keyMap + [KeyMapEntry(g, k)] && Unmaps(d1, d2, {g}, env)
    ensures d2.keyMap == d.keyMap && |d1.keyMap| == |d.keyMap| + 1
  {
    hide Filter;
    FilterUndoes(d.keyMap, KeyMapEntry(g, k), NotMapping({g}));
  }

  lemma AclUndone(d: Device, g: GroupId)
    requires Unheard(d, g)
    ensures Filter(d.acl + [AclEntry(3, Group, [g], [])], NotGranting(g)) == d.acl
    ensures |d.acl + [AclEntry(3, Group, [g], [])]| == |d.acl| + 1
  {
    hide Filter;
    FilterUndoes(d.acl, AclEntry(3, Group, [g], []), NotGranting(g));
  }
}
