/** `MatterDeviceController`, as far as groups are concerned: the commands as they run, loop by loop and
    write by write, proved to do what `GroupProtocol` says. */
module GroupController {
  import opened Wrappers
  import opened Minimum
  import opened KeyChain
  import opened Devices
  import opened Cells
  import opened GroupProtocol
  import opened GroupReload
  import opened ChipController
  import Storage

  /* ---- One more iteration ---- */

  lemma RemoveTrackedStep(w: World, n: NodeId, gone: set<KeysetId>, k: KeysetId)
    requires n in w.devices && k in w.devices[n].keysets && k !in gone
    ensures n in RemoveTracked(w, n, gone).devices
    ensures RemoveTracked(RemoveTracked(w, n, gone), n, {k}) == RemoveTracked(w, n, gone + {k})
  {
    if gone == {} {
      assert gone + {k} == {k};
    } else {
      var w1 := RemoveTracked(w, n, gone);
      var d := w.devices[n];
      assert d.keysets - gone - {k} == d.keysets - (gone + {k});
      assert RemoveKeysets(w1.devices[n], {k}) == RemoveKeysets(d, gone + {k});
      if n in w.tracker {
        assert w1.tracker[n] - {k} == w.tracker[n] - (gone + {k});
        PutTwice(w, n, RemoveKeysets(d, gone), RemoveKeysets(d, gone + {k}), w.tracker[n] - gone,
          w.tracker[n] - (gone + {k}));
      } else {
        assert w.devices[n := RemoveKeysets(d, gone)][n := RemoveKeysets(d, gone + {k})]
          == w.devices[n := RemoveKeysets(d, gone + {k})];
      }
    }
  }

  lemma PutTwice(w: World, n: NodeId, d: Device, d': Device, s: set<KeysetId>, s': set<KeysetId>)
    ensures PutTracker(PutDevice(PutTracker(PutDevice(w, n, d), n, s), n, d'), n, s')
      == PutTracker(PutDevice(w, n, d'), n, s')
  {
    assert w.devices[n := d][n := d'] == w.devices[n := d'];
    assert w.tracker[n := s][n := s'] == w.tracker[n := s'];
    assert w.saved[TrackerCell(n) := Storage.Ids(s)][TrackerCell(n) := Storage.Ids(s')]
      == w.saved[TrackerCell(n) := Storage.Ids(s')];
  }

  lemma RemoveTrackedNone(w: World, n: NodeId)
    ensures RemoveTracked(w, n, {}) == w
  {
  }

  lemma RemoveTrackedOne(w: World, n: NodeId, k: KeysetId)
    requires n in w.devices
    ensures RemoveTracked(w, n, {k}) ==
      var w1 := PutDevice(w, n, RemoveKeysets(w.devices[n], {k}));
      if n in w.tracker then PutTracker(w1, n, w.tracker[n] - {k}) else w1
  {
  }

  lemma TrackedDevices(w: World, n: NodeId, gone: set<KeysetId>)
    requires gone != {} ==> n in w.devices
    ensures var w' := RemoveTracked(w, n, gone);
      && w'.devices.Keys == w.devices.Keys
      && (n in w.devices ==> w'.devices[n] == RemoveKeysets(w.devices[n], gone))
  {
    if n in w.devices { assert w.devices[n].keysets - {} == w.devices[n].keysets; }
  }

  lemma {:induction false} DropTwice(members: seq<GroupId>, a: set<GroupId>, b: set<GroupId>)
    ensures Drop(Drop(members, a), b) == Drop(members, a + b)
  {
    if members != [] {
      DropTwice(members[1..], a, b);
      var rest := Drop(members[1..], a);
      assert ([members[0]] + rest)[1..] == rest;
    }
  }

  // The tables of node n once the endpoints `eps` have dropped their groups.
  ghost function TablesLeft(w: World, n: NodeId, eps: set<Endpoint>, groups: set<GroupId>,
                            env: Env): map<Endpoint, GroupTable>
    requires n in w.devices
  {
    var tables := w.devices[n].tables;
    map ep | ep in tables :: if ep in eps then DropMembers(tables[ep], Dropped(w, n, ep, groups, env)) else tables[ep]
  }

  lemma LeftNone(w: World, n: NodeId, groups: set<GroupId>, env: Env)
    requires n in w.devices
    ensures PutDevice(w, n, w.devices[n].(tables := TablesLeft(w, n, {}, groups, env))) == w
  {
    assert TablesLeft(w, n, {}, groups, env) == w.devices[n].tables;
    assert w.devices[n := w.devices[n]] == w.devices;
  }

  lemma LeftKeys(w: World, n: NodeId, eps: set<Endpoint>, g: GroupId, env: Env)
    requires n in w.devices
    ensures TablesLeft(w, n, eps, {g}, env).Keys == w.devices[n].tables.Keys
  {
  }

  lemma DroppedOne(w: World, n: NodeId, ep: Endpoint, g: GroupId, env: Env)
    ensures Dropped(w, n, ep, {g}, env) == if Effective(w, n, MemberRemove(g, ep), env) then {g} else {}
  {
  }

  lemma LeftStep(w: World, n: NodeId, eps: set<Endpoint>, g: GroupId, ep: Endpoint, env: Env)
    requires n in w.devices && ep !in eps
    ensures var left := TablesLeft(w, n, eps, {g}, env);
      TablesLeft(w, n, eps + {ep}, {g}, env) ==
        if ep in w.devices[n].tables && Effective(w, n, MemberRemove(g, ep), env)
        then left[ep := DropMembers(left[ep], {g})]
        else left
  {
    hide Dropped, Drop, Effective;
    DroppedOne(w, n, ep, g, env);
    var left, more := TablesLeft(w, n, eps, {g}, env), TablesLeft(w, n, eps + {ep}, {g}, env);
    if ep in w.devices[n].tables { DropNone(w.devices[n].tables[ep].members, {}); }
    forall x | x in left
      ensures more[x] ==
        if x == ep && Effective(w, n, MemberRemove(g, ep), env) then DropMembers(left[x], {g}) else left[x]
    {
    }
  }

  lemma MembersNone(w: World, n: NodeId, env: Env)
    ensures RemoveMembers(w, n, {}, env) == w
  {
    if Reach(w, n, PartsRead, env) {
      var d := w.devices[n];
      forall ep | ep in d.tables ensures DropMembers(d.tables[ep], Dropped(w, n, ep, {}, env)) == d.tables[ep] {
        assert Dropped(w, n, ep, {}, env) == {};
        DropNone(d.tables[ep].members, {});
      }
      assert RemoveMembers(w, n, {}, env).devices[n].tables == d.tables;
      assert w.devices[n := d] == w.devices;
    }
  }

  lemma MembersStep(w: World, n: NodeId, groups: set<GroupId>, g: GroupId, env: Env)
    ensures RemoveMembers(RemoveMembers(w, n, groups, env), n, {g}, env) == RemoveMembers(w, n, groups + {g}, env)
  {
    hide Dropped, Drop;
    if Reach(w, n, PartsRead, env) {
      var w1 := RemoveMembers(w, n, groups, env);
      var a, b := RemoveMembers(w1, n, {g}, env).devices[n].tables,
        RemoveMembers(w, n, groups + {g}, env).devices[n].tables;
      forall ep | ep in a ensures a[ep] == b[ep] {
        DroppedMore(w, w1, n, ep, groups, g, env);
        DropTwice(w.devices[n].tables[ep].members, Dropped(w, n, ep, groups, env), Dropped(w1, n, ep, {g}, env));
      }
      assert a == b;
    }
  }

  lemma DroppedMore(w: World, w1: World, n: NodeId, ep: Endpoint, groups: set<GroupId>, g: GroupId, env: Env)
    requires w1.devices.Keys == w.devices.Keys
    ensures Dropped(w, n, ep, groups + {g}, env) == Dropped(w, n, ep, groups, env) + Dropped(w1, n, ep, {g}, env)
  {
  }

  lemma ForgetStep(w: World, n: NodeId, hit: set<GroupId>, g: GroupId, purge: bool)
    requires g !in hit
    ensures Forget(Forget(w, n, hit, purge), n, {g}, purge) == Forget(w, n, hit + {g}, purge)
  {
    hide SavedAfterForget;
    var w1 := Forget(w, n, hit, purge);
    var purged := Purged(w, n, hit, purge);
    var purged1 := Purged(w1, n, {g}, purge);
    var purged2 := Purged(w, n, hit + {g}, purge);
    ForgetLeaves(w, n, hit, g, purge);
    assert purged2 == purged + purged1;
    SavedStep(w, w1, n, hit, g, purged, purged1);
    ForgetMapsStep(w, n, hit, g, purged, purged1);
    var a := Forget(w1, n, {g}, purge);
    var b := Forget(w, n, hit + {g}, purge);
    assert a.provisioned == b.provisioned && a.store == b.store;
    assert a.saved == b.saved;
  }

  lemma ForgetLeaves(w: World, n: NodeId, hit: set<GroupId>, g: GroupId, purge: bool)
    requires g !in hit
    ensures LeftProvisioned(Forget(w, n, hit, purge), n, g) == LeftProvisioned(w, n, g)
  {
    hide SavedAfterForget;
  }

  lemma ForgetMapsStep(w: World, n: NodeId, hit: set<GroupId>, g: GroupId, purged: set<GroupId>, purged1: set<GroupId>)
    requires g !in hit
    ensures w.store - purged - purged1 == w.store - (purged + purged1)
    ensures var p1 := map h | h in w.provisioned :: if h in hit then w.provisioned[h] - {n} else w.provisioned[h];
      (map h | h in p1 :: if h in {g} then p1[h] - {n} else p1[h])
      == map h | h in w.provisioned :: if h in hit + {g} then w.provisioned[h] - {n} else w.provisioned[h]
  {
  }

  lemma SavedStep(w: World, w1: World, n: NodeId, hit: set<GroupId>, g: GroupId, purged: set<GroupId>,
                  purged1: set<GroupId>)
    requires w1.saved == SavedAfterForget(w, n, purged, hit - purged)
    requires g !in hit && purged <= hit && purged1 <= {g} && LeftProvisioned(w1, n, g) == LeftProvisioned(w, n, g)
    ensures SavedAfterForget(w1, n, purged1, {g} - purged1)
      == SavedAfterForget(w, n, purged + purged1, (hit + {g}) - (purged + purged1))
  {
    var a := SavedAfterForget(w1, n, purged1, {g} - purged1);
    var b := SavedAfterForget(w, n, purged + purged1, (hit + {g}) - (purged + purged1));
    assert a.Keys == b.Keys;
    forall c | c in a ensures a[c] == b[c] {}
  }

  lemma RefreshStep(w: World, nodes: set<NodeId>, m: NodeId, sk: StoredKey, env: Env)
    requires m !in nodes
    ensures AddKeyset(EnsureKeysets(w, nodes, sk, env), m, sk.keyset, sk.key, 0, env).0
      == EnsureKeysets(w, nodes + {m}, sk, env)
  {
    hide Refreshed, AddKeyset, WriteKeyset, TrackerOf, TrackerCells, RefreshAll;
    var hit := Refreshed(w, nodes, sk.keyset, sk.key, env);
    var w1 := RefreshAll(w, hit, sk);
    RefreshedMore(w, nodes, m, sk, env);
    RefreshKeeps(w, hit, m, sk);
    KeysetAdded(w1, m, sk, env);
    if Reach(w, m, KeysetWrite(m, 0), env) && WriteKeyset(w.devices[m], sk.keyset, sk.key).Some? {
      RefreshOne(w, hit, m, sk);
    } else {
      assert hit + {} == hit;
    }
  }

  lemma RefreshKeeps(w: World, hit: set<NodeId>, m: NodeId, sk: StoredKey)
    requires m !in hit
    ensures var w1 := RefreshAll(w, hit, sk);
      && (m in w1.devices <==> m in w.devices) && (m in w.devices ==> w1.devices[m] == w.devices[m])
      && TrackerOf(w1, m) == TrackerOf(w, m)
  {
    hide TrackerOf, TrackerCells;
    SameTrackerOf(w, RefreshAll(w, hit, sk), m);
  }

  lemma RefreshOne(w: World, hit: set<NodeId>, m: NodeId, sk: StoredKey)
    requires m !in hit && m in w.devices
    ensures RefreshAll(w, hit + {m}, sk) ==
      PutTracker(PutDevice(RefreshAll(w, hit, sk), m, Overwrite(w.devices[m], sk.keyset, sk.key)),
                 m, TrackerOf(w, m) + {sk.keyset})
  {
    hide TrackerOf, TrackerCells, RefreshedDevices, RefreshedTracker, RefreshedSaved;
    RefreshDevices(w.devices, hit, m, sk);
    RefreshTracker(w, hit, m, sk);
    RefreshSaved(w, hit, m, sk);
  }

  lemma SameTrackerOf(w: World, w': World, m: NodeId)
    requires (m in w.tracker <==> m in w'.tracker) && (m in w.tracker ==> w'.tracker[m] == w.tracker[m])
    ensures TrackerOf(w', m) == TrackerOf(w, m)
  {
  }

  lemma KeysetAdded(w: World, m: NodeId, sk: StoredKey, env: Env)
    ensures AddKeyset(w, m, sk.keyset, sk.key, 0, env).0 ==
      if Reach(w, m, KeysetWrite(m, 0), env) && WriteKeyset(w.devices[m], sk.keyset, sk.key).Some?
      then PutTracker(PutDevice(w, m, Overwrite(w.devices[m], sk.keyset, sk.key)), m, TrackerOf(w, m) + {sk.keyset})
      else w
  {
  }

  lemma RefreshedMore(w: World, nodes: set<NodeId>, m: NodeId, sk: StoredKey, env: Env)
    requires m !in nodes
    ensures m !in Refreshed(w, nodes, sk.keyset, sk.key, env)
    ensures Refreshed(w, nodes + {m}, sk.keyset, sk.key, env) == Refreshed(w, nodes, sk.keyset, sk.key, env)
      + if Reach(w, m, KeysetWrite(m, 0), env) && WriteKeyset(w.devices[m], sk.keyset, sk.key).Some? then {m} else {}
  {
    hide WriteKeyset;
  }

  // The three maps after refreshing the nodes `hit`, with one more node.
  lemma RefreshDevices(devices: map<NodeId, Device>, hit: set<NodeId>, m: NodeId, sk: StoredKey)
    requires m !in hit && m in devices
    ensures RefreshedDevices(devices, hit + {m}, sk)
         == RefreshedDevices(devices, hit, sk)[m := Overwrite(devices[m], sk.keyset, sk.key)]
  {
  }

  lemma RefreshTracker(w: World, hit: set<NodeId>, m: NodeId, sk: StoredKey)
    ensures RefreshedTracker(w, hit + {m}, sk) == RefreshedTracker(w, hit, sk)[m := TrackerOf(w, m) + {sk.keyset}]
  {
    hide TrackerOf;
  }

  lemma RefreshSaved(w: World, hit: set<NodeId>, m: NodeId, sk: StoredKey)
    ensures RefreshedSaved(w, hit + {m}, sk)
      == RefreshedSaved(w, hit, sk)[TrackerCell(m) := Storage.Ids(TrackerOf(w, m) + {sk.keyset})]
  {
    CellsMore(hit, m);
    hide TrackerOf, TrackerCells;
    var a := RefreshedSaved(w, hit + {m}, sk);
    var b := RefreshedSaved(w, hit, sk)[TrackerCell(m) := Storage.Ids(TrackerOf(w, m) + {sk.keyset})];
    assert a.Keys == b.Keys;
    forall c | c in a ensures a[c] == b[c] {}
  }

  lemma CellsMore(hit: set<NodeId>, m: NodeId)
    ensures TrackerCells(hit + {m}) == TrackerCells(hit) + {TrackerCell(m)}
  {
  }

  /* ---- The controller ---- */

  class MatterDeviceController {
    var groupKeyStore: map<GroupId, StoredKey>
    var knownKeysetsPerNode: map<NodeId, set<KeysetId>>
    var groupProvisionedNodes: map<GroupId, set<NodeId>>
    const sdk: ChipDeviceController
    const storage: Storage.StorageController

    ghost function View(): World
      reads this, sdk, storage
    {
      World(groupKeyStore, knownKeysetsPerNode, groupProvisionedNodes, storage.data, sdk.kvs, sdk.devices)
    }

    constructor (sdk: ChipDeviceController, storage: Storage.StorageController)
      ensures this.sdk == sdk && this.storage == storage
      ensures groupKeyStore == map[] && knownKeysetsPerNode == map[] && groupProvisionedNodes == map[]
    {
      this.sdk, this.storage := sdk, storage;
      groupKeyStore, knownKeysetsPerNode, groupProvisionedNodes := map[], map[], map[];
    }

    /* ---- start ---- */

    // The three loops of `start` over the stored dictionaries.
    method Start()
      requires groupKeyStore == map[] && knownKeysetsPerNode == map[] && groupProvisionedNodes == map[]
      modifies this
      ensures View() == Restarted(old(View()))
    {
      hide ReloadedKeys, ReloadedTracker, ReloadedNodes;
      var todo := storage.data.Keys;
      while todo != {}
        invariant todo <= storage.data.Keys
        invariant forall g :: g in groupKeyStore <==>
          KeyCell(g) in storage.data.Keys - todo && storage.data[KeyCell(g)].KeyRecord?
        invariant forall g :: g in groupKeyStore ==>
          groupKeyStore[g] == StoredKey(storage.data[KeyCell(g)].keyset, storage.data[KeyCell(g)].key)
        invariant forall n :: n in knownKeysetsPerNode <==>
          TrackerCell(n) in storage.data.Keys - todo && storage.data[TrackerCell(n)].Ids?
        invariant forall n :: n in knownKeysetsPerNode ==> knownKeysetsPerNode[n] == storage.data[TrackerCell(n)].ids
        invariant forall g :: g in groupProvisionedNodes <==>
          NodesCell(g) in storage.data.Keys - todo && storage.data[NodesCell(g)].Ids?
        invariant forall g :: g in groupProvisionedNodes ==> groupProvisionedNodes[g] == storage.data[NodesCell(g)].ids
      {
        var c :| c in todo;
        match (c, storage.data[c]) {
          case (Cell(GroupKeys, Some(g)), KeyRecord(keyset, key)) =>
            groupKeyStore := groupKeyStore[g := StoredKey(keyset, key)];
          case (Cell(NodeKeysets, Some(n)), Ids(ids)) =>
            knownKeysetsPerNode := knownKeysetsPerNode[n := ids];
          case (Cell(GroupNodes, Some(g)), Ids(ids)) =>
            groupProvisionedNodes := groupProvisionedNodes[g := ids];
          case _ =>
        }
        todo := todo - {c};
      }
      ReloadedExactly(storage.data, groupKeyStore, knownKeysetsPerNode, groupProvisionedNodes);
    }

    /* ---- Keysets ---- */

    // `group_add_key_set`
    method GroupAddKeySet(n: NodeId, keyset: KeysetId, key: Key, attempt: nat, env: Env) returns (status: WriteStatus)
      modifies this`knownKeysetsPerNode, sdk`devices, storage
      ensures (View(), status) == AddKeyset(old(View()), n, keyset, key, attempt, env)
    {
      status := sdk.KeySetWrite(n, keyset, key, attempt, env);
      if status == Written {
        var tracked := (if n in knownKeysetsPerNode then knownKeysetsPerNode[n] else {}) + {keyset};
        knownKeysetsPerNode := knownKeysetsPerNode[n := tracked];
        storage.Set(TrackerCell(n), Storage.Ids(tracked), false);
      }
    }

    // `group_bind_key_set`: an empty answer is not an empty map here.
    method GroupBindKeySet(n: NodeId, g: GroupId, keyset: KeysetId, env: Env) returns (outcome: Outcome)
      modifies sdk`devices
      ensures Result(View(), outcome) == BindKeyset(old(View()), n, g, keyset, env)
    {
      if !sdk.Reaches(n, KeyMapRead(0), env) {
        return CallFailed;
      }
      if env.noAttributes {
        return Done;
      }
      var reply := sdk.WriteKeyMap(n, Bind(sdk.devices[n].keyMap, g, keyset), env);
      outcome := if reply == Raised then CallFailed else Done;
    }

    method ReadGroupKeyMap(n: NodeId, site: nat, env: Env) returns (entries: seq<KeyMapEntry>)
      ensures entries == ReadKeyMap(View(), n, site, env)
    {
      entries := if sdk.Reaches(n, KeyMapRead(site), env) then sdk.devices[n].keyMap else [];
    }

    // The tracker and its copy without a keyset, where the node has an entry.
    method Untrack(n: NodeId, keyset: KeysetId)
      modifies this`knownKeysetsPerNode, storage
      ensures View() == if n in old(knownKeysetsPerNode)
        then PutTracker(old(View()), n, old(knownKeysetsPerNode)[n] - {keyset}) else old(View())
    {
      if n in knownKeysetsPerNode {
        knownKeysetsPerNode := knownKeysetsPerNode[n := knownKeysetsPerNode[n] - {keyset}];
        storage.Set(TrackerCell(n), Storage.Ids(knownKeysetsPerNode[n]), false);
      }
    }

    // The three tiers of `_cleanup_unused_keysets_on_node`.
    method FindCandidates(n: NodeId, env: Env) returns (all: set<KeysetId>)
      ensures all == CleanupCandidates(View(), n, env)
    {
      all := {};
      if sdk.Reaches(n, KeyTableRead, env) && env.table.Some? {
        all := env.table.value;
      }
      if all == {} && n in knownKeysetsPerNode {
        all := knownKeysetsPerNode[n];
      }
      if all == {} {
        all := BruteForceRange() + (StoreKeysets(groupKeyStore) - {IPK});
      }
    }

    // `_cleanup_unused_keysets_on_node`
    method CleanupUnusedKeysets(n: NodeId, env: Env) returns (removed: nat)
      modifies this`knownKeysetsPerNode, sdk`devices, storage
      ensures (View(), removed) == Cleanup(old(View()), n, env)
    {
      hide CleanupCandidates, RemoveTracked, BruteForceRange, StoreKeysets;
      ghost var w := View();
      var entries := ReadGroupKeyMap(n, 1, env);
      var all := FindCandidates(n, env);
      var todo := all - Referenced(entries) - {IPK};
      ghost var orphaned := todo;
      assert orphaned == Orphaned(w, n, env);
      removed := 0;
      ghost var gone: set<KeysetId> := {};
      RemoveTrackedNone(w, n);
      while todo != {}
        invariant todo <= orphaned
        invariant gone == RemovableOf(w, n, orphaned - todo, env)
        invariant removed == |gone| && View() == RemoveTracked(w, n, gone)
      {
        var k :| k in todo;
        TrackedDevices(w, n, gone);
        var reply := sdk.KeySetRemove(n, k, env);
        if reply == Returned {
          removed := removed + 1;
          ghost var before := RemoveTracked(w, n, gone);
          Untrack(n, k);
          RemoveTrackedOne(before, n, k);
          RemoveTrackedStep(w, n, gone, k);
          gone := gone + {k};
        }
        todo := todo - {k};
      }
      assert orphaned - todo == orphaned;
    }

    /* ---- Provisioning ---- */

    // `_inject_controller_group_keys`; a write that fails is swallowed.
    method InjectControllerGroupKeys(g: GroupId, sk: StoredKey, i: Injection)
      modifies sdk`kvs
      ensures View() == InjectKeys(old(View()), g, sk, i)
    {
      var fabric := FabricOf(sdk.kvs);
      if i.writes == 0 {
        return;
      }
      sdk.kvs := sdk.kvs.(keysets := sdk.kvs.keysets[sk.keyset := KeysetNode(sk.key, fabric.firstKeyset)]);
      var fabric' := fabric.(firstKeyset := sk.keyset, keysetCount := fabric.keysetCount + 1);
      if i.writes == 1 {
        return;
      }
      sdk.kvs := sdk.kvs.(maps := sdk.kvs.maps[i.mapId := MapNode(g, sk.keyset, fabric.firstMap)]);
      fabric' := fabric'.(firstMap := i.mapId, mapCount := fabric.mapCount + 1);
      if i.writes == 2 {
        return;
      }
      sdk.kvs := sdk.kvs.(fabric := Some(fabric'));
    }

    method StoreGroupKey(g: GroupId, sk: StoredKey)
      modifies this`groupKeyStore, storage
      ensures View() == PutKey(old(View()), g, sk)
    {
      groupKeyStore := groupKeyStore[g := sk];
      storage.Set(KeyCell(g), Storage.KeyRecord(sk.keyset, sk.key), false);
    }

    // dict(self._group_key_store.values()): each keyset id with the key of one entry that has it.
    method KeysetDict() returns (keys: map<KeysetId, Key>, ghost winners: map<KeysetId, GroupId>)
      ensures keys.Keys == StoreKeysets(groupKeyStore) && winners.Keys == keys.Keys
      ensures forall k :: k in keys ==> Wins(groupKeyStore, winners[k], k) && keys[k] == groupKeyStore[winners[k]].key
    {
      keys, winners := map[], map[];
      var todo := groupKeyStore.Keys;
      while todo != {}
        invariant todo <= groupKeyStore.Keys
        invariant keys.Keys == (set g | g in groupKeyStore && g !in todo :: groupKeyStore[g].keyset)
          && winners.Keys == keys.Keys
        invariant forall k :: k in keys ==>
          Wins(groupKeyStore, winners[k], k) && keys[k] == groupKeyStore[winners[k]].key
      {
        var g :| g in todo;
        keys := keys[groupKeyStore[g].keyset := groupKeyStore[g].key];
        winners := winners[groupKeyStore[g].keyset := g];
        todo := todo - {g};
      }
    }

    // `_provision_group_keys_on_node`; `winner` tells whose entry the dictionary kept.
    method ProvisionGroupKeys(n: NodeId, g: GroupId, sk: StoredKey, env: Env)
      returns (outcome: Outcome, ghost winner: GroupId)
      modifies this`knownKeysetsPerNode, this`groupKeyStore, sdk, storage
      ensures var p := Provision(old(View()), n, g, sk, env, winner); View() == p.world && outcome == p.outcome
    {
      hide AddKeyset, Cleanup, Bind, PutKey, PutTracker, InjectKeys;
      winner := 0;
      var actual := sk.keyset;
      var status := GroupAddKeySet(n, sk.keyset, sk.key, 0, env);
      if status == Exhausted {
        var cleaned := CleanupUnusedKeysets(n, env);
        if cleaned > 0 {
          status := GroupAddKeySet(n, sk.keyset, sk.key, 1, env);
        }
      }
      ghost var w1 := View();
      assert (w1, status) == Install(old(View()), n, sk, env);
      if status == Failed {
        return CallFailed, winner;
      }
      ghost var w2 := w1;
      if status == Exhausted {
        var entries := ReadGroupKeyMap(n, 2, env);
        var keys, winners := KeysetDict();
        var reusable := keys.Keys * Referenced(entries);
        assert reusable == Reusable(w1, n, env);
        if reusable == {} {
          return Invalid, winner;
        }
        actual := Min(reusable);
        winner := winners[actual];
        var taken := StoredKey(actual, keys[actual]);
        assert taken == w1.store[winner] && Wins(w1.store, winner, actual);
        RemapGroup(n, g, taken, env);
        w2 := View();
        assert w2 == Remap(w1, n, g, w1.store[PickWinner(w1.store, actual, winner)], env);
      }
      var latest := ReadGroupKeyMap(n, 3, env);
      var reply := sdk.WriteKeyMap(n, Bind(latest, g, actual), env);
      if reply == Raised {
        return CallFailed, winner;
      }
      return Done, winner;
    }

    // Record the keyset found on the device and, if the group used another, remap and re-inject it.
    method RemapGroup(n: NodeId, g: GroupId, sk: StoredKey, env: Env)
      modifies this`knownKeysetsPerNode, this`groupKeyStore, sdk`kvs, storage
      ensures View() == Remap(old(View()), n, g, sk, env)
    {
      hide InjectPrefix;
      var tracked := if n in knownKeysetsPerNode then knownKeysetsPerNode[n] else {};
      if sk.keyset !in tracked {
        knownKeysetsPerNode := knownKeysetsPerNode[n := tracked + {sk.keyset}];
        storage.Set(TrackerCell(n), Storage.Ids(tracked + {sk.keyset}), false);
      }
      if !(g in groupKeyStore && groupKeyStore[g] == sk) {
        StoreGroupKey(g, sk);
        InjectControllerGroupKeys(g, sk, env.second);
      }
    }

    /* ---- ACL ---- */

    // `_ensure_group_acl_on_node`
    method EnsureGroupAcl(n: NodeId, g: GroupId, env: Env)
      modifies sdk`devices
      ensures View() == EnsureAcl(old(View()), n, g, env)
    {
      if !sdk.Reaches(n, AclRead, env) {
        return;
      }
      var acl := if env.noAttributes then [] else sdk.devices[n].acl;
      for i := 0 to |acl|
        invariant forall j :: 0 <= j < i ==> !GrantsGroup(acl[j], g)
      {
        if GrantsGroup(acl[i], g) {
          assert acl[i] in acl;
          return;
        }
      }
      sdk.WriteAcl(n, acl + [GroupEntry(g)], env);
    }

    // `_remove_group_acl_on_node`
    method RemoveGroupAcl(n: NodeId, g: GroupId, env: Env)
      modifies sdk`devices
      ensures View() == RemoveAcl(old(View()), n, g, env)
    {
      if !sdk.Reaches(n, AclRead, env) || env.noAttributes {
        return;
      }
      var acl := sdk.devices[n].acl;
      var rest := RemoveGroup(acl, g);
      if |rest| == |acl| {
        RemovedNone(acl, g);
        assert sdk.devices[n].(acl := rest) == sdk.devices[n];
        assert sdk.devices[n := sdk.devices[n]] == sdk.devices;
        return;
      }
      sdk.WriteAcl(n, rest, env);
    }

    // `_remove_all_group_acl_entries_on_node`
    method RemoveAllGroupAcl(n: NodeId, env: Env)
      modifies sdk`devices
      ensures View() == RemoveAllAcl(old(View()), n, env)
    {
      if !sdk.Reaches(n, AclRead, env) || env.noAttributes {
        return;
      }
      var acl := sdk.devices[n].acl;
      var rest := RemoveAllGroups(acl);
      if |rest| == |acl| {
        RemovedNoGroups(acl);
        assert sdk.devices[n].(acl := rest) == sdk.devices[n];
        assert sdk.devices[n := sdk.devices[n]] == sdk.devices;
        return;
      }
      sdk.WriteAcl(n, rest, env);
    }

    /* ---- group_add ---- */

    method GroupAdd(n: NodeId, ep: Endpoint, g: GroupId, env: Env) returns (outcome: Outcome, ghost winner: GroupId)
      modifies this, sdk, storage
      ensures Result(View(), outcome) == AddToGroup(old(View()), n, ep, g, env, winner)
    {
      hide Provision, EnsureAcl, AddMember, Drop, InjectPrefix, Install;
      winner := 0;
      // 1.
      if !sdk.Reaches(n, ServerListRead, env) || ep !in sdk.devices[n].tables {
        return Invalid, winner;
      }
      // 2. and 3.
      if g !in groupKeyStore {
        var sk := StoredKey(KeysetFor(g), env.freshKey);
        InjectControllerGroupKeys(g, sk, env.first);
        StoreGroupKey(g, sk);
      }
      ghost var w1 := View();
      assert w1 == WithGroupKey(old(View()), g, env);
      var sk := groupKeyStore[g];
      // 4.
      if !sdk.Reaches(n, MembershipGet, env) {
        return CallFailed, winner;
      }
      var t := TableOf(sdk.devices[n], ep);
      if g !in t.members && env.capacityKnown && |t.members| >= t.capacity {
        if t.members == [] {
          return Invalid, winner;
        }
        var reply := sdk.SendRemoveGroup(n, ep, t.members[0], OldestEvict, env);
        if reply == Raised {
          return CallFailed, winner;
        }
      }
      ghost var w2 := View();
      assert Result(w2, Done) == Prepare(old(View()), n, ep, g, env);
      // 5.
      var p;
      p, winner := ProvisionGroupKeys(n, g, sk, env);
      if p == Invalid {
        return Invalid, winner;
      }
      ghost var w3 := View();
      // 6.
      var reply := sdk.SendAddGroup(n, ep, g, env);
      if reply == Raised {
        return CallFailed, winner;
      }
      // 7.
      EnsureGroupAcl(n, g, env);
      // 8.
      var nodes := (if g in groupProvisionedNodes then groupProvisionedNodes[g] else {}) + {n};
      groupProvisionedNodes := groupProvisionedNodes[g := nodes];
      storage.Set(NodesCell(g), Storage.Ids(nodes), false);
      outcome := Done;
      assert Result(View(), Done) == JoinGroup(w3, n, ep, g, env);
    }

    /* ---- Removal ---- */

    // RemoveGroup for each group on each endpoint of PartsList.
    method RemoveMemberships(n: NodeId, groups: set<GroupId>, env: Env)
      modifies sdk`devices
      ensures View() == RemoveMembers(old(View()), n, groups, env)
    {
      if !sdk.Reaches(n, PartsRead, env) {
        return;
      }
      ghost var w := View();
      var todo := groups;
      ghost var done: set<GroupId> := {};
      MembersNone(w, n, env);
      while todo != {}
        invariant todo !! done && todo + done == groups
        invariant View() == RemoveMembers(w, n, done, env)
      {
        var g :| g in todo;
        RemoveMembership(n, g, env);
        MembersStep(w, n, done, g, env);
        todo := todo - {g};
        done := done + {g};
      }
      assert done == groups;
    }

    // The inner loop, over the endpoints.
    method RemoveMembership(n: NodeId, g: GroupId, env: Env)
      requires Reach(View(), n, PartsRead, env)
      modifies sdk`devices
      ensures View() == RemoveMembers(old(View()), n, {g}, env)
    {
      hide Dropped, Drop, TablesLeft;
      ghost var w := View();
      var parts := sdk.devices[n].parts;
      var todo := parts;
      ghost var done: set<Endpoint> := {};
      LeftNone(w, n, {g}, env);
      LeftKeys(w, n, {}, g, env);
      while todo != {}
        invariant todo !! done && todo + done == parts
        invariant View() == PutDevice(w, n, w.devices[n].(tables := TablesLeft(w, n, done, {g}, env)))
        invariant TablesLeft(w, n, done, {g}, env).Keys == w.devices[n].tables.Keys
      {
        var ep :| ep in todo;
        var _ := sdk.SendRemoveGroup(n, ep, g, MemberRemove(g, ep), env);
        LeftStep(w, n, done, g, ep, env);
        LeftKeys(w, n, done + {ep}, g, env);
        todo := todo - {ep};
        done := done + {ep};
      }
      assert done == parts;
      AllLeft(w, n, g, env);
    }

    // `_group_provisioned_nodes` without node n for the groups `hit`, purging keys if asked to.
    method ForgetNode(n: NodeId, hit: set<GroupId>, purge: bool)
      modifies this`groupProvisionedNodes, this`groupKeyStore, storage
      ensures View() == Forget(old(View()), n, hit, purge)
    {
      hide SavedAfterForget;
      ghost var w := View();
      var todo := hit;
      ghost var done: set<GroupId> := {};
      ForgetNone(w, n, purge);
      while todo != {}
        invariant todo !! done && todo + done == hit
        invariant View() == Forget(w, n, done, purge)
      {
        var g :| g in todo;
        ghost var before := View();
        var left := (if g in groupProvisionedNodes then groupProvisionedNodes[g] else {}) - {n};
        if g in groupProvisionedNodes {
          groupProvisionedNodes := groupProvisionedNodes[g := left];
        }
        if purge && left == {} {
          groupKeyStore := groupKeyStore - {g};
          storage.Remove(KeyCell(g));
        } else {
          storage.Set(NodesCell(g), Storage.Ids(left), false);
        }
        ForgetOne(before, View(), n, g, purge);
        ForgetStep(w, n, done, g, purge);
        todo := todo - {g};
        done := done + {g};
      }
      assert done == hit;
    }

    method GroupRemove(n: NodeId, g: GroupId, env: Env) returns (outcome: Outcome)
      modifies this, sdk, storage
      ensures Result(View(), outcome) == RemoveFromGroup(old(View()), n, g, env)
    {
      hide RemoveMembers, Cleanup, Forget, RemoveAcl;
      RemoveMemberships(n, {g}, env);
      var entries := ReadGroupKeyMap(n, 0, env);
      var reply := sdk.WriteKeyMap(n, Without(entries, {g}), env);
      if reply == Raised {
        return CallFailed;
      }
      var _ := CleanupUnusedKeysets(n, env);
      RemoveGroupAcl(n, g, env);
      ghost var w := View();
      var hit := if g in groupProvisionedNodes && n in groupProvisionedNodes[g] then {g} else {};
      assert hit == GroupsOfNode(w, n) * {g};
      ForgetNode(n, hit, false);
      return Done;
    }

    method GroupRemoveAll(n: NodeId, ep: Endpoint, env: Env) returns (outcome: Outcome)
      modifies this, sdk, storage
      ensures Result(View(), outcome) == RemoveFromAllGroups(old(View()), n, ep, env)
    {
      hide RemoveMembers, Cleanup, Forget, RemoveAllAcl;
      var groups: set<GroupId> := {};
      if sdk.Reaches(n, MembershipGet, env) {
        groups := set g | g in TableOf(sdk.devices[n], ep).members;
      }
      if groups != {} {
        RemoveMemberships(n, groups, env);
        var entries := ReadGroupKeyMap(n, 0, env);
        var reply := sdk.WriteKeyMap(n, Without(entries, groups), env);
        if reply == Raised {
          return CallFailed;
        }
      }
      var _ := CleanupUnusedKeysets(n, env);
      RemoveAllGroupAcl(n, env);
      ForgetNode(n, set g | g in groupProvisionedNodes && n in groupProvisionedNodes[g], false);
      return Done;
    }

    method GroupKeySetRemove(n: NodeId, keyset: KeysetId, env: Env) returns (outcome: Outcome)
      modifies this, sdk, storage
      ensures Result(View(), outcome) == RemoveKeyset(old(View()), n, keyset, env)
    {
      hide Forget;
      if keyset == IPK {
        return Invalid;
      }
      var reply := sdk.KeySetRemove(n, keyset, env);
      if reply == Raised {
        return CallFailed;
      }
      Untrack(n, keyset);
      ForgetNode(n, set g | g in groupKeyStore && groupKeyStore[g].keyset == keyset, true);
      return Done;
    }

    method GroupResetNode(n: NodeId, env: Env) returns (outcome: Outcome)
      modifies this, sdk, storage
      ensures Result(View(), outcome) == ResetNode(old(View()), n, env)
    {
      hide Forget, RemoveAllAcl, WipeKeys;
      // Step 1.
      RemoveAllKeys(n, env);
      // Step 2.
      RemoveAllGroupAcl(n, env);
      // Step 3.
      if n in knownKeysetsPerNode {
        knownKeysetsPerNode := knownKeysetsPerNode - {n};
        storage.Remove(TrackerCell(n));
      }
      ForgetNode(n, set g | g in groupProvisionedNodes && n in groupProvisionedNodes[g], true);
      return Done;
    }

    // The ids known to the server, then the rest of the brute-force range, then an empty GroupKeyMap.
    method RemoveAllKeys(n: NodeId, env: Env)
      modifies sdk`devices
      ensures View() == WipeKeys(old(View()), n, env)
    {
      hide RemovableOf, BruteForceRange, Swept, RemoveKeysets, ResetTargets, WipeKeys;
      ghost var w := View();
      var targets := ((if n in knownKeysetsPerNode then knownKeysetsPerNode[n] else {})
                   + (set g | g in groupKeyStore && g in groupProvisionedNodes
                     && n in groupProvisionedNodes[g] :: groupKeyStore[g].keyset)) - {IPK};
      TargetsAre(w, n, targets);
      RemoveKeysetsOf(n, targets, env);
      RemoveKeysetsOf(n, BruteForceRange() - targets, env);
      TwoSweeps(w, n, targets, BruteForceRange(), env);
      var _ := sdk.WriteKeyMap(n, [], env);
      SweptAndCleared(w, n, env);
    }

    // KeySetRemove of each id; failures are ignored.
    method RemoveKeysetsOf(n: NodeId, keysets: set<KeysetId>, env: Env)
      modifies sdk`devices
      ensures View() == Swept(old(View()), n, keysets, env)
    {
      ghost var w := View();
      var todo := keysets;
      ghost var done: set<KeysetId> := {};
      SweptNone(w, n, env);
      while todo != {}
        invariant todo !! done && todo + done == keysets
        invariant View() == Swept(w, n, done, env)
      {
        var k :| k in todo;
        var _ := sdk.KeySetRemove(n, k, env);
        SweptStep(w, n, done, k, env);
        todo := todo - {k};
        done := done + {k};
      }
      assert done == keysets;
    }

    /* ---- group_send_command ---- */

    method SendGroupCommand(g: GroupId, env: Env) returns (outcome: Outcome)
      modifies this, sdk, storage
      ensures Result(View(), outcome) == SendToGroup(old(View()), g, env)
    {
      hide EnsureKeysets, AddKeyset;
      ghost var w := View();
      if g in groupKeyStore {
        var sk := groupKeyStore[g];
        var nodes := if g in groupProvisionedNodes then groupProvisionedNodes[g] else {};
        var todo := nodes;
        ghost var done: set<NodeId> := {};
        EnsureNone(w, sk, env);
        while todo != {}
          invariant todo !! done && todo + done == nodes
          invariant View() == EnsureKeysets(w, done, sk, env)
        {
          var m :| m in todo;
          var _ := GroupAddKeySet(m, sk.keyset, sk.key, 0, env);
          RefreshStep(w, done, m, sk, env);
          todo := todo - {m};
          done := done + {m};
        }
        assert done == nodes;
      }
      KeptStore(w, g, env);
      match env.sending {
        case Sent => return Done;
        case SendFailed => return CallFailed;
        case KeyMissing =>
          if g in groupKeyStore {
            InjectControllerGroupKeys(g, groupKeyStore[g], env.first);
            return if env.resent then Done else CallFailed;
          }
          return Invalid;
      }
    }
  }

  /* ---- Ends and beginnings of the loops ---- */

  ghost function Swept(w: World, n: NodeId, keysets: set<KeysetId>, env: Env): World {
    if n in w.devices then PutDevice(w, n, RemoveKeysets(w.devices[n], RemovableOf(w, n, keysets, env))) else w
  }

  lemma SweptNone(w: World, n: NodeId, env: Env)
    ensures Swept(w, n, {}, env) == w
  {
    if n in w.devices {
      assert RemovableOf(w, n, {}, env) == {};
      assert w.devices[n].keysets - {} == w.devices[n].keysets;
      assert w.devices[n := w.devices[n]] == w.devices;
    }
  }

  lemma SweptStep(w: World, n: NodeId, keysets: set<KeysetId>, k: KeysetId, env: Env)
    requires k !in keysets
    ensures var w1 := Swept(w, n, keysets, env);
      Swept(w, n, keysets + {k}, env) ==
        if Reach(w1, n, KeysetRemove(k), env) && k in w1.devices[n].keysets
        then PutDevice(w1, n, RemoveKeysets(w1.devices[n], {k}))
        else w1
  {
    if n in w.devices {
      var d := w.devices[n];
      var a := RemovableOf(w, n, keysets, env);
      var b := RemovableOf(w, n, keysets + {k}, env);
      if Reach(w, n, KeysetRemove(k), env) && k in d.keysets {
        assert b == a + {k};
        assert d.keysets - b == d.keysets - a - {k};
      } else {
        assert b == a;
      }
    }
  }

  lemma TargetsAre(w: World, n: NodeId, targets: set<KeysetId>)
    requires targets == ((if n in w.tracker then w.tracker[n] else {})
      + (set g | g in w.store && g in w.provisioned && n in w.provisioned[g] :: w.store[g].keyset)) - {IPK}
    ensures targets == ResetTargets(w, n)
  {
  }

  // An empty GroupKeyMap after the removals.
  lemma SweptAndCleared(w: World, n: NodeId, env: Env)
    ensures var w1 := Swept(w, n, ResetTargets(w, n) + BruteForceRange(), env);
      WipeKeys(w, n, env) ==
        if Reach(w1, n, KeyMapWrite, env) && KeyMapWrite !in env.refused
        then PutDevice(w1, n, w1.devices[n].(keyMap := []))
        else w1
  {
    hide RemovableOf, BruteForceRange, RemoveKeysets, ResetTargets;
    if n in w.devices {
      var d := RemoveKeysets(w.devices[n], RemovableOf(w, n, ResetTargets(w, n) + BruteForceRange(), env));
      assert w.devices[n := d][n := d.(keyMap := [])] == w.devices[n := d.(keyMap := [])];
    }
  }

  lemma TwoSweeps(w: World, n: NodeId, a: set<KeysetId>, b: set<KeysetId>, env: Env)
    ensures Swept(Swept(w, n, a, env), n, b - a, env) == Swept(w, n, a + b, env)
  {
    if n in w.devices {
      var w1 := Swept(w, n, a, env);
      var x := RemovableOf(w, n, a, env);
      var y := RemovableOf(w1, n, b - a, env);
      assert x + y == RemovableOf(w, n, a + b, env);
      assert w.devices[n].keysets - x - y == w.devices[n].keysets - (x + y);
    }
  }

  lemma AllLeft(w: World, n: NodeId, g: GroupId, env: Env)
    requires Reach(w, n, PartsRead, env)
    ensures PutDevice(w, n, w.devices[n].(tables := TablesLeft(w, n, w.devices[n].parts, {g}, env)))
      == RemoveMembers(w, n, {g}, env)
  {
    hide Dropped;
    assert TablesLeft(w, n, w.devices[n].parts, {g}, env) == RemoveMembers(w, n, {g}, env).devices[n].tables;
  }

  lemma ForgetNone(w: World, n: NodeId, purge: bool)
    ensures Forget(w, n, {}, purge) == w
  {
    var w' := Forget(w, n, {}, purge);
    assert w'.provisioned == w.provisioned;
    assert w'.saved == w.saved;
    assert w'.store == w.store;
  }

  // One iteration of the loop is Forget of one group.
  lemma ForgetOne(w: World, w': World, n: NodeId, g: GroupId, purge: bool)
    requires var left := LeftProvisioned(w, n, g);
      && w'.devices == w.devices && w'.tracker == w.tracker && w'.kvs == w.kvs
      && w'.provisioned == (if g in w.provisioned then w.provisioned[g := left] else w.provisioned)
      && w'.store == (if purge && left == {} then w.store - {g} else w.store)
      && w'.saved ==
           (if purge && left == {} then w.saved - {KeyCell(g)} else w.saved[NodesCell(g) := Storage.Ids(left)])
    ensures w' == Forget(w, n, {g}, purge)
  {
    hide SavedAfterForget, NodesCells;
    var f := Forget(w, n, {g}, purge);
    var purged := if purge && LeftProvisioned(w, n, g) == {} then {g} else {};
    assert Purged(w, n, {g}, purge) == purged;
    SavedOne(w, n, g, purged);
    assert f.provisioned == w'.provisioned;
    assert f.store == w'.store;
  }

  lemma SavedOne(w: World, n: NodeId, g: GroupId, purged: set<GroupId>)
    requires purged == {} || purged == {g}
    ensures SavedAfterForget(w, n, purged, {g} - purged) ==
      if purged == {g} then w.saved - {KeyCell(g)} else w.saved[NodesCell(g) := Storage.Ids(LeftProvisioned(w, n, g))]
  {
    hide LeftProvisioned;
    var s := SavedAfterForget(w, n, purged, {g} - purged);
    if purged == {g} {
      assert s == w.saved - {KeyCell(g)};
    } else {
      assert NodesCells({g}) == {NodesCell(g)};
      assert s == w.saved[NodesCell(g) := Storage.Ids(LeftProvisioned(w, n, g))];
    }
  }

  lemma EnsureNone(w: World, sk: StoredKey, env: Env)
    ensures EnsureKeysets(w, {}, sk, env) == w
  {
    var w' := EnsureKeysets(w, {}, sk, env);
    assert Refreshed(w, {}, sk.keyset, sk.key, env) == {};
    assert w'.devices == w.devices && w'.tracker == w.tracker && w'.saved == w.saved;
  }

  lemma KeptStore(w: World, g: GroupId, env: Env)
    ensures g in w.store ==> EnsureKeysets(w, ProvisionedOf(w, g), w.store[g], env).store == w.store
  {
  }

  lemma {:induction false} RemovedNone(acl: seq<AclEntry>, g: GroupId)
    ensures |RemoveGroup(acl, g)| <= |acl|
    ensures |RemoveGroup(acl, g)| == |acl| ==> RemoveGroup(acl, g) == acl
  {
    if acl != [] {
      RemovedNone(acl[1..], g);
      assert [acl[0]] + acl[1..] == acl;
    }
  }

  lemma {:induction false} RemovedNoGroups(acl: seq<AclEntry>)
    ensures |RemoveAllGroups(acl)| <= |acl|
    ensures |RemoveAllGroups(acl)| == |acl| ==> RemoveAllGroups(acl) == acl
  {
    if acl != [] {
      RemovedNoGroups(acl[1..]);
      assert [acl[0]] + acl[1..] == acl;
    }
  }

  lemma ReloadedExactly(data: Storage.Data, store: map<GroupId, StoredKey>, tracker: map<NodeId, set<KeysetId>>,
                        provisioned: map<GroupId, set<NodeId>>)
    requires forall g :: g in store <==> KeyCell(g) in data && data[KeyCell(g)].KeyRecord?
    requires forall g :: g in store ==> store[g] == StoredKey(data[KeyCell(g)].keyset, data[KeyCell(g)].key)
    requires forall n :: n in tracker <==> TrackerCell(n) in data && data[TrackerCell(n)].Ids?
    requires forall n :: n in tracker ==> tracker[n] == data[TrackerCell(n)].ids
    requires forall g :: g in provisioned <==> NodesCell(g) in data && data[NodesCell(g)].Ids?
    requires forall g :: g in provisioned ==> provisioned[g] == data[NodesCell(g)].ids
    ensures store == ReloadedKeys(data) && tracker == ReloadedTracker(data) && provisioned == ReloadedNodes(data)
  {
    ReloadedAt(data);
    hide ReloadedKeys, ReloadedTracker, ReloadedNodes;
    assert forall g :: g in store <==> g in ReloadedKeys(data);
    assert forall n :: n in tracker <==> n in ReloadedTracker(data);
    assert forall g :: g in provisioned <==> g in ReloadedNodes(data);
  }
}
