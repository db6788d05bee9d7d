/** What each group command leaves on the devices and in the controller's maps, told from the state before
    it: group tables, access control lists, GroupKeyMap and keysets, after any mix of failures. */
module GroupEffects {
  import opened Filters
  import opened KeyChain
  import opened Devices
  import opened GroupProtocol
  import opened Cells
  import Storage

  /* ---- What a step may leave ---- */

  function Other(g: GroupId): GroupId -> bool {
    h => h != g
  }

  function Staying(groups: set<GroupId>, ep: Endpoint, env: Env): GroupId -> bool {
    g => g !in groups || MemberRemove(g, ep) in env.down || MemberRemove(g, ep) in env.refused
  }

  function NotMapping(groups: set<GroupId>): KeyMapEntry -> bool {
    (e: KeyMapEntry) => e.group !in groups
  }

  function NotGranting(g: GroupId): AclEntry -> bool {
    (e: AclEntry) => !(e.auth == Group && g in e.subjects)
  }

  function NotGroup(): AclEntry -> bool {
    (e: AclEntry) => e.auth != Group
  }

  // Every endpoint that is listed and answers drops the groups, and keeps the others in order.
  ghost predicate Leaves(d: Device, d': Device, groups: set<GroupId>, env: Env) {
    && d'.tables.Keys == d.tables.Keys
    && forall ep :: ep in d.tables ==>
      d'.tables[ep] == GroupTable(
        if PartsRead !in env.down && ep in d.parts then Filter(d.tables[ep].members, Staying(groups, ep, env))
        else d.tables[ep].members,
        d.tables[ep].capacity)
  }

  // GroupKeyMap loses the entries of the groups and keeps the others in order; what could not be read
  // counts as empty.
  ghost predicate Unmaps(d: Device, d': Device, groups: set<GroupId>, env: Env) {
    d'.keyMap ==
      if KeyMapWrite in env.refused then d.keyMap
      else if KeyMapRead(0) in env.down then []
      else Filter(d.keyMap, NotMapping(groups))
  }

  predicate AclWritable(env: Env) {
    AclRead !in env.down && !env.noAttributes && AclWrite !in env.down && AclWrite !in env.refused
  }

  // A keyset the cleanup tries: in the device's table if it tells, else in the tracker if the node has
  // anything there, else 1 to 63 and the ids in the store.
  ghost predicate Candidate(w: World, n: NodeId, k: KeysetId, env: Env) {
    if KeyTableRead !in env.down && env.table.Some? && env.table.value != {} then k in env.table.value
    else if n in w.tracker && w.tracker[n] != {} then k in w.tracker[n]
    else 1 <= k <= 63 || exists g :: g in w.store && w.store[g].keyset == k
  }

  // A keyset the cleanup removes, if GroupKeyMap is then `keyMap`.
  ghost predicate Orphan(w: World, n: NodeId, k: KeysetId, keyMap: seq<KeyMapEntry>, env: Env) {
    && k != 0 && Candidate(w, n, k, env) && KeysetRemove(k) !in env.down
    && (KeyMapRead(1) in env.down || forall e :: e in keyMap ==> e.keyset != k)
  }

  // The device without the orphans, and the node's tracker entry without them.
  ghost predicate CleansUp(w: World, w': World, n: NodeId, env: Env)
    requires n in w.devices && n in w'.devices
  {
    var d, d' := w.devices[n], w'.devices[n];
    && (forall k :: k in d'.keysets <==> k in d.keysets && !Orphan(w, n, k, d'.keyMap, env))
    && (forall k :: k in d'.keysets ==> d'.keysets[k] == d.keysets[k])
    && w'.tracker.Keys == w.tracker.Keys
    && forall m :: m in w.tracker ==>
      w'.tracker[m] == if m == n then w.tracker[m] - (d.keysets.Keys - d'.keysets.Keys) else w.tracker[m]
  }

  // Nothing of any other device differs, and the fixed parts of this one are as they were.
  ghost predicate OnlyNode(w: World, w': World, n: NodeId) {
    && w'.devices.Keys == w.devices.Keys
    && (forall m :: m in w.devices && m != n ==> w'.devices[m] == w.devices[m])
    && (n in w.devices ==>
          && w'.devices[n].keysetCapacity == w.devices[n].keysetCapacity
          && w'.devices[n].parts == w.devices[n].parts)
  }

  // The node is forgotten for the groups, and the others are as they were.
  ghost predicate Untracks(w: World, w': World, n: NodeId, groups: set<GroupId>) {
    && w'.provisioned.Keys == w.provisioned.Keys
    && forall g :: g in w.provisioned ==>
      w'.provisioned[g] == if g in groups then w.provisioned[g] - {n} else w.provisioned[g]
  }

  // Only the groups that are left without a node lose their key.
  ghost predicate PurgesEmpty(w: World, w': World, groups: set<GroupId>) {
    && (forall g :: g in w'.store <==>
          g in w.store && !(g in groups && (g in w'.provisioned ==> w'.provisioned[g] == {})))
    && forall g :: g in w'.store ==> w'.store[g] == w.store[g]
  }

  /* ---- Step by step ---- */

  lemma {:induction false} DropFilters(members: seq<GroupId>, gone: set<GroupId>, keep: GroupId -> bool)
    requires forall g :: keep(g) <==> g !in gone
    ensures Drop(members, gone) == Filter(members, keep)
  {
    if members != [] {
      DropFilters(members[1..], gone, keep);
      FilterHead(members, keep);
    }
  }

  lemma {:induction false} WithoutFilters(entries: seq<KeyMapEntry>, groups: set<GroupId>)
    ensures Without(entries, groups) == Filter(entries, NotMapping(groups))
  {
    if entries != [] {
      WithoutFilters(entries[1..], groups);
      FilterHead(entries, NotMapping(groups));
    }
  }

  lemma {:induction false} RemoveGroupFilters(acl: seq<AclEntry>, g: GroupId)
    ensures RemoveGroup(acl, g) == Filter(acl, NotGranting(g))
  {
    if acl != [] {
      RemoveGroupFilters(acl[1..], g);
      FilterHead(acl, NotGranting(g));
    }
  }

  lemma {:induction false} RemoveAllFilters(acl: seq<AclEntry>)
    ensures RemoveAllGroups(acl) == Filter(acl, NotGroup())
  {
    if acl != [] {
      RemoveAllFilters(acl[1..]);
      FilterHead(acl, NotGroup());
    }
  }

  lemma MembersStep(w: World, n: NodeId, groups: set<GroupId>, env: Env)
    requires n in w.devices
    ensures var w' := RemoveMembers(w, n, groups, env);
      && n in w'.devices && Leaves(w.devices[n], w'.devices[n], groups, env)
      && w'.devices == w.devices[n := w.devices[n].(tables := w'.devices[n].tables)]
  {
    hide Drop, Filter;
    forall ep | ep in w.devices[n].tables
      ensures Drop(w.devices[n].tables[ep].members, Dropped(w, n, ep, groups, env))
        == Filter(w.devices[n].tables[ep].members, Staying(groups, ep, env))
    {
      DropFilters(w.devices[n].tables[ep].members, Dropped(w, n, ep, groups, env), Staying(groups, ep, env));
    }
    assert w.devices == w.devices[n := w.devices[n]];
  }

  lemma StripStep(w: World, n: NodeId, groups: set<GroupId>, env: Env)
    requires n in w.devices
    ensures StripKeyMap(w, n, groups, env).None? <==> KeyMapWrite in env.down
    ensures StripKeyMap(w, n, groups, env).Some? ==>
      var w' := StripKeyMap(w, n, groups, env).value;
      && n in w'.devices && Unmaps(w.devices[n], w'.devices[n], groups, env)
      && w'.devices == w.devices[n := w.devices[n].(keyMap := w'.devices[n].keyMap)]
  {
    hide Without, Filter;
    WithoutFilters(w.devices[n].keyMap, groups);
    EmptyStays(groups);
    assert w.devices == w.devices[n := w.devices[n]];
  }

  lemma EmptyStays(groups: set<GroupId>)
    ensures Without([], groups) == []
  {
  }

  lemma AclStep(w: World, n: NodeId, g: GroupId, env: Env)
    requires n in w.devices
    ensures var w' := RemoveAcl(w, n, g, env); var acl := w.devices[n].acl;
      w'.devices == w.devices[n := w.devices[n].(acl := if AclWritable(env) then Filter(acl, NotGranting(g)) else acl)]
    ensures var w' := RemoveAllAcl(w, n, env); var acl := w.devices[n].acl;
      w'.devices == w.devices[n := w.devices[n].(acl := if AclWritable(env) then Filter(acl, NotGroup()) else acl)]
  {
    hide RemoveGroup, RemoveAllGroups, Filter;
    RemoveGroupFilters(w.devices[n].acl, g);
    RemoveAllFilters(w.devices[n].acl);
    assert w.devices == w.devices[n := w.devices[n]];
  }

  lemma CleanupStep(w: World, n: NodeId, env: Env)
    requires n in w.devices
    ensures var w' := Cleanup(w, n, env).0;
      && n in w'.devices && CleansUp(w, w', n, env)
      && w'.devices == w.devices[n := w.devices[n].(keysets := w'.devices[n].keysets)]
      && w'.store == w.store && w'.provisioned == w.provisioned && w'.kvs == w.kvs
  {
    hide RemovableOf, Orphaned, RemoveTracked, Orphan, CleansUp;
    var gone := RemovableOf(w, n, Orphaned(w, n, env), env);
    OrphansGo(w, n, env);
    RemoveStep(w, n, gone);
    OrphansGone(w, RemoveTracked(w, n, gone), n, gone, env);
  }

  lemma OrphansGone(w: World, w': World, n: NodeId, gone: set<KeysetId>, env: Env)
    requires n in w.devices && n in w'.devices
    requires w'.devices[n].keysets == w.devices[n].keysets - gone && w'.devices[n].keyMap == w.devices[n].keyMap
    requires w'.tracker == if n in w.tracker then w.tracker[n := w.tracker[n] - gone] else w.tracker
    requires w.devices[n].keysets.Keys - w'.devices[n].keysets.Keys == gone
    requires forall k :: k in w.devices[n].keysets ==> (k in gone <==> Orphan(w, n, k, w.devices[n].keyMap, env))
    ensures CleansUp(w, w', n, env)
  {
    hide Orphan;
  }

  lemma OrphansGo(w: World, n: NodeId, env: Env)
    requires n in w.devices
    ensures var gone := RemovableOf(w, n, Orphaned(w, n, env), env);
      && gone <= w.devices[n].keysets.Keys
      && forall k :: k in w.devices[n].keysets ==> (k in gone <==> Orphan(w, n, k, w.devices[n].keyMap, env))
  {
    hide CleanupCandidates, Candidate;
    var gone := RemovableOf(w, n, Orphaned(w, n, env), env);
    forall k | k in w.devices[n].keysets ensures k in gone <==> Orphan(w, n, k, w.devices[n].keyMap, env) {
      if k != 0 { CandidateIs(w, n, k, env); }
    }
  }

  // KeySetRemove of keysets the device has.
  lemma RemoveStep(w: World, n: NodeId, gone: set<KeysetId>)
    requires n in w.devices && gone <= w.devices[n].keysets.Keys
    ensures var w' := RemoveTracked(w, n, gone);
      && w'.devices == w.devices[n := w.devices[n].(keysets := w.devices[n].keysets - gone)]
      && w'.store == w.store && w'.provisioned == w.provisioned && w'.kvs == w.kvs
      && w'.tracker == (if n in w.tracker then w.tracker[n := w.tracker[n] - gone] else w.tracker)
      && w.devices[n].keysets.Keys - (w.devices[n].keysets - gone).Keys == gone
  {
    var keysets := w.devices[n].keysets;
    assert keysets.Keys - (keysets - gone).Keys == gone;
    if gone == {} {
      assert keysets - gone == keysets && w.devices == w.devices[n := w.devices[n]];
      if n in w.tracker { assert w.tracker[n] - gone == w.tracker[n] && w.tracker == w.tracker[n := w.tracker[n]]; }
    }
  }

  lemma CandidateIs(w: World, n: NodeId, k: KeysetId, env: Env)
    requires n in w.devices && k != 0
    ensures k in CleanupCandidates(w, n, env) <==> Candidate(w, n, k, env)
  {
  }

  lemma ForgetStep(w: World, n: NodeId, groups: set<GroupId>)
    ensures var w' := Forget(w, n, GroupsOfNode(w, n) * groups, false);
      && Untracks(w, w', n, groups) && w'.store == w.store
  {
    hide SavedAfterForget;
    assert w.store - {} == w.store;
  }

  lemma SameUntracks(w: World, w1: World, w': World, n: NodeId, groups: set<GroupId>)
    requires w1.provisioned == w.provisioned && Untracks(w1, w', n, groups)
    ensures Untracks(w, w', n, groups)
  {
  }

  /* ---- group_remove, group_remove_all ---- */

  // The keysets and the tracker after a cleanup, of a device whose other fields may have changed before.
  lemma CleanupAfter(w: World, w1: World, n: NodeId, env: Env)
    requires n in w.devices && n in w1.devices && w1.store == w.store && w1.tracker == w.tracker
    requires w1.devices[n].keysets == w.devices[n].keysets
    ensures var w' := Cleanup(w1, n, env).0;
      && n in w'.devices && CleansUp(w, w', n, env)
      && w'.devices == w1.devices[n := w1.devices[n].(keysets := w'.devices[n].keysets)]
      && w'.store == w.store && w'.provisioned == w1.provisioned && w'.kvs == w1.kvs
  {
    hide Cleanup;
    CleanupStep(w1, n, env);
    var w' := Cleanup(w1, n, env).0;
    forall k ensures Orphan(w1, n, k, w'.devices[n].keyMap, env) <==> Orphan(w, n, k, w'.devices[n].keyMap, env) {
      assert Candidate(w1, n, k, env) <==> Candidate(w, n, k, env);
    }
  }

  /** group_remove returns normally exactly if GroupKeyMap can be written. The group is then gone from every
      listed endpoint that answers, from GroupKeyMap and from the access control list, everything else there
      is as it was, in order; the keysets nothing refers to any more are gone, and the node is not tracked
      for the group. */
  lemma RemoveEffects(w: World, n: NodeId, g: GroupId, env: Env)
    requires n in w.devices
    ensures var r := Execute(w, Remove(n, g, env)); var w' := r.world;
      && OnlyNode(w, w', n) && w'.store == w.store && w'.kvs == w.kvs
      && Leaves(w.devices[n], w'.devices[n], {g}, env)
      && (r.outcome == Done <==> KeyMapWrite !in env.down)
      && (r.outcome == Done ==>
            && Unmaps(w.devices[n], w'.devices[n], {g}, env)
            && CleansUp(w, w', n, env)
            && w'.devices[n].acl ==
                 (if AclWritable(env) then Filter(w.devices[n].acl, NotGranting(g)) else w.devices[n].acl)
            && w'.devices[n].foreign == w.devices[n].foreign
            && Untracks(w, w', n, {g}))
      && (r.outcome != Done ==>
            w'.provisioned == w.provisioned && w'.tracker == w.tracker
            && w'.devices[n] == w.devices[n].(tables := w'.devices[n].tables))
  {
    hide RemoveMembers, StripKeyMap, Cleanup, RemoveAcl, Forget, Filter, Leaves, Unmaps, CleansUp, Untracks;
    MembersStep(w, n, {g}, env);
    var w1 := RemoveMembers(w, n, {g}, env);
    StripStep(w1, n, {g}, env);
    var s := StripKeyMap(w1, n, {g}, env);
    if s.Some? {
      CleanupAfter(w, s.value, n, env);
      var w3 := Cleanup(s.value, n, env).0;
      AclStep(w3, n, g, env);
      var w4 := RemoveAcl(w3, n, g, env);
      ForgetStep(w4, n, {g});
      var w' := Forget(w4, n, GroupsOfNode(w4, n) * {g}, false);
      SameUntracks(w, w4, w', n, {g});
      RemoveParts(w, w1, s.value, w3, w4, w', n, {g}, env);
    }
  }

  // The fields of the device are written by one step each.
  lemma RemoveParts(w: World, w1: World, w2: World, w3: World, w4: World, w': World, n: NodeId, groups: set<GroupId>,
                    env: Env)
    requires n in w.devices && n in w1.devices && n in w2.devices && n in w3.devices
    requires w1.devices == w.devices[n := w.devices[n].(tables := w1.devices[n].tables)]
    requires w2.devices == w1.devices[n := w1.devices[n].(keyMap := w2.devices[n].keyMap)]
    requires w3.devices == w2.devices[n := w2.devices[n].(keysets := w3.devices[n].keysets)]
    requires n in w4.devices && w4.devices == w3.devices[n := w3.devices[n].(acl := w4.devices[n].acl)]
    requires w4.tracker == w3.tracker && w'.devices == w4.devices && w'.tracker == w4.tracker
    requires Leaves(w.devices[n], w1.devices[n], groups, env) && Unmaps(w1.devices[n], w2.devices[n], groups, env)
    requires CleansUp(w, w3, n, env)
    ensures OnlyNode(w, w', n) && Leaves(w.devices[n], w'.devices[n], groups, env)
    ensures Unmaps(w.devices[n], w'.devices[n], groups, env) && CleansUp(w, w', n, env)
    ensures w'.devices[n].foreign == w.devices[n].foreign && w3.devices[n].acl == w.devices[n].acl
  {
    hide Filter, Orphan;
  }

  // The groups group_remove_all finds on the reference endpoint.
  ghost predicate Listed(d: Device, ep: Endpoint, g: GroupId, env: Env) {
    MembershipGet !in env.down && ep in d.tables && g in d.tables[ep].members
  }

  /** group_remove_all does the same for the groups it finds on the reference endpoint, and removes every
      Group entry from the access control list. It fails only if it found a group and GroupKeyMap cannot
      be written; where it found none, it leaves group tables and GroupKeyMap alone. */
  lemma RemoveAllEffects(w: World, n: NodeId, ep: Endpoint, env: Env) returns (groups: set<GroupId>)
    requires n in w.devices
    ensures forall g :: g in groups <==> Listed(w.devices[n], ep, g, env)
    ensures var r := Execute(w, RemoveAll(n, ep, env)); var w' := r.world;
      && OnlyNode(w, w', n) && w'.store == w.store && w'.kvs == w.kvs
      && (if groups == {} then w'.devices[n].tables == w.devices[n].tables
          else Leaves(w.devices[n], w'.devices[n], groups, env))
      && (r.outcome == Done <==> groups == {} || KeyMapWrite !in env.down)
      && (r.outcome == Done ==>
            && (if groups == {} then w'.devices[n].keyMap == w.devices[n].keyMap
                else Unmaps(w.devices[n], w'.devices[n], groups, env))
            && CleansUp(w, w', n, env)
            && w'.devices[n].acl ==
                 (if AclWritable(env) then Filter(w.devices[n].acl, NotGroup()) else w.devices[n].acl)
            && w'.devices[n].foreign == w.devices[n].foreign
            && Untracks(w, w', n, w.provisioned.Keys))
      && (r.outcome != Done ==>
            w'.provisioned == w.provisioned && w'.tracker == w.tracker
            && w'.devices[n] == w.devices[n].(tables := w'.devices[n].tables))
  {
    hide RemoveMembers, StripKeyMap, FinishRemoveAll, Filter, Leaves, Unmaps, CleansUp, Untracks;
    groups := ListedGroups(w, n, ep, env);
    if groups == {} {
      FinishEffects(w, w, n, env);
      FinishParts(w, w, w, FinishRemoveAll(w, n, env).world, n, env);
    } else {
      MembersStep(w, n, groups, env);
      var w1 := RemoveMembers(w, n, groups, env);
      StripStep(w1, n, groups, env);
      var s := StripKeyMap(w1, n, groups, env);
      if s.Some? {
        FinishEffects(w, s.value, n, env);
        var w' := FinishRemoveAll(s.value, n, env).world;
        FinishParts(w, w1, s.value, w', n, env);
        FinishFields(w, w1, s.value, w', n, groups, env);
      }
    }
  }

  lemma FinishEffects(w: World, w2: World, n: NodeId, env: Env)
    requires n in w.devices && n in w2.devices && w2.store == w.store && w2.tracker == w.tracker
    requires w2.devices[n].keysets == w.devices[n].keysets && w2.provisioned == w.provisioned && w2.kvs == w.kvs
    ensures var r := FinishRemoveAll(w2, n, env); var w' := r.world;
      && r.outcome == Done && n in w'.devices && CleansUp(w, w', n, env)
      && w'.devices == w2.devices[n := w2.devices[n].(
           keysets := w'.devices[n].keysets,
           acl := if AclWritable(env) then Filter(w2.devices[n].acl, NotGroup()) else w2.devices[n].acl)]
      && Untracks(w, w', n, w.provisioned.Keys)
      && w'.store == w.store && w'.kvs == w.kvs
  {
    hide Cleanup, RemoveAllAcl, Forget, Filter, Untracks, Orphan;
    CleanupAfter(w, w2, n, env);
    var w3 := Cleanup(w2, n, env).0;
    AclStep(w3, n, 0, env);
    var w4 := RemoveAllAcl(w3, n, env);
    ForgetStep(w4, n, w4.provisioned.Keys);
    assert GroupsOfNode(w4, n) * w4.provisioned.Keys == GroupsOfNode(w4, n);
    SameUntracks(w, w4, Forget(w4, n, GroupsOfNode(w4, n), false), n, w.provisioned.Keys);
  }

  lemma FinishParts(w: World, w1: World, w2: World, w': World, n: NodeId, env: Env)
    requires n in w.devices && n in w1.devices && n in w2.devices && n in w'.devices
    requires w1.devices == w.devices || w1.devices == w.devices[n := w.devices[n].(tables := w1.devices[n].tables)]
    requires w2.devices == w1.devices || w2.devices == w1.devices[n := w1.devices[n].(keyMap := w2.devices[n].keyMap)]
    requires w'.devices == w2.devices[n := w2.devices[n].(keysets := w'.devices[n].keysets, acl := w'.devices[n].acl)]
    ensures OnlyNode(w, w', n)
    ensures w'.devices[n].tables == w1.devices[n].tables && w'.devices[n].keyMap == w2.devices[n].keyMap
    ensures w2.devices[n].acl == w.devices[n].acl && w'.devices[n].foreign == w.devices[n].foreign
  {
  }

  lemma FinishFields(w: World, w1: World, w2: World, w': World, n: NodeId, groups: set<GroupId>, env: Env)
    requires n in w.devices && n in w1.devices && n in w2.devices && n in w'.devices
    requires w1.devices == w.devices[n := w.devices[n].(tables := w1.devices[n].tables)]
    requires w'.devices[n].tables == w1.devices[n].tables && w'.devices[n].keyMap == w2.devices[n].keyMap
    requires Leaves(w.devices[n], w1.devices[n], groups, env) && Unmaps(w1.devices[n], w2.devices[n], groups, env)
    ensures Leaves(w.devices[n], w'.devices[n], groups, env) && Unmaps(w.devices[n], w'.devices[n], groups, env)
  {
    hide Filter;
  }

  /* ---- group_key_set_remove, group_reset_node ---- */

  lemma PurgeStep(w: World, n: NodeId, hit: set<GroupId>)
    ensures var w' := Forget(w, n, hit, true);
      Untracks(w, w', n, hit) && PurgesEmpty(w, w', hit * w.store.Keys)
  {
    hide SavedAfterForget;
  }

  /** group_key_set_remove refuses keyset 0, fails where the device does not answer or has no such keyset,
      and otherwise takes the keyset off the device and the tracker, forgets the node for all groups with
      that keyset, and drops the key of those left without nodes. */
  lemma KeysetRemovalEffects(w: World, n: NodeId, keyset: KeysetId, env: Env)
    ensures var r := Execute(w, KeysetRemoval(n, keyset, env)); var w' := r.world;
      && r.outcome == (if keyset == 0 then Invalid
                       else if n in w.devices && KeysetRemove(keyset) !in env.down && keyset in w.devices[n].keysets
                       then Done else CallFailed)
      && (r.outcome != Done ==> w' == w)
      && (r.outcome == Done ==>
            && w'.devices == w.devices[n := w.devices[n].(keysets := w.devices[n].keysets - {keyset})]
            && w'.tracker == (if n in w.tracker then w.tracker[n := w.tracker[n] - {keyset}] else w.tracker)
            && w'.kvs == w.kvs
            && Untracks(w, w', n, WithKeyset(w.store, keyset))
            && PurgesEmpty(w, w', WithKeyset(w.store, keyset)))
  {
    hide RemoveTracked, Forget;
    if Execute(w, KeysetRemoval(n, keyset, env)).outcome == Done {
      RemoveStep(w, n, {keyset});
      var w1 := RemoveTracked(w, n, {keyset});
      PurgeStep(w1, n, GroupsWithKeyset(w1, keyset));
      assert GroupsWithKeyset(w1, keyset) == WithKeyset(w.store, keyset) * w1.store.Keys == WithKeyset(w.store, keyset);
    }
  }

  function WithKeyset(store: map<GroupId, StoredKey>, keyset: KeysetId): set<GroupId> {
    set g | g in store && store[g].keyset == keyset
  }

  // A keyset a reset tries to remove: in the tracker, of a group of the node, or 1 to 63.
  ghost predicate Targeted(w: World, n: NodeId, k: KeysetId) {
    || (n in w.tracker && k in w.tracker[n])
    || (exists g :: g in w.store && w.store[g].keyset == k && g in w.provisioned && n in w.provisioned[g])
    || 1 <= k <= 63
  }

  /** group_reset_node always returns. Of the keysets only 0 and those are left that it does not try or
      cannot remove; GroupKeyMap is empty and no Group entry is left, if they can be written; group tables
      stay. The node is in no tracker and tracked for no group, and groups left without nodes have no key. */
  lemma ResetEffects(w: World, n: NodeId, env: Env)
    ensures var r := Execute(w, Reset(n, env)); var w' := r.world;
      && r.outcome == Done && OnlyNode(w, w', n) && w'.kvs == w.kvs
      && w'.tracker == w.tracker - {n}
      && Untracks(w, w', n, w.provisioned.Keys)
      && PurgesEmpty(w, w', set g | g in w.provisioned && n in w.provisioned[g])
      && (n in w.devices ==> var d, d' := w.devices[n], w'.devices[n];
            && (forall k :: k in d'.keysets <==>
                  k in d.keysets && (k == 0 || KeysetRemove(k) in env.down || !Targeted(w, n, k)))
            && (forall k :: k in d'.keysets ==> d'.keysets[k] == d.keysets[k])
            && d'.keyMap == (if KeyMapWrite in env.down || KeyMapWrite in env.refused then d.keyMap else [])
            && d'.acl == (if AclWritable(env) then Filter(d.acl, NotGroup()) else d.acl)
            && d'.tables == d.tables && d'.foreign == d.foreign)
  {
    hide WipeKeys, RemoveAllAcl, Forget, Filter, Targeted;
    var wa := WipeKeys(w, n, env);
    var wb := RemoveAllAcl(wa, n, env);
    if n in w.devices {
      WipeStep(w, n, env);
      AclStep(wa, n, 0, env);
    } else {
      NobodyThere(w, n, env);
    }
    var wc := DropTracker(wb, n);
    DropStep(wb, n);
    PurgeStep(wc, n, GroupsOfNode(wc, n));
    SameGroups(w, wc, Forget(wc, n, GroupsOfNode(wc, n), true), n);
  }

  lemma NobodyThere(w: World, n: NodeId, env: Env)
    requires n !in w.devices
    ensures RemoveAllAcl(WipeKeys(w, n, env), n, env) == w
  {
  }

  lemma DropStep(w: World, n: NodeId)
    ensures DropTracker(w, n).tracker == w.tracker - {n} && DropTracker(w, n).devices == w.devices
    ensures DropTracker(w, n).store == w.store && DropTracker(w, n).provisioned == w.provisioned
    ensures DropTracker(w, n).kvs == w.kvs
  {
  }

  lemma WipeStep(w: World, n: NodeId, env: Env)
    requires n in w.devices
    ensures n in WipeKeys(w, n, env).devices
    ensures var w' := WipeKeys(w, n, env);
      var d, d' := w.devices[n], w'.devices[n];
      && w'.devices == w.devices[n := d.(keysets := d'.keysets, keyMap := d'.keyMap)]
      && (forall k :: k in d'.keysets <==>
            k in d.keysets && (k == 0 || KeysetRemove(k) in env.down || !Targeted(w, n, k)))
      && (forall k :: k in d'.keysets ==> d'.keysets[k] == d.keysets[k])
      && d'.keyMap == (if KeyMapWrite in env.down || KeyMapWrite in env.refused then d.keyMap else [])
  {
    hide Targeted;
    var d := w.devices[n];
    var gone := RemovableOf(w, n, ResetTargets(w, n) + BruteForceRange(), env);
    forall k | k in d.keysets ensures k in gone <==> k != 0 && KeysetRemove(k) !in env.down && Targeted(w, n, k) {
      TargetedIs(w, n, k);
    }
  }

  lemma TargetedIs(w: World, n: NodeId, k: KeysetId)
    ensures k in ResetTargets(w, n) + BruteForceRange() <==> k != 0 && Targeted(w, n, k)
  {
  }

  lemma SameGroups(w: World, wc: World, w': World, n: NodeId)
    requires wc.store == w.store && wc.provisioned == w.provisioned
    requires Untracks(wc, w', n, GroupsOfNode(wc, n)) && PurgesEmpty(wc, w', GroupsOfNode(wc, n) * wc.store.Keys)
    ensures Untracks(w, w', n, w.provisioned.Keys)
    ensures PurgesEmpty(w, w', set g | g in w.provisioned && n in w.provisioned[g])
  {
  }

  /* ---- group_add_key_set, group_bind_key_set ---- */

  // KeySetWrite reaches the node and finds the keyset or a free slot.
  predicate Takes(w: World, m: NodeId, keyset: KeysetId, env: Env) {
    m in w.devices && KeysetWrite(m, 0) !in env.down
      && (keyset in w.devices[m].keysets || |w.devices[m].keysets| < w.devices[m].keysetCapacity)
  }

  /** group_add_key_set writes the key, and the tracker has the keyset then, or does nothing at all. */
  lemma KeysetAdditionEffects(w: World, n: NodeId, keyset: KeysetId, key: Key, env: Env)
    ensures var r := Execute(w, KeysetAddition(n, keyset, key, env)); var w' := r.world;
      && (r.outcome == Done <==> Takes(w, n, keyset, env))
      && (r.outcome != Done ==> w' == w)
      && (r.outcome == Done ==> var d := w.devices[n];
            && w'.devices == w.devices[n := d.(keysets := d.keysets[keyset := key], foreign := d.foreign - {keyset})]
            && w'.tracker == w.tracker[n := (if n in w.tracker then w.tracker[n] else {}) + {keyset}]
            && w'.store == w.store && w'.provisioned == w.provisioned && w'.kvs == w.kvs)
  {
  }

  /** group_bind_key_set appends one entry for the group in place of those it had, and keeps the others in
      order. A read without attributes is the end of it, without an error. */
  lemma KeysetBindingEffects(w: World, n: NodeId, g: GroupId, keyset: KeysetId, env: Env)
    ensures var r := Execute(w, KeysetBinding(n, g, keyset, env)); var w' := r.world;
      && w' == w.(devices := w'.devices)
      && (r.outcome == Done <==>
            n in w.devices && KeyMapRead(0) !in env.down && (env.noAttributes || KeyMapWrite !in env.down))
      && (if r.outcome != Done || env.noAttributes || KeyMapWrite in env.refused then w'.devices == w.devices
          else w'.devices == w.devices[n := w.devices[n].(
                 keyMap := Filter(w.devices[n].keyMap, NotMapping({g})) + [KeyMapEntry(g, keyset)])])
  {
    hide Without, Filter;
    if n in w.devices { WithoutFilters(w.devices[n].keyMap, {g}); }
  }

  /* ---- group_send_command ---- */

  predicate SentTo(w: World, g: GroupId, m: NodeId) {
    g in w.store && g in w.provisioned && m in w.provisioned[g]
  }

  predicate Refreshes(w: World, g: GroupId, m: NodeId, env: Env) {
    SentTo(w, g, m) && Takes(w, m, w.store[g].keyset, env)
  }

  // The device with the key.
  function Given(d: Device, sk: StoredKey): Device {
    d.(keysets := d.keysets[sk.keyset := sk.key], foreign := d.foreign - {sk.keyset})
  }

  // The tracker of node m and its copy have the keyset.
  ghost predicate Recorded(w: World, w': World, m: NodeId, keyset: KeysetId) {
    var keysets := (if m in w.tracker then w.tracker[m] else {}) + {keyset};
    && m in w'.tracker && w'.tracker[m] == keysets
    && TrackerCell(m) in w'.saved && w'.saved[TrackerCell(m)] == Storage.Ids(keysets)
  }

  ghost predicate SameTracker(w: World, w': World, m: NodeId) {
    (m in w'.tracker <==> m in w.tracker) && (m in w.tracker ==> w'.tracker[m] == w.tracker[m])
  }

  /** Before a groupcast every node tracked for the group is given the group's key again; where that works
      the device holds it, and the tracker has the keyset, and so has its copy. No other device, keyset or
      field is touched. */
  lemma SendRefreshes(w: World, g: GroupId, env: Env)
    ensures var w' := Execute(w, Send(g, env)).world;
      && w'.devices.Keys == w.devices.Keys && w'.store == w.store && w'.provisioned == w.provisioned
      && (forall m :: m in w.devices ==>
            w'.devices[m] == if Refreshes(w, g, m, env) then Given(w.devices[m], w.store[g]) else w.devices[m])
      && forall m :: if Refreshes(w, g, m, env) then Recorded(w, w', m, w.store[g].keyset) else SameTracker(w, w', m)
  {
    hide InjectPrefix, Given, Recorded, SameTracker, EnsureKeysets, Refreshes;
    RefreshedWorld(w, g, env);
    if g in w.store {
      EnsureStep(w, g, env);
      var w1 := EnsureKeysets(w, ProvisionedOf(w, g), w.store[g], env);
      var w' := Execute(w, Send(g, env)).world;
      forall m
        ensures if Refreshes(w, g, m, env) then Recorded(w, w', m, w.store[g].keyset) else SameTracker(w, w', m)
      {
        SameRecords(w, w1, w', m, w.store[g].keyset);
      }
    } else {
      forall m ensures !Refreshes(w, g, m, env) && SameTracker(w, Execute(w, Send(g, env)).world, m) {
        NotSent(w, Execute(w, Send(g, env)).world, g, m, env);
      }
    }
  }

  // What is sent afterwards changes the key-value storage at most.
  lemma RefreshedWorld(w: World, g: GroupId, env: Env)
    ensures var w' := Execute(w, Send(g, env)).world;
      w' == (if g in w.store then EnsureKeysets(w, ProvisionedOf(w, g), w.store[g], env) else w).(kvs := w'.kvs)
  {
    hide InjectPrefix, EnsureKeysets;
  }

  lemma SameRecords(w: World, w1: World, w': World, m: NodeId, keyset: KeysetId)
    requires w'.tracker == w1.tracker && w'.saved == w1.saved
    ensures Recorded(w, w1, m, keyset) ==> Recorded(w, w', m, keyset)
    ensures SameTracker(w, w1, m) ==> SameTracker(w, w', m)
  {
  }

  lemma NotSent(w: World, w': World, g: GroupId, m: NodeId, env: Env)
    requires g !in w.store && w'.tracker == w.tracker
    ensures !Refreshes(w, g, m, env) && SameTracker(w, w', m)
  {
  }

  lemma EnsureStep(w: World, g: GroupId, env: Env)
    requires g in w.store
    ensures var w' := EnsureKeysets(w, ProvisionedOf(w, g), w.store[g], env);
      && w'.devices.Keys == w.devices.Keys && w'.store == w.store && w'.provisioned == w.provisioned
      && (forall m :: m in w.devices ==>
            w'.devices[m] == if Refreshes(w, g, m, env) then Given(w.devices[m], w.store[g]) else w.devices[m])
      && forall m :: if Refreshes(w, g, m, env) then Recorded(w, w', m, w.store[g].keyset) else SameTracker(w, w', m)
  {
    hide Given, Recorded, SameTracker, RefreshAll;
    var sk := w.store[g];
    var hit := Refreshed(w, ProvisionedOf(w, g), sk.keyset, sk.key, env);
    forall m ensures m in hit <==> Refreshes(w, g, m, env) { }
    RefreshStep(w, hit, sk);
  }

  lemma RefreshStep(w: World, hit: set<NodeId>, sk: StoredKey)
    ensures var w' := RefreshAll(w, hit, sk);
      && w'.store == w.store && w'.provisioned == w.provisioned && w'.kvs == w.kvs
      && w'.devices.Keys == w.devices.Keys
      && (forall m :: m in w.devices ==> w'.devices[m] == if m in hit then Given(w.devices[m], sk) else w.devices[m])
      && forall m :: if m in hit then Recorded(w, w', m, sk.keyset) else SameTracker(w, w', m)
  {
    forall m | m in hit ensures TrackerCell(m) in TrackerCells(hit) { }
  }

  /** The groupcast is done when it got out, at once or after error 0xAC; that error is InvalidArguments for
      a group without a key, and otherwise the key is injected into the controller's own storage first. */
  lemma SendOutcome(w: World, g: GroupId, env: Env)
    ensures var r := Execute(w, Send(g, env));
      && (r.outcome == Done <==> env.sending == Sent || (env.sending == KeyMissing && g in w.store && env.resent))
      && (r.outcome == Invalid <==> env.sending == KeyMissing && g !in w.store)
      && r.world.kvs == (if env.sending == KeyMissing && g in w.store
           then InjectPrefix(w.kvs, g, w.store[g].keyset, w.store[g].key, env.first.mapId, env.first.writes)
           else w.kvs)
  {
    hide InjectPrefix, RefreshedDevices, RefreshedTracker, RefreshedSaved, Refreshed;
  }
}
