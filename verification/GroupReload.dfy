/** The stored copies of the controller's three maps: what a restart reconstructs, over every run. */
module GroupReload {
  import opened Wrappers
  import opened Minimum
  import opened KeyChain
  import opened Devices
  import opened Cells
  import opened GroupProtocol
  import Storage

  // The stored copy of a map holds exactly its entries.
  ghost predicate KeysCopied(store: map<GroupId, StoredKey>, saved: Storage.Data) {
    && (forall g :: g in store ==>
      KeyCell(g) in saved && saved[KeyCell(g)] == Storage.KeyRecord(store[g].keyset, store[g].key))
    && (forall c :: c in saved && c.key.GroupKeys? ==> c.subkey.Some? && c.subkey.value in store)
  }

  ghost predicate TrackerCopied(tracker: map<NodeId, set<KeysetId>>, saved: Storage.Data) {
    && (forall n :: n in tracker ==> TrackerCell(n) in saved && saved[TrackerCell(n)] == Storage.Ids(tracker[n]))
    && (forall c :: c in saved && c.key.NodeKeysets? ==> c.subkey.Some? && c.subkey.value in tracker)
  }

  ghost predicate NodesCopied(provisioned: map<GroupId, set<NodeId>>, saved: Storage.Data) {
    && (forall g :: g in provisioned ==> NodesCell(g) in saved && saved[NodesCell(g)] == Storage.Ids(provisioned[g]))
    && (forall c :: c in saved && c.key.GroupNodes? ==> c.subkey.Some? && c.subkey.value in provisioned)
  }

  ghost predicate KeysSaved(w: World) { KeysCopied(w.store, w.saved) }
  ghost predicate TrackerSaved(w: World) { TrackerCopied(w.tracker, w.saved) }
  ghost predicate NodesSaved(w: World) { NodesCopied(w.provisioned, w.saved) }

  // What the three loops of `start` build from the stored copies.
  function ReloadedKeys(saved: Storage.Data): map<GroupId, StoredKey> {
    map c | c in saved && c.key.GroupKeys? && c.subkey.Some? && saved[c].KeyRecord? ::
      c.subkey.value := StoredKey(saved[c].keyset, saved[c].key)
  }

  function ReloadedTracker(saved: Storage.Data): map<NodeId, set<KeysetId>> {
    map c | c in saved && c.key.NodeKeysets? && c.subkey.Some? && saved[c].Ids? :: c.subkey.value := saved[c].ids
  }

  function ReloadedNodes(saved: Storage.Data): map<GroupId, set<NodeId>> {
    map c | c in saved && c.key.GroupNodes? && c.subkey.Some? && saved[c].Ids? :: c.subkey.value := saved[c].ids
  }

  // The controller after a restart: memory is what was stored, the rest is untouched.
  function Restarted(w: World): World {
    w.(store := ReloadedKeys(w.saved), tracker := ReloadedTracker(w.saved), provisioned := ReloadedNodes(w.saved))
  }

  lemma ReloadedAt(saved: Storage.Data)
    ensures forall g :: g in ReloadedKeys(saved) <==> KeyCell(g) in saved && saved[KeyCell(g)].KeyRecord?
    ensures forall g :: g in ReloadedKeys(saved) ==>
      ReloadedKeys(saved)[g] == StoredKey(saved[KeyCell(g)].keyset, saved[KeyCell(g)].key)
    ensures forall n :: n in ReloadedTracker(saved) <==> TrackerCell(n) in saved && saved[TrackerCell(n)].Ids?
    ensures forall n :: n in ReloadedTracker(saved) ==> ReloadedTracker(saved)[n] == saved[TrackerCell(n)].ids
    ensures forall g :: g in ReloadedNodes(saved) <==> NodesCell(g) in saved && saved[NodesCell(g)].Ids?
    ensures forall g :: g in ReloadedNodes(saved) ==> ReloadedNodes(saved)[g] == saved[NodesCell(g)].ids
  {
    forall g ensures g in ReloadedKeys(saved) <==> KeyCell(g) in saved && saved[KeyCell(g)].KeyRecord? {
      if KeyCell(g) in saved && saved[KeyCell(g)].KeyRecord? { assert KeyCell(g).subkey.value in ReloadedKeys(saved); }
    }
    forall n ensures n in ReloadedTracker(saved) <==> TrackerCell(n) in saved && saved[TrackerCell(n)].Ids? {
      if TrackerCell(n) in saved && saved[TrackerCell(n)].Ids? {
        assert TrackerCell(n).subkey.value in ReloadedTracker(saved);
      }
    }
    forall g ensures g in ReloadedNodes(saved) <==> NodesCell(g) in saved && saved[NodesCell(g)].Ids? {
      if NodesCell(g) in saved && saved[NodesCell(g)].Ids? { assert NodesCell(g).subkey.value in ReloadedNodes(saved); }
    }
  }

  /** A restart rebuilds each map exactly from an exact copy. */
  lemma RestartRebuilds(w: World)
    ensures KeysSaved(w) ==> Restarted(w).store == w.store
    ensures TrackerSaved(w) ==> Restarted(w).tracker == w.tracker
    ensures NodesSaved(w) ==> Restarted(w).provisioned == w.provisioned
  {
    ReloadedAt(w.saved);
    hide ReloadedKeys, ReloadedTracker, ReloadedNodes;
    if KeysSaved(w) { assert forall g :: g in Restarted(w).store <==> g in w.store; }
    if TrackerSaved(w) { assert forall n :: n in Restarted(w).tracker <==> n in w.tracker; }
    if NodesSaved(w) { assert forall g :: g in Restarted(w).provisioned <==> g in w.provisioned; }
  }

  // The copies that agree with memory in w still agree in w'.
  ghost predicate StillSaved(w: World, w': World) {
    && (KeysSaved(w) ==> KeysSaved(w'))
    && (TrackerSaved(w) ==> TrackerSaved(w'))
    && (NodesSaved(w) ==> NodesSaved(w'))
  }

  lemma PutKeySaved(w: World, g: GroupId, sk: StoredKey)
    ensures StillSaved(w, PutKey(w, g, sk))
  {
  }

  lemma PutTrackerSaved(w: World, n: NodeId, s: set<KeysetId>)
    ensures StillSaved(w, PutTracker(w, n, s))
  {
  }

  lemma PutProvisionedSaved(w: World, g: GroupId, s: set<NodeId>)
    ensures StillSaved(w, PutProvisioned(w, g, s))
  {
  }

  lemma DropTrackerSaved(w: World, n: NodeId)
    ensures StillSaved(w, DropTracker(w, n))
  {
  }

  /* ---- Forgetting a node ---- */

  // A group is purged while its stored node list still names the node.
  ghost predicate PurgesListed(w: World, n: NodeId, hit: set<GroupId>, purge: bool) {
    exists g :: g in Purged(w, n, hit, purge) && n in ProvisionedOf(w, g)
  }

  lemma ForgetKeysSaved(w: World, n: NodeId, hit: set<GroupId>, purge: bool)
    ensures KeysSaved(w) ==> KeysSaved(Forget(w, n, hit, purge))
    ensures TrackerSaved(w) ==> TrackerSaved(Forget(w, n, hit, purge))
  {
  }

  /** Forgetting a node keeps the stored node lists exact if and only if no purged group's list still
      names the node: the purge clears it in memory and does not rewrite it. */
  lemma ForgetNodesSavedIff(w: World, n: NodeId, hit: set<GroupId>, purge: bool)
    requires NodesSaved(w) && (purge || hit <= w.provisioned.Keys)
    ensures NodesSaved(Forget(w, n, hit, purge)) <==> !PurgesListed(w, n, hit, purge)
  {
    var w' := Forget(w, n, hit, purge);
    var purged := Purged(w, n, hit, purge);
    forall g | g in hit - purged ensures g in w.provisioned {
      assert purge ==> LeftProvisioned(w, n, g) != {};
    }
    if PurgesListed(w, n, hit, purge) {
      var g :| g in purged && n in ProvisionedOf(w, g);
      assert w'.saved[NodesCell(g)] == Storage.Ids(w.provisioned[g]);
      assert w'.provisioned[g] == {};
    } else {
      forall g | g in w'.provisioned
        ensures NodesCell(g) in w'.saved && w'.saved[NodesCell(g)] == Storage.Ids(w'.provisioned[g])
      {
        if g in purged {
          assert n !in ProvisionedOf(w, g);
          assert w.provisioned[g] - {n} == w.provisioned[g];
        }
      }
    }
  }

  /* ---- Commands ---- */

  lemma AddKeysetSaved(w: World, n: NodeId, keyset: KeysetId, key: Key, attempt: nat, env: Env)
    ensures StillSaved(w, AddKeyset(w, n, keyset, key, attempt, env).0)
  {
    if Reach(w, n, KeysetWrite(n, attempt), env) && WriteKeyset(w.devices[n], keyset, key).Some? {
      PutTrackerSaved(PutDevice(w, n, WriteKeyset(w.devices[n], keyset, key).value), n, TrackerOf(w, n) + {keyset});
    }
  }

  lemma RemoveTrackedSaved(w: World, n: NodeId, gone: set<KeysetId>)
    requires gone != {} ==> n in w.devices
    ensures StillSaved(w, RemoveTracked(w, n, gone))
  {
    if gone != {} && n in w.tracker {
      PutTrackerSaved(PutDevice(w, n, RemoveKeysets(w.devices[n], gone)), n, w.tracker[n] - gone);
    }
  }

  lemma InstallSaved(w: World, n: NodeId, sk: StoredKey, env: Env)
    ensures StillSaved(w, Install(w, n, sk, env).0)
  {
    hide KeysCopied, TrackerCopied, NodesCopied;
    AddKeysetSaved(w, n, sk.keyset, sk.key, 0, env);
    var w1 := AddKeyset(w, n, sk.keyset, sk.key, 0, env).0;
    RemoveTrackedSaved(w1, n, RemovableOf(w1, n, Orphaned(w1, n, env), env));
    AddKeysetSaved(Cleanup(w1, n, env).0, n, sk.keyset, sk.key, 1, env);
  }

  lemma RemapSaved(w: World, n: NodeId, g: GroupId, sk: StoredKey, env: Env)
    ensures StillSaved(w, Remap(w, n, g, sk, env))
  {
    PutTrackerSaved(w, n, TrackerOf(w, n) + {sk.keyset});
    PutKeySaved(RecordKeyset(w, n, sk.keyset), g, sk);
  }

  lemma ProvisionSaved(w: World, n: NodeId, g: GroupId, sk: StoredKey, env: Env, winner: GroupId)
    ensures StillSaved(w, Provision(w, n, g, sk, env, winner).world)
  {
    hide KeysCopied, TrackerCopied, NodesCopied, Install, Remap, Reusable, StoreKeysets, ReadKeyMap;
    InstallSaved(w, n, sk, env);
    var (w1, status) := Install(w, n, sk, env);
    if status == Exhausted && Reusable(w1, n, env) != {} {
      RemapSaved(w1, n, g, w1.store[PickWinner(w1.store, Min(Reusable(w1, n, env)), winner)], env);
    }
  }

  lemma AddSaved(w: World, n: NodeId, ep: Endpoint, g: GroupId, env: Env, winner: GroupId)
    ensures StillSaved(w, AddToGroup(w, n, ep, g, env, winner).world)
  {
    hide KeysCopied, TrackerCopied, NodesCopied;
    hide Provision;
    var sk := StoredKey(KeysetFor(g), env.freshKey);
    PutKeySaved(InjectKeys(w, g, sk, env.first), g, sk);
    var prepared := Prepare(w, n, ep, g, env);
    assert StillSaved(w, prepared.world);
    if prepared.outcome == Done {
      ProvisionSaved(prepared.world, n, g, prepared.world.store[g], env, winner);
      JoinSaved(ProvisionAfter(prepared.world, n, g, env, winner).world, n, ep, g, env);
    }
  }

  lemma JoinSaved(w: World, n: NodeId, ep: Endpoint, g: GroupId, env: Env)
    ensures StillSaved(w, JoinGroup(w, n, ep, g, env).world)
  {
    hide KeysCopied, TrackerCopied, NodesCopied;
    if Reach(w, n, MemberAdd, env) {
      var w1 := if MemberAdd in env.refused then w else PutTable(w, n, ep, AddMember(TableOf(w.devices[n], ep), g));
      var w2 := EnsureAcl(w1, n, g, env);
      PutProvisionedSaved(w2, g, ProvisionedOf(w2, g) + {n});
    }
  }

  lemma RemoveSaved(w: World, n: NodeId, g: GroupId, env: Env)
    ensures StillSaved(w, RemoveFromGroup(w, n, g, env).world)
  {
    hide KeysCopied, TrackerCopied, NodesCopied, Cleanup, RemoveMembers, GroupsOfNode, Forget, Without, ReadKeyMap,
         HasGroup, RemoveGroup;
    var w1 := RemoveMembers(w, n, {g}, env);
    var s := StripKeyMap(w1, n, {g}, env);
    if s.Some? {
      CleanupThenForget(w, s.value, n, RemoveAcl(Cleanup(s.value, n, env).0, n, g, env), env, {g});
    }
  }

  lemma CleanupThenForget(w: World, w2: World, n: NodeId, w3: World, env: Env, among: set<GroupId>)
    requires w2.store == w.store && w2.tracker == w.tracker && w2.provisioned == w.provisioned && w2.saved == w.saved
    requires var c := Cleanup(w2, n, env).0;
      w3.store == c.store && w3.tracker == c.tracker && w3.provisioned == c.provisioned && w3.saved == c.saved
    ensures StillSaved(w, Forget(w3, n, GroupsOfNode(w3, n) * among, false))
    ensures StillSaved(w, Forget(w3, n, GroupsOfNode(w3, n), false))
  {
    hide KeysCopied, TrackerCopied, NodesCopied;
    RemoveTrackedSaved(w2, n, RemovableOf(w2, n, Orphaned(w2, n, env), env));
    ForgetKeysSaved(w3, n, GroupsOfNode(w3, n) * among, false);
    ForgetKeysSaved(w3, n, GroupsOfNode(w3, n), false);
    if NodesSaved(w3) {
      ForgetNodesSavedIff(w3, n, GroupsOfNode(w3, n) * among, false);
      ForgetNodesSavedIff(w3, n, GroupsOfNode(w3, n), false);
    }
  }

  lemma RemoveAllSaved(w: World, n: NodeId, ep: Endpoint, env: Env)
    ensures StillSaved(w, RemoveFromAllGroups(w, n, ep, env).world)
  {
    hide KeysCopied, TrackerCopied, NodesCopied, Cleanup, RemoveMembers, GroupsOfNode, Forget, Without, ReadKeyMap,
         RemoveAllGroups;
    var groups := ListedGroups(w, n, ep, env);
    var w1 := RemoveMembers(w, n, groups, env);
    var s := StripKeyMap(w1, n, groups, env);
    if groups == {} {
      CleanupThenForget(w, w, n, RemoveAllAcl(Cleanup(w, n, env).0, n, env), env, {});
    } else if s.Some? {
      CleanupThenForget(w, s.value, n, RemoveAllAcl(Cleanup(s.value, n, env).0, n, env), env, {});
    }
  }

  lemma TrackerBulkSaved(tracker: map<NodeId, set<KeysetId>>, saved: Storage.Data, more: map<NodeId, set<KeysetId>>)
    requires TrackerCopied(tracker, saved)
    ensures TrackerCopied(tracker + more, saved + map c | c in TrackerCells(more.Keys) ::
      Storage.Ids(more[c.subkey.value]))
  {
    var tracker' := tracker + more;
    var saved' := saved + map c | c in TrackerCells(more.Keys) :: Storage.Ids(more[c.subkey.value]);
    forall n | n in tracker' ensures TrackerCell(n) in saved' && saved'[TrackerCell(n)] == Storage.Ids(tracker'[n]) {
      if n in more { assert TrackerCell(n) in TrackerCells(more.Keys); }
    }
  }

  lemma OtherCellsSaved(w: World, more: Storage.Data)
    requires forall c :: c in more ==> c.key.NodeKeysets?
    ensures KeysSaved(w) ==> KeysCopied(w.store, w.saved + more)
    ensures NodesSaved(w) ==> NodesCopied(w.provisioned, w.saved + more)
  {
  }

  lemma EnsureKeysetsSaved(w: World, nodes: set<NodeId>, sk: StoredKey, env: Env)
    ensures StillSaved(w, EnsureKeysets(w, nodes, sk, env))
  {
    hide Refreshed, KeysCopied, TrackerCopied, NodesCopied, RefreshedTracker, RefreshedSaved, RefreshedDevices;
    var hit := Refreshed(w, nodes, sk.keyset, sk.key, env);
    RefreshedCopies(w, hit, sk);
  }

  lemma RefreshedCopies(w: World, hit: set<NodeId>, sk: StoredKey)
    ensures TrackerSaved(w) ==> TrackerCopied(RefreshedTracker(w, hit, sk), RefreshedSaved(w, hit, sk))
    ensures KeysSaved(w) ==> KeysCopied(w.store, RefreshedSaved(w, hit, sk))
    ensures NodesSaved(w) ==> NodesCopied(w.provisioned, RefreshedSaved(w, hit, sk))
  {
    hide KeysCopied, TrackerCopied, NodesCopied, TrackerOf;
    var tracked := map n | n in hit :: TrackerOf(w, n) + {sk.keyset};
    var cells := map c | c in TrackerCells(tracked.Keys) :: Storage.Ids(tracked[c.subkey.value]);
    assert tracked.Keys == hit;
    assert RefreshedTracker(w, hit, sk) == w.tracker + tracked;
    assert RefreshedSaved(w, hit, sk) == w.saved + cells;
    if TrackerSaved(w) { TrackerBulkSaved(w.tracker, w.saved, tracked); }
    OtherCellsSaved(w, cells);
  }

  // The purge branches: group_key_set_remove and group_reset_node for a group left without nodes.
  ghost predicate Purges(w: World, c: Command) {
    match c
    case KeysetRemoval(n, keyset, env) =>
      KeysetGoes(w, n, keyset, env) && PurgesListed(w, n, GroupsWithKeyset(w, keyset), true)
    case Reset(n, env) => PurgesListed(w, n, GroupsOfNode(w, n), true)
    case _ => false
  }

  /** Every command keeps the stored keys and the stored tracker exact, and keeps the stored node lists
      exact if and only if it does not purge a group whose list names the node. */
  lemma ExecuteSaved(w: World, c: Command)
    ensures KeysSaved(w) ==> KeysSaved(Execute(w, c).world)
    ensures TrackerSaved(w) ==> TrackerSaved(Execute(w, c).world)
    ensures NodesSaved(w) ==> (NodesSaved(Execute(w, c).world) <==> !Purges(w, c))
  {
    hide KeysCopied, TrackerCopied, NodesCopied;
    match c
    case Add(n, ep, g, env, winner) => AddSaved(w, n, ep, g, env, winner);
    case Remove(n, g, env) => RemoveSaved(w, n, g, env);
    case RemoveAll(n, ep, env) => RemoveAllSaved(w, n, ep, env);
    case Send(g, env) =>
      if g in w.store { EnsureKeysetsSaved(w, ProvisionedOf(w, g), w.store[g], env); }
    case KeysetAddition(n, keyset, key, env) => AddKeysetSaved(w, n, keyset, key, 0, env);
    case KeysetBinding(n, g, keyset, env) =>
    case KeysetRemoval(n, keyset, env) => KeysetRemovalSaved(w, n, keyset, env);
    case Reset(n, env) => ResetSaved(w, n, env);
  }

  lemma KeysetRemovalSaved(w: World, n: NodeId, keyset: KeysetId, env: Env)
    ensures var c, w' := KeysetRemoval(n, keyset, env), RemoveKeyset(w, n, keyset, env).world;
      && (KeysSaved(w) ==> KeysSaved(w'))
      && (TrackerSaved(w) ==> TrackerSaved(w'))
      && (NodesSaved(w) ==> (NodesSaved(w') <==> !Purges(w, c)))
  {
    hide KeysCopied, TrackerCopied, NodesCopied;
    if RemoveKeyset(w, n, keyset, env).outcome == Done {
      RemoveTrackedSaved(w, n, {keyset});
      var w1 := RemoveTracked(w, n, {keyset});
      ForgetKeysSaved(w1, n, GroupsWithKeyset(w1, keyset), true);
      assert NodesSaved(w) ==> NodesSaved(w1);
      if NodesSaved(w1) { ForgetNodesSavedIff(w1, n, GroupsWithKeyset(w1, keyset), true); }
      assert GroupsWithKeyset(w1, keyset) == GroupsWithKeyset(w, keyset);
      SamePurges(w, w1, n, GroupsWithKeyset(w, keyset));
    }
  }

  lemma SamePurges(w: World, w': World, n: NodeId, hit: set<GroupId>)
    requires w'.provisioned == w.provisioned
    ensures PurgesListed(w, n, hit, true) <==> PurgesListed(w', n, hit, true)
  {
    assert Purged(w, n, hit, true) == Purged(w', n, hit, true);
  }

  lemma ResetSaved(w: World, n: NodeId, env: Env)
    ensures KeysSaved(w) ==> KeysSaved(ResetNode(w, n, env).world)
    ensures TrackerSaved(w) ==> TrackerSaved(ResetNode(w, n, env).world)
    ensures NodesSaved(w) ==> (NodesSaved(ResetNode(w, n, env).world) <==> !Purges(w, Reset(n, env)))
  {
    hide KeysCopied, TrackerCopied, NodesCopied, RemovableOf, Forget, ResetTargets, BruteForceRange, RemoveAllGroups,
         PurgesListed;
    var wa := RemoveAllAcl(WipeKeys(w, n, env), n, env);
    assert StillSaved(w, wa);
    DropTrackerSaved(wa, n);
    var w3 := DropTracker(wa, n);
    ForgetKeysSaved(w3, n, GroupsOfNode(w3, n), true);
    if NodesSaved(w3) { ForgetNodesSavedIff(w3, n, GroupsOfNode(w3, n), true); }
    assert GroupsOfNode(w3, n) == GroupsOfNode(w, n);
    SamePurges(w, w3, n, GroupsOfNode(w, n));
  }

  ghost predicate NeverPurges(w: World, cs: seq<Command>)
    decreases cs
  {
    cs == [] || (!Purges(w, cs[0]) && NeverPurges(Execute(w, cs[0]).world, cs[1..]))
  }

  ghost predicate NodesSavedThroughout(w: World, cs: seq<Command>)
    decreases cs
  {
    NodesSaved(w) && (cs != [] ==> NodesSavedThroughout(Execute(w, cs[0]).world, cs[1..]))
  }

  /** Over every run, whatever fails in it: after each command a restart would reconstruct the
      provisioned-nodes tracker exactly, if and only if no command purges a group whose list names the
      node. */
  lemma {:induction false} RunNodesSavedIff(w: World, cs: seq<Command>)
    requires NodesSaved(w)
    ensures NodesSavedThroughout(w, cs) <==> NeverPurges(w, cs)
    decreases cs
  {
    hide Execute, NodesSaved, KeysSaved, TrackerSaved, Purges;
    if cs != [] {
      ExecuteSaved(w, cs[0]);
      if !Purges(w, cs[0]) { RunNodesSavedIff(Execute(w, cs[0]).world, cs[1..]); }
      else { NodesSavedNow(Execute(w, cs[0]).world, cs[1..]); }
    }
  }

  lemma NodesSavedNow(w: World, cs: seq<Command>)
    ensures NodesSavedThroughout(w, cs) ==> NodesSaved(w)
  {
    hide Execute, NodesSaved;
  }

  /** And, with purges as well, the key store and the keyset tracker. */
  lemma {:induction false} RunKeysSaved(w: World, cs: seq<Command>)
    requires KeysSaved(w) && TrackerSaved(w)
    ensures KeysSaved(Run(w, cs)) && TrackerSaved(Run(w, cs))
    decreases cs
  {
    if cs != [] {
      ExecuteSaved(w, cs[0]);
      RunKeysSaved(Execute(w, cs[0]).world, cs[1..]);
    }
  }
}
