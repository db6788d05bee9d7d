/** What a restart of the controller does to the nodes tracked for groups. */
module GroupRestart {
  import opened Devices
  import opened Cells
  import opened GroupProtocol
  import opened GroupFrames
  import opened GroupKeys
  import opened GroupReload
  import opened GroupInvariant
  import Storage

  // The stored node list of the group names the node.
  ghost predicate Listed(saved: Storage.Data, g: GroupId, m: NodeId) {
    NodesCell(g) in saved && saved[NodesCell(g)].Ids? && m in saved[NodesCell(g)].ids
  }

  /** A restart tracks what the stored node lists name: the invariant holds afterwards if and only if every
      listed node can decrypt its group. */
  lemma RestartKeepsIff(w: World)
    requires KeysAgree(w.store) && KeysSaved(w)
    ensures Invariant(Restarted(w)) <==> forall g, m :: Listed(w.saved, g, m) ==> Served(w, g, m)
  {
    hide KeysAgree, CanDecrypt;
    ReloadedAt(w.saved);
    RestartRebuilds(w);
    var w' := Restarted(w);
    hide Restarted, ReloadedKeys, ReloadedTracker, ReloadedNodes;
    RestartedParts(w);
    forall g, m ensures Tracked(w'.provisioned, g, m) <==> Listed(w.saved, g, m) { }
    forall g, m ensures Served(w', g, m) <==> Served(w, g, m) { }
  }

  lemma RestartedParts(w: World)
    ensures Restarted(w).devices == w.devices && Restarted(w).kvs == w.kvs && Restarted(w).saved == w.saved
    ensures Restarted(w).provisioned == ReloadedNodes(w.saved)
  {
  }

  // A purge leaves a list that names the node for a group without a key.
  lemma PurgeLeavesList(w: World, n: NodeId, hit: set<GroupId>) returns (g: GroupId)
    requires NodesSaved(w) && PurgesListed(w, n, hit, true)
    ensures var w' := Forget(w, n, hit, true); g !in w'.store && Listed(w'.saved, g, n)
  {
    g :| g in Purged(w, n, hit, true) && n in ProvisionedOf(w, g);
    var w' := Forget(w, n, hit, true);
    assert w.saved[NodesCell(g)] == Storage.Ids(w.provisioned[g]);
    assert w'.saved[NodesCell(g)] == w.saved[NodesCell(g)];
  }

  lemma CommandLeavesList(w: World, c: Command) returns (g: GroupId)
    requires NodesSaved(w) && Purges(w, c)
    ensures !c.Send? && var w' := Execute(w, c).world; g !in w'.store && Listed(w'.saved, g, c.node)
  {
    hide KeysCopied, TrackerCopied, NodesCopied, Forget, RemoveTracked, PurgesListed, Listed, RemovableOf,
         ResetTargets, RemoveAllGroups;
    if c.KeysetRemoval? {
      RemoveTrackedSaved(w, c.node, {c.keyset});
      var w1 := RemoveTracked(w, c.node, {c.keyset});
      RemoveTrackedFrame(w, c.node, {c.keyset});
      SamePurges(w, w1, c.node, GroupsWithKeyset(w, c.keyset));
      assert GroupsWithKeyset(w1, c.keyset) == GroupsWithKeyset(w, c.keyset);
      g := PurgeLeavesList(w1, c.node, GroupsWithKeyset(w1, c.keyset));
    } else {
      var wa := RemoveAllAcl(WipeKeys(w, c.node, c.env), c.node, c.env);
      assert StillSaved(w, wa);
      DropTrackerSaved(wa, c.node);
      var w3 := DropTracker(wa, c.node);
      assert GroupsOfNode(w3, c.node) == GroupsOfNode(w, c.node);
      SamePurges(w, w3, c.node, GroupsOfNode(w, c.node));
      g := PurgeLeavesList(w3, c.node, GroupsOfNode(w3, c.node));
    }
  }

  /** A restart right after a command keeps the invariant the command kept, if and only if the command did
      not purge a group whose stored list names the node: the list was not rewritten, and the restart
      tracks the node again, for a group that has no key. */
  lemma RestartAfterIff(w: World, c: Command)
    requires Invariant(w) && KeysSaved(w) && NodesSaved(w) && Harmless(w, c)
    ensures Invariant(Restarted(Execute(w, c).world)) <==> !Purges(w, c)
  {
    hide Harmless, Execute, KeysCopied, NodesCopied, Purges, CanDecrypt, Restarted, KeysAgree, AllDecrypt;
    var w' := Execute(w, c).world;
    ExecuteKeepsIff(w, c);
    ExecuteSaved(w, c);
    RestartKeepsIff(w');
    if Purges(w, c) {
      var g := CommandLeavesList(w, c);
      assert !Served(w', g, c.node);
    } else {
      RestartRebuilds(w');
      RestartedParts(w');
      SameTracking(w', Restarted(w'));
    }
  }

  lemma SameTracking(w: World, w': World)
    requires AllDecrypt(w) && KeysAgree(w.store)
    requires w'.store == w.store && w'.devices == w.devices && w'.provisioned == w.provisioned
    ensures Invariant(w')
  {
    forall g, m | Tracked(w'.provisioned, g, m) ensures Served(w', g, m) { assert Served(w, g, m); }
  }
}
