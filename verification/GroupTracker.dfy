/** The keyset tracker against the devices, and what cleanup, removal and reset leave behind. */
module GroupTracker {
  import opened Wrappers
  import opened Minimum
  import opened KeyChain
  import opened Devices
  import opened GroupProtocol
  import opened GroupFrames

  // Every keyset on the device is the IPK, somebody else's, or tracked.
  ghost predicate KnownOn(tracked: set<KeysetId>, d: Device) {
    forall k :: k in d.keysets ==> k == IPK || k in d.foreign || k in tracked
  }

  // Every nonzero keyset this controller wrote and has not removed is in its tracker.
  ghost predicate Known(w: World) {
    forall m :: m in w.devices ==> KnownOn(TrackerOf(w, m), w.devices[m])
  }

  // Only node n's device and tracker entry differ.
  ghost predicate OnlyNode(w: World, w': World, n: NodeId) {
    && (forall m :: m in w'.devices && m != n ==> m in w.devices && w'.devices[m] == w.devices[m])
    && (forall m :: m != n ==> TrackerOf(w', m) == TrackerOf(w, m))
    && (n in w'.devices ==> n in w.devices)
  }

  lemma NodeStep(w: World, w': World, n: NodeId)
    requires Known(w) && OnlyNode(w, w', n)
    requires n in w'.devices ==> KnownOn(TrackerOf(w', n), w'.devices[n])
    ensures Known(w')
  {
  }

  lemma SameKeysetsKnown(w: World, w': World)
    requires Known(w) && w'.tracker == w.tracker && SameKeysets(w.devices, w'.devices)
    ensures Known(w')
  {
    forall m | m in w'.devices ensures KnownOn(TrackerOf(w', m), w'.devices[m]) {
      assert KnownOn(TrackerOf(w, m), w.devices[m]);
    }
  }

  lemma AddKeysetKnown(w: World, n: NodeId, keyset: KeysetId, key: Key, attempt: nat, env: Env)
    requires Known(w)
    ensures Known(AddKeyset(w, n, keyset, key, attempt, env).0)
  {
    hide WriteKeyset;
    if Reach(w, n, KeysetWrite(n, attempt), env) && WriteKeyset(w.devices[n], keyset, key).Some? {
      assert KnownOn(TrackerOf(w, n), w.devices[n]);
      WriteKnown(TrackerOf(w, n), w.devices[n], keyset, key);
      hide KnownOn;
      NodeStep(w, AddKeyset(w, n, keyset, key, attempt, env).0, n);
    }
  }

  lemma WriteKnown(tracked: set<KeysetId>, d: Device, keyset: KeysetId, key: Key)
    requires KnownOn(tracked, d) && WriteKeyset(d, keyset, key).Some?
    ensures KnownOn(tracked + {keyset}, WriteKeyset(d, keyset, key).value)
  {
  }

  lemma RemoveTrackedKnown(w: World, n: NodeId, gone: set<KeysetId>)
    requires Known(w) && (gone != {} ==> n in w.devices)
    ensures Known(RemoveTracked(w, n, gone))
  {
    if gone != {} {
      assert KnownOn(TrackerOf(w, n), w.devices[n]);
      NodeStep(w, RemoveTracked(w, n, gone), n);
    }
  }

  lemma CleanupKnown(w: World, n: NodeId, env: Env)
    requires Known(w)
    ensures Known(Cleanup(w, n, env).0)
  {
    hide Known, RemoveTracked;
    RemoveTrackedKnown(w, n, RemovableOf(w, n, Orphaned(w, n, env), env));
  }

  lemma ProvisionKnown(w: World, n: NodeId, g: GroupId, sk: StoredKey, env: Env, winner: GroupId)
    requires Known(w)
    ensures Known(Provision(w, n, g, sk, env, winner).world)
  {
    hide Known, AddKeyset, Cleanup, Reusable, Remap, BindOnDevice;
    AddKeysetKnown(w, n, sk.keyset, sk.key, 0, env);
    var w0 := AddKeyset(w, n, sk.keyset, sk.key, 0, env).0;
    CleanupKnown(w0, n, env);
    AddKeysetKnown(Cleanup(w0, n, env).0, n, sk.keyset, sk.key, 1, env);
    var (w1, status) := Install(w, n, sk, env);
    assert Known(w1);
    if status == Written {
      BindKnown(w1, n, g, sk.keyset, env);
    } else if status == Exhausted && Reusable(w1, n, env) != {} {
      var keyset := Min(Reusable(w1, n, env));
      var donor := PickWinner(w1.store, keyset, winner);
      RemapKnown(w1, n, g, w1.store[donor], env);
      BindKnown(Remap(w1, n, g, w1.store[donor], env), n, g, keyset, env);
    }
  }

  lemma BindKnown(w: World, n: NodeId, g: GroupId, keyset: KeysetId, env: Env)
    requires Known(w)
    ensures BindOnDevice(w, n, g, keyset, env).Some? ==> Known(BindOnDevice(w, n, g, keyset, env).value)
  {
    hide BindOnDevice, Known, SameKeysets;
    BindFrame(w, n, g, keyset, env);
    if BindOnDevice(w, n, g, keyset, env).Some? { SameKeysetsKnown(w, BindOnDevice(w, n, g, keyset, env).value); }
  }

  lemma RemapKnown(w: World, n: NodeId, g: GroupId, sk: StoredKey, env: Env)
    requires Known(w)
    ensures Known(Remap(w, n, g, sk, env))
  {
    if n in w.devices { assert KnownOn(TrackerOf(w, n), w.devices[n]); }
    NodeStep(w, Remap(w, n, g, sk, env), n);
  }

  lemma AddKnown(w: World, n: NodeId, ep: Endpoint, g: GroupId, env: Env, winner: GroupId)
    requires Known(w)
    ensures Known(AddToGroup(w, n, ep, g, env, winner).world)
  {
    hide Known, Provision, Prepare, JoinGroup, SameKeysets;
    var r := Prepare(w, n, ep, g, env);
    PrepareFrame(w, n, ep, g, env);
    SameKeysetsKnown(w, r.world);
    if r.outcome == Done {
      var p := ProvisionAfter(r.world, n, g, env, winner);
      ProvisionKnown(r.world, n, g, r.world.store[g], env, winner);
      JoinFrame(p.world, n, ep, g, env);
      SameKeysetsKnown(p.world, JoinGroup(p.world, n, ep, g, env).world);
    }
  }

  lemma RemoveKnown(w: World, n: NodeId, g: GroupId, env: Env)
    requires Known(w)
    ensures Known(RemoveFromGroup(w, n, g, env).world)
  {
    hide Known, Cleanup, RemoveMembers, StripKeyMap, RemoveAcl, SavedAfterForget, SameKeysets, OneDevice;
    var w1 := RemoveMembers(w, n, {g}, env);
    StripKnown(w, n, {g}, env);
    var s := StripKeyMap(w1, n, {g}, env);
    if s.Some? {
      CleanupKnown(s.value, n, env);
      var w2 := Cleanup(s.value, n, env).0;
      AclFrame(w2, n, g, env);
      SameKeysetsKnown(w2, RemoveFromGroup(w, n, g, env).world);
    }
  }

  // Memberships and GroupKeyMap entries go, keysets stay.
  lemma StripKnown(w: World, n: NodeId, groups: set<GroupId>, env: Env)
    requires Known(w)
    ensures var w1 := RemoveMembers(w, n, groups, env);
      && Known(w1)
      && (StripKeyMap(w1, n, groups, env).Some? ==> Known(StripKeyMap(w1, n, groups, env).value))
  {
    hide Known, RemoveMembers, StripKeyMap, SameKeysets, OneDevice;
    var w1 := RemoveMembers(w, n, groups, env);
    MembersFrame(w, n, groups, env);
    SameKeysetsKnown(w, w1);
    StripFrame(w1, n, groups, env);
    if StripKeyMap(w1, n, groups, env).Some? { SameKeysetsKnown(w1, StripKeyMap(w1, n, groups, env).value); }
  }

  lemma RemoveAllKnown(w: World, n: NodeId, ep: Endpoint, env: Env)
    requires Known(w)
    ensures Known(RemoveFromAllGroups(w, n, ep, env).world)
  {
    hide Known, RemoveMembers, StripKeyMap, FinishRemoveAll;
    var groups := ListedGroups(w, n, ep, env);
    if groups == {} {
      FinishKnown(w, n, env);
    } else {
      StripKnown(w, n, groups, env);
      var s := StripKeyMap(RemoveMembers(w, n, groups, env), n, groups, env);
      if s.Some? { FinishKnown(s.value, n, env); }
    }
  }

  lemma FinishKnown(w: World, n: NodeId, env: Env)
    requires Known(w)
    ensures Known(FinishRemoveAll(w, n, env).world)
  {
    hide Known, Cleanup, RemoveAllAcl, SavedAfterForget, SameKeysets;
    CleanupKnown(w, n, env);
    var w1 := Cleanup(w, n, env).0;
    AclFrame(w1, n, 0, env);
    SameKeysetsKnown(w1, FinishRemoveAll(w, n, env).world);
  }

  lemma SendKnown(w: World, g: GroupId, env: Env)
    requires Known(w)
    ensures Known(SendToGroup(w, g, env).world)
  {
    hide Refreshed;
    if g in w.store {
      var w' := EnsureKeysets(w, ProvisionedOf(w, g), w.store[g], env);
      forall m | m in w'.devices ensures KnownOn(TrackerOf(w', m), w'.devices[m]) {
        assert KnownOn(TrackerOf(w, m), w.devices[m]);
      }
    }
  }

  lemma KeysetBindingKnown(w: World, n: NodeId, g: GroupId, keyset: KeysetId, env: Env)
    requires Known(w)
    ensures Known(BindKeyset(w, n, g, keyset, env).world)
  {
    hide Known, BindKeyset, SameKeysets;
    BindKeysetFrame(w, n, g, keyset, env);
    SameKeysetsKnown(w, BindKeyset(w, n, g, keyset, env).world);
  }

  lemma KeysetRemovalKnown(w: World, n: NodeId, keyset: KeysetId, env: Env)
    requires Known(w)
    ensures Known(RemoveKeyset(w, n, keyset, env).world)
  {
    hide Known, RemoveTracked, SavedAfterForget;
    if RemoveKeyset(w, n, keyset, env).outcome == Done {
      RemoveTrackedKnown(w, n, {keyset});
      var w1 := RemoveTracked(w, n, {keyset});
      SameKeysetsKnown(w1, Forget(w1, n, GroupsWithKeyset(w1, keyset), true));
    }
  }

  // Keysets of its own that a reset cannot remove from the device.
  function Survivors(w: World, n: NodeId, env: Env): set<KeysetId> {
    if n !in w.devices then {}
    else set k | k in w.devices[n].keysets && k != IPK && k !in w.devices[n].foreign && KeysetRemove(k) in env.down
  }

  lemma ResetDevice(w: World, n: NodeId, env: Env)
    ensures var w' := ResetNode(w, n, env).world;
      && w'.devices.Keys == w.devices.Keys && TrackerOf(w', n) == {}
      && (forall m :: m != n ==> TrackerOf(w', m) == TrackerOf(w, m))
      && (forall m :: m in w.devices && m != n ==> w'.devices[m] == w.devices[m])
      && (n in w.devices ==>
            && w'.devices[n].foreign == w.devices[n].foreign
            && w'.devices[n].keysets
              == w.devices[n].keysets - RemovableOf(w, n, ResetTargets(w, n) + BruteForceRange(), env)
            && w'.devices[n].keyMap == if Effective(w, n, KeyMapWrite, env) then [] else w.devices[n].keyMap)
  {
    hide RemovableOf, ResetTargets, Forget, RemoveAllAcl, GroupsOfNode;
    AclTouchesAclOnly(WipeKeys(w, n, env), n, env);
  }

  lemma AclTouchesAclOnly(w: World, n: NodeId, env: Env)
    ensures var w' := RemoveAllAcl(w, n, env);
      && w'.devices.Keys == w.devices.Keys
      && (forall m :: m in w.devices && m != n ==> w'.devices[m] == w.devices[m])
      && (n in w.devices ==> w'.devices[n] == w.devices[n].(acl := w'.devices[n].acl))
  {
    hide RemoveAllGroups;
  }

  /** A reset drops the node's tracker entry: the tracker stays sound exactly when every keyset of this
      controller's own was removed from the device. */
  lemma ResetKnownIff(w: World, n: NodeId, env: Env)
    requires Known(w)
    ensures Known(ResetNode(w, n, env).world) <==> Survivors(w, n, env) == {}
  {
    hide ResetNode;
    ResetDevice(w, n, env);
    var w' := ResetNode(w, n, env).world;
    if n in w.devices {
      assert KnownOn(TrackerOf(w, n), w.devices[n]);
      assert forall k :: k in TrackerOf(w, n) && k != IPK ==> k in ResetTargets(w, n);
      if Survivors(w, n, env) != {} {
        var k :| k in Survivors(w, n, env);
        assert k in w'.devices[n].keysets;
        assert !KnownOn(TrackerOf(w', n), w'.devices[n]);
      } else {
        assert KnownOn(TrackerOf(w', n), w'.devices[n]);
        forall m | m in w'.devices && m != n ensures KnownOn(TrackerOf(w', m), w'.devices[m]) {
          assert KnownOn(TrackerOf(w, m), w.devices[m]);
        }
      }
    } else {
      forall m | m in w'.devices ensures KnownOn(TrackerOf(w', m), w'.devices[m]) {
        assert KnownOn(TrackerOf(w, m), w.devices[m]);
      }
    }
  }

  // Every command but a reset can only leave behind what it tracks.
  ghost predicate LeavesKnown(w: World, c: Command) {
    c.Reset? ==> Survivors(w, c.node, c.env) == {}
  }

  /** Every command keeps the tracker sound, whatever fails in it, except, exactly, a reset that leaves one
      of the controller's own keysets on the device. */
  lemma ExecuteKnownIff(w: World, c: Command)
    requires Known(w)
    ensures Known(Execute(w, c).world) <==> LeavesKnown(w, c)
  {
    hide Known, Survivors;
    match c
    case Add(n, ep, g, env, winner) => AddKnown(w, n, ep, g, env, winner);
    case Remove(n, g, env) => RemoveKnown(w, n, g, env);
    case RemoveAll(n, ep, env) => RemoveAllKnown(w, n, ep, env);
    case KeysetAddition(n, keyset, key, env) => AddKeysetKnown(w, n, keyset, key, 0, env);
    case KeysetBinding(n, g, keyset, env) => KeysetBindingKnown(w, n, g, keyset, env);
    case KeysetRemoval(n, keyset, env) => KeysetRemovalKnown(w, n, keyset, env);
    case Reset(n, env) => ResetKnownIff(w, n, env);
    case Send(g, env) => SendKnown(w, g, env);
  }

  ghost predicate KnownThroughout(w: World, cs: seq<Command>)
    decreases cs
  {
    Known(w) && (cs != [] ==> KnownThroughout(Execute(w, cs[0]).world, cs[1..]))
  }

  ghost predicate ResetsComplete(w: World, cs: seq<Command>)
    decreases cs
  {
    cs != [] ==> LeavesKnown(w, cs[0]) && ResetsComplete(Execute(w, cs[0]).world, cs[1..])
  }

  /** Over every run: a keyset on a device is the IPK, somebody else's, or in the tracker, throughout, if
      and only if every reset removes what it targets. */
  lemma {:induction false} RunKnownIff(w: World, cs: seq<Command>)
    requires Known(w)
    ensures KnownThroughout(w, cs) <==> ResetsComplete(w, cs)
    decreases cs
  {
    hide Known, Execute, LeavesKnown;
    if cs != [] {
      ExecuteKnownIff(w, cs[0]);
      if LeavesKnown(w, cs[0]) { RunKnownIff(Execute(w, cs[0]).world, cs[1..]); }
      else { KnownNow(Execute(w, cs[0]).world, cs[1..]); }
    }
  }

  lemma KnownNow(w: World, cs: seq<Command>)
    ensures KnownThroughout(w, cs) ==> Known(w)
  {
    hide Known, Execute;
  }

  /* ---- What cleanup removes and leaves ---- */

  /** With a working GroupKeyMap read, cleanup removes neither the IPK nor a referenced keyset, however
      it found its candidates. */
  lemma CleanupIsSafe(w: World, n: NodeId, env: Env, k: KeysetId)
    requires n in w.devices && KeyMapRead(1) !in env.down
    requires k in w.devices[n].keysets && (k == IPK || k in Referenced(w.devices[n].keyMap))
    ensures var w' := Cleanup(w, n, env).0;
      n in w'.devices && k in w'.devices[n].keysets && w'.devices[n].keysets[k] == w.devices[n].keysets[k]
  {
    hide CleanupCandidates;
  }

  // Cleanup leaves a keyset that GroupKeyMap names alone: the map could be read, or the keyset is no
  // candidate, or it cannot be removed.
  ghost predicate Spares(w: World, n: NodeId, k: KeysetId, env: Env) {
    KeyMapRead(1) !in env.down || k !in CleanupCandidates(w, n, env) || KeysetRemove(k) in env.down
  }

  /** A failed read counts as an empty map. A referenced keyset then survives if and only if it is not
      among the candidates of the tier in use or cannot be removed. */
  lemma CleanupSparesIff(w: World, n: NodeId, env: Env, k: KeysetId)
    requires n in w.devices && k in w.devices[n].keysets && k != IPK && k in Referenced(w.devices[n].keyMap)
    ensures n in Cleanup(w, n, env).0.devices
    ensures k in Cleanup(w, n, env).0.devices[n].keysets <==> Spares(w, n, k, env)
  {
    hide CleanupCandidates, RemoveKeysets, Cleanup;
    CleanupFrame(w, n, env);
    RemovedKeysets(w.devices[n], CleanedUp(w, n, env));
  }

  lemma RemovedKeysets(d: Device, gone: set<KeysetId>)
    ensures RemoveKeysets(d, gone).keysets == d.keysets - gone
  {
  }

  // KeySetRemove fails only for absent ids, the map can be read, and a GroupKeyTable answer that is used
  // is complete.
  predicate CleanupWorks(d: Device, env: Env) {
    && (forall k :: k in d.keysets ==> KeysetRemove(k) !in env.down)
    && KeyMapRead(1) !in env.down
    && (KeyTableRead in env.down || env.table.None? || env.table.value == {} || d.keysets.Keys <= env.table.value)
  }

  // No keyset of this controller's own is left on the device without a GroupKeyMap entry naming it.
  ghost predicate NoOrphans(d: Device) {
    forall k :: k in d.keysets ==> k == IPK || k in d.foreign || k in Referenced(d.keyMap)
  }

  lemma CleanupLeavesNoOrphans(w: World, n: NodeId, env: Env)
    requires Known(w) && n in w.devices && CleanupWorks(w.devices[n], env)
    ensures var w' := Cleanup(w, n, env).0; n in w'.devices && NoOrphans(w'.devices[n])
  {
    var d := w.devices[n];
    assert KnownOn(TrackerOf(w, n), d);
    var w' := Cleanup(w, n, env).0;
    forall k | k in d.keysets && k != IPK && k !in d.foreign && k !in Referenced(d.keyMap)
      ensures k in RemovableOf(w, n, Orphaned(w, n, env), env)
    {
      assert k in CleanupCandidates(w, n, env);
    }
  }

  /** A group_remove that returns normally leaves no keyset of this controller's own unreferenced. */
  lemma RemoveLeavesNoOrphans(w: World, n: NodeId, g: GroupId, env: Env)
    requires Known(w) && n in w.devices && CleanupWorks(w.devices[n], env)
    requires RemoveFromGroup(w, n, g, env).outcome == Done
    ensures var w' := RemoveFromGroup(w, n, g, env).world; n in w'.devices && NoOrphans(w'.devices[n])
  {
    hide Known, Cleanup, RemoveMembers, StripKeyMap, RemoveAcl, SavedAfterForget, NoOrphans, SameKeysets, OneDevice;
    var w1 := RemoveMembers(w, n, {g}, env);
    StripKnown(w, n, {g}, env);
    var w2 := StripKeyMap(w1, n, {g}, env).value;
    StrippedKeysets(w, n, {g}, env);
    CleanupLeavesNoOrphans(w2, n, env);
    AclKeepsNoOrphans(Cleanup(w2, n, env).0, n, g, env);
  }

  lemma StrippedKeysets(w: World, n: NodeId, groups: set<GroupId>, env: Env)
    requires n in w.devices && StripKeyMap(RemoveMembers(w, n, groups, env), n, groups, env).Some?
    ensures var w2 := StripKeyMap(RemoveMembers(w, n, groups, env), n, groups, env).value;
      n in w2.devices && w2.devices[n].keysets == w.devices[n].keysets && w2.devices[n].foreign == w.devices[n].foreign
  {
    hide RemoveMembers, StripKeyMap;
    MembersFrame(w, n, groups, env);
    StripFrame(RemoveMembers(w, n, groups, env), n, groups, env);
  }

  lemma AclKeepsNoOrphans(w: World, n: NodeId, g: GroupId, env: Env)
    requires n in w.devices && NoOrphans(w.devices[n])
    ensures n in RemoveAcl(w, n, g, env).devices && NoOrphans(RemoveAcl(w, n, g, env).devices[n])
    ensures n in RemoveAllAcl(w, n, env).devices && NoOrphans(RemoveAllAcl(w, n, env).devices[n])
  {
  }

  /** So does a group_remove_all. */
  lemma RemoveAllLeavesNoOrphans(w: World, n: NodeId, ep: Endpoint, env: Env)
    requires Known(w) && n in w.devices && CleanupWorks(w.devices[n], env)
    requires RemoveFromAllGroups(w, n, ep, env).outcome == Done
    ensures var w' := RemoveFromAllGroups(w, n, ep, env).world; n in w'.devices && NoOrphans(w'.devices[n])
  {
    hide Known, Cleanup, RemoveMembers, StripKeyMap, RemoveAllAcl, SavedAfterForget, NoOrphans, ListedGroups;
    var groups := ListedGroups(w, n, ep, env);
    var w2 := w;
    if groups != {} {
      StripKnown(w, n, groups, env);
      StrippedKeysets(w, n, groups, env);
      w2 := StripKeyMap(RemoveMembers(w, n, groups, env), n, groups, env).value;
    }
    CleanupLeavesNoOrphans(w2, n, env);
    AclKeepsNoOrphans(Cleanup(w2, n, env).0, n, 0, env);
  }

  /** A reset whose removals fail only for absent ids leaves nothing of this controller's own. */
  lemma ResetLeavesNone(w: World, n: NodeId, env: Env)
    requires Known(w) && n in w.devices
    requires forall k :: k in w.devices[n].keysets ==> KeysetRemove(k) !in env.down
    ensures var w' := ResetNode(w, n, env).world;
      n in w'.devices && forall k :: k in w'.devices[n].keysets ==> k == IPK || k in w.devices[n].foreign
  {
    hide ResetNode;
    ResetDevice(w, n, env);
    assert KnownOn(TrackerOf(w, n), w.devices[n]);
    assert forall k :: k in TrackerOf(w, n) && k != IPK ==> k in ResetTargets(w, n);
  }
}
