/** What the exact condition for the device invariant comes to, failure by failure: reuse with a second
    node, a map that could not be read or written, a cleanup that could not read it. */
module GroupBoundaries {
  import opened Wrappers
  import opened KeyChain
  import opened Devices
  import opened GroupProtocol
  import opened GroupFrames
  import opened GroupKeys
  import opened GroupInvariant

  /* ---- group_add ---- */

  // The condition on a group_add that gets as far as provisioning, in the world with the group's key.
  lemma StartsIff(w: World, n: NodeId, ep: Endpoint, g: GroupId, env: Env, winner: GroupId)
    requires Invariant(w) && Starts(w, n, ep, g, env)
    ensures var keyed := WithGroupKey(w, g, env);
      && keyed.devices == w.devices && keyed.provisioned == w.provisioned
      && g in keyed.store && keyed.store[g] == KeyFor(w, g, env) && n in w.devices
      && (Invariant(AddToGroup(w, n, ep, g, env, winner).world) <==>
            ProvisionHarmless(keyed, n, g, env, winner, w.store))
      && (forall h :: h in GroupsOfNode(w, n) ==>
            h in w.store && (h != g ==> h in keyed.store && keyed.store[h] == w.store[h]))
  {
    hide Invariant, AddToGroup, ProvisionHarmless, WithGroupKey, Agrees;
    AddKeepsIff(w, n, ep, g, env, winner);
    DrawStore(w, g, env);
    KeyedDevices(w, g, env);
    forall h | h in GroupsOfNode(w, n) ensures h in w.store { TrackedInStore(w, h, n); }
  }

  lemma TrackedInStore(w: World, g: GroupId, n: NodeId)
    requires Invariant(w) && g in GroupsOfNode(w, n)
    ensures g in w.store
  {
    assert Tracked(w.provisioned, g, n);
  }

  // What happens to the key, in the world where the group has it.
  ghost predicate Taking(w: World, n: NodeId, g: GroupId, env: Env) {
    Reuses(WithGroupKey(w, g, env), n, KeyFor(w, g, env), env)
  }

  ghost predicate Writing(w: World, n: NodeId, g: GroupId, env: Env) {
    KeyWritten(WithGroupKey(w, g, env), n, KeyFor(w, g, env), env)
  }

  ghost function Ending(w: World, n: NodeId, g: GroupId, env: Env, winner: GroupId): StoredKey {
    FinalKey(WithGroupKey(w, g, env), n, KeyFor(w, g, env), env, winner)
  }

  /** Taking over another group's keyset keeps the invariant if and only if no other node is tracked for
      the group (the others still map it to the keyset it had before) and the device holds the key that
      the controller has under the keyset taken over. */
  lemma ReuseKeepsIff(w: World, n: NodeId, ep: Endpoint, g: GroupId, env: Env, winner: GroupId)
    requires Invariant(w) && Starts(w, n, ep, g, env) && Taking(w, n, g, env)
    requires MapCallsWork(env) && KeyMapWrite !in env.down && MemberAdd !in env.down
    ensures n in w.devices
    ensures Invariant(AddToGroup(w, n, ep, g, env, winner).world) <==>
      && Agrees(w.store, g, Ending(w, n, g, env, winner))
      && ProvisionedOf(w, g) <= {n} && Holds(w.devices[n], Ending(w, n, g, env, winner))
  {
    hide Invariant, AddToGroup, WithGroupKey, FinalKey, Agrees, CleanupCandidates, CleanedUp, Reusable;
    StartsIff(w, n, ep, g, env, winner);
    FinalKeyOrigin(WithGroupKey(w, g, env), n, g, KeyFor(w, g, env), env, winner);
  }

  /** A key that gets written, and a map that cannot be read before it is written back: every other group's
      binding on the node is gone, so the invariant survives if and only if the node is tracked for no
      other group. */
  lemma AddAfterFailedReadIff(w: World, n: NodeId, ep: Endpoint, g: GroupId, env: Env, winner: GroupId)
    requires Invariant(w) && Starts(w, n, ep, g, env) && Writing(w, n, g, env)
    requires KeyMapRead(3) in env.down && KeyMapWrite !in env.down && KeyMapWrite !in env.refused
    ensures Invariant(AddToGroup(w, n, ep, g, env, winner).world)
      <==> Agrees(w.store, g, KeyFor(w, g, env)) && GroupsOfNode(w, n) <= {g}
  {
    hide Invariant, AddToGroup, WithGroupKey, Agrees, CleanupCandidates, CleanedUp, Reusable;
    StartsIff(w, n, ep, g, env, winner);
  }

  // Nothing is written to the map, although there is a keyset for the group or the key write failed in
  // transit.
  ghost predicate Unbound(w: World, n: NodeId, g: GroupId, env: Env) {
    var keyed, sk := WithGroupKey(w, g, env), KeyFor(w, g, env);
    !Stuck(keyed, n, sk, env) && !Binds(keyed, n, sk, env)
  }

  /** group_add records the node whether or not its binding gets onto the device: KeySetWrite or the map
      write raises, or the map write is refused. The invariant then holds if and only if the node had the
      binding already, the key is there (written now or held before), and a keyset taken over has left no
      other node behind. */
  lemma UnboundIsRecordedIff(w: World, n: NodeId, ep: Endpoint, g: GroupId, env: Env, winner: GroupId)
    requires Invariant(w) && Starts(w, n, ep, g, env) && KeyMapRead(1) !in env.down && MemberAdd !in env.down
    requires Unbound(w, n, g, env)
    ensures var final := Ending(w, n, g, env, winner);
      && n in w.devices && n in ProvisionedOf(AddToGroup(w, n, ep, g, env, winner).world, g)
      && (Invariant(AddToGroup(w, n, ep, g, env, winner).world) <==>
            && Agrees(w.store, g, final)
            && (final.keyset == KeyFor(w, g, env).keyset || ProvisionedOf(w, g) <= {n})
            && MapsTo(w.devices[n], g, final.keyset)
            && (Writing(w, n, g, env) || Holds(w.devices[n], final)))
  {
    hide Invariant, AddToGroup, WithGroupKey, KeyFor, TableFull, KeyWritten, Stuck, Binds, FinalKey, Agrees,
         CleanupCandidates;
    StartsIff(w, n, ep, g, env, winner);
    NodeRecorded(w, n, ep, g, env, winner);
  }

  lemma NodeRecorded(w: World, n: NodeId, ep: Endpoint, g: GroupId, env: Env, winner: GroupId)
    requires Starts(w, n, ep, g, env) && MemberAdd !in env.down
    requires !Stuck(WithGroupKey(w, g, env), n, KeyFor(w, g, env), env)
    ensures n in ProvisionedOf(AddToGroup(w, n, ep, g, env, winner).world, g)
  {
    hide Provision, Prepare, JoinGroup, WithGroupKey, SameInputs, SameKeys, OneDevice, Binds, Bind, KeysetsAfter,
         StaysFull, Starts;
    PrepareFrame(w, n, ep, g, env);
    PrepareStarts(w, n, ep, g, env);
    DrawStore(w, g, env);
    var w1 := Prepare(w, n, ep, g, env).world;
    SameOutcome(WithGroupKey(w, g, env), w1, n, KeyFor(w, g, env), env, winner);
    ProvisionEffect(w1, n, g, w1.store[g], env, winner);
    JoinFrame(ProvisionAfter(w1, n, g, env, winner).world, n, ep, g, env);
    OneKeys(w1.devices, ProvisionAfter(w1, n, g, env, winner).world.devices, n);
  }

  /** In particular after a KeySetWrite that never arrives: the invariant holds if and only if the node
      could decrypt the group already. */
  lemma FailedProvisioningIsRecorded(w: World, n: NodeId, ep: Endpoint, g: GroupId, env: Env, winner: GroupId)
    requires Invariant(w) && Starts(w, n, ep, g, env) && KeysetWrite(n, 0) in env.down && MemberAdd !in env.down
    ensures n in w.devices && n in ProvisionedOf(AddToGroup(w, n, ep, g, env, winner).world, g)
    ensures Invariant(AddToGroup(w, n, ep, g, env, winner).world)
      <==> Agrees(w.store, g, KeyFor(w, g, env)) && CanDecrypt(w.devices[n], g, KeyFor(w, g, env))
  {
    hide Invariant, AddToGroup, WithGroupKey, KeyFor, Agrees, CleanupCandidates, CleanedUp, Reusable;
    StartsIff(w, n, ep, g, env, winner);
    NodeRecorded(w, n, ep, g, env, winner);
  }

  /** A full table, and a cleanup that cannot read the map before the key is written: the invariant survives
      if and only if no keyset of another group tracked for the node is among the candidates that can be
      removed. */
  lemma AddCleanupIff(w: World, n: NodeId, ep: Endpoint, g: GroupId, env: Env, winner: GroupId)
    requires Invariant(w) && Starts(w, n, ep, g, env) && Writing(w, n, g, env)
    requires n in w.devices && !HasRoom(w.devices[n], KeyFor(w, g, env).keyset)
    requires KeyMapRead(1) in env.down && KeyMapRead(3) !in env.down && KeyMapWrite !in env.down
      && KeyMapWrite !in env.refused
    ensures Invariant(AddToGroup(w, n, ep, g, env, winner).world) <==>
      && Agrees(w.store, g, KeyFor(w, g, env))
      && forall h :: h in GroupsOfNode(w, n) && h != g && h in w.store ==>
           NotTaken(WithGroupKey(w, g, env), n, w.store[h].keyset, env)
  {
    hide Invariant, AddToGroup, WithGroupKey, KeyFor, Agrees, CleanupCandidates, CleanedUp, Reusable, HasRoom;
    StartsIff(w, n, ep, g, env, winner);
  }

  // A cleanup that cannot read the map leaves the keyset: it is no candidate, or cannot be removed.
  ghost predicate NotTaken(w: World, n: NodeId, k: KeysetId, env: Env) {
    k == IPK || k !in CleanupCandidates(w, n, env) || KeysetRemove(k) in env.down
  }

  /* ---- group_remove ---- */

  /** group_remove after a failed GroupKeyMap read keeps the invariant if and only if the node is tracked
      for no other group: it writes back an empty map and unbinds them all. */
  lemma RemoveAfterFailedReadIff(w: World, n: NodeId, g: GroupId, env: Env)
    requires Invariant(w) && KeyMapRead(0) in env.down && Effective(w, n, KeyMapWrite, env)
    ensures Invariant(RemoveFromGroup(w, n, g, env).world) <==> GroupsOfNode(w, n) <= {g}
  {
    hide Invariant, RemoveFromGroup, Survives;
    RemoveKeepsIff(w, n, g, env);
    forall h | h in GroupsOfNode(w, n) ensures h in w.store { TrackedInStore(w, h, n); }
  }

  /** Where the map could be read before it was written back, but not for the cleanup, it keeps the
      invariant if and only if no keyset of another group tracked for the node is among the candidates
      that can be removed. */
  lemma RemoveCleanupIff(w: World, n: NodeId, g: GroupId, env: Env)
    requires Invariant(w) && KeyMapRead(0) !in env.down && KeyMapRead(1) in env.down && Reach(w, n, KeyMapWrite, env)
    ensures Invariant(RemoveFromGroup(w, n, g, env).world) <==>
      forall h :: h in GroupsOfNode(w, n) && h != g && h in w.store ==> NotTaken(w, n, w.store[h].keyset, env)
  {
    hide Invariant, RemoveFromGroup, CleanupCandidates;
    RemoveKeepsIff(w, n, g, env);
  }

  /* ---- A full table ---- */

  // A full table whose keysets are all referenced leaves provisioning nothing but reuse.
  lemma FullTableReuses(w: World, n: NodeId, g: GroupId, env: Env, winner: GroupId, k: KeysetId)
    requires n in w.devices && g in w.store && env.down == {} && env.table.None?
    requires w.store[g].keyset !in w.devices[n].keysets && |w.devices[n].keysets| >= w.devices[n].keysetCapacity
    requires TrackerOf(w, n) != {} && TrackerOf(w, n) <= Referenced(w.devices[n].keyMap)
    requires StoreKeysets(w.store) * Referenced(w.devices[n].keyMap) == {k}
    requires Wins(w.store, winner, k)
    ensures var p := Provision(w, n, g, w.store[g], env, winner);
      && p.outcome == Done && p.reused == Some(k)
      && p.world.store == w.store[g := w.store[winner]] && p.world.provisioned == w.provisioned
  {
    hide InjectPrefix, Bind, Install;
    FullTableExhausted(w, n, w.store[g], env);
  }

  lemma FullTableExhausted(w: World, n: NodeId, sk: StoredKey, env: Env)
    requires n in w.devices && env.down == {} && env.table.None?
    requires sk.keyset !in w.devices[n].keysets && |w.devices[n].keysets| >= w.devices[n].keysetCapacity
    requires TrackerOf(w, n) != {} && TrackerOf(w, n) <= Referenced(w.devices[n].keyMap)
    ensures Install(w, n, sk, env) == (w, Exhausted)
  {
    assert Orphaned(w, n, env) == {};
    assert RemovableOf(w, n, {}, env) == {};
  }

  // Nothing to clean up, nothing to reuse: InvalidArguments, and the key just made stays in the store.
  lemma NothingToReuse(w: World, n: NodeId, g: GroupId, env: Env, winner: GroupId)
    requires n in w.devices && g in w.store && env.down == {} && env.table.None?
    requires w.store[g].keyset !in w.devices[n].keysets && |w.devices[n].keysets| >= w.devices[n].keysetCapacity
    requires TrackerOf(w, n) != {} && TrackerOf(w, n) <= Referenced(w.devices[n].keyMap)
    requires StoreKeysets(w.store) * Referenced(w.devices[n].keyMap) == {}
    ensures Provision(w, n, g, w.store[g], env, winner) == Provisioning(w, Invalid, None)
  {
    hide Install, Referenced;
    FullTableExhausted(w, n, w.store[g], env);
  }
}
