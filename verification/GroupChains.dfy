/** The controller's own key-value storage over runs of group commands. */
module GroupChains {
  import opened Wrappers
  import opened KeyChain
  import opened Devices
  import opened GroupProtocol
  import opened GroupFrames
  import opened GroupKeys

  /* ---- Every run ---- */

  function InjectedFor(g: GroupId, sk: StoredKey, i: Injection): Injected {
    Injected(g, sk.keyset, sk.key, i.mapId, i.writes)
  }

  // What a command injects, in order: the key drawn for a new group, the key taken over, and the key of a
  // group whose groupcast found it missing.
  ghost function InjectionsOf(w: World, c: Command): seq<Injected> {
    match c
    case Add(n, ep, g, env, winner) => if SupportsGroups(w, n, ep, env) then AddInjections(w, n, ep, g, env, winner)
      else []
    case Send(g, env) => if env.sending.KeyMissing? && g in w.store then [InjectedFor(g, w.store[g], env.first)] else []
    case _ => []
  }

  ghost function AddInjections(w: World, n: NodeId, ep: Endpoint, g: GroupId, env: Env,
                               winner: GroupId): seq<Injected> {
    var before := KeyFor(w, g, env);
    var after := EntryAfter(w, n, ep, g, env, winner);
    (if g in w.store then [] else [InjectedFor(g, before, env.first)])
    + if after == before then [] else [InjectedFor(g, after, env.second)]
  }

  ghost function RunInjections(w: World, cs: seq<Command>): seq<Injected>
    decreases cs
  {
    if cs == [] then [] else InjectionsOf(w, cs[0]) + RunInjections(Execute(w, cs[0]).world, cs[1..])
  }

  lemma ProvisionKvs(w: World, n: NodeId, g: GroupId, sk: StoredKey, env: Env, winner: GroupId)
    requires g in w.store && w.store[g] == sk
    ensures var final := FinalKey(w, n, sk, env, winner);
      Provision(w, n, g, sk, env, winner).world.kvs ==
        if final == sk then w.kvs else Apply(w.kvs, InjectedFor(g, final, env.second))
  {
    hide Install, Reusable, BindOnDevice, Apply, KeyWritten, StaysFull, Remap;
    InstallKvs(w, n, sk, env);
    InstallStatus(w, n, sk, env);
    InstallKept(w, n, sk, env);
    RemapKvs(Install(w, n, sk, env).0, n, g, FinalKey(w, n, sk, env, winner), env);
  }

  lemma RemapKvs(w: World, n: NodeId, g: GroupId, sk: StoredKey, env: Env)
    ensures Remap(w, n, g, sk, env).kvs ==
      if g in w.store && w.store[g] == sk then w.kvs else Apply(w.kvs, InjectedFor(g, sk, env.second))
  {
    hide InjectPrefix;
  }

  lemma InstallKvs(w: World, n: NodeId, sk: StoredKey, env: Env)
    ensures var w1 := Install(w, n, sk, env).0; w1.kvs == w.kvs && w1.store == w.store
  {
    hide AddKeyset, Cleanup, OneDevice;
    AddKeysetFrame(w, n, sk.keyset, sk.key, 0, env);
    var w0 := AddKeyset(w, n, sk.keyset, sk.key, 0, env).0;
    CleanupFrame(w0, n, env);
    AddKeysetFrame(Cleanup(w0, n, env).0, n, sk.keyset, sk.key, 1, env);
  }

  lemma AddKvs(w: World, n: NodeId, ep: Endpoint, g: GroupId, env: Env, winner: GroupId)
    ensures AddToGroup(w, n, ep, g, env, winner).world.kvs
      == ApplyAll(w.kvs, InjectionsOf(w, Add(n, ep, g, env, winner)))
  {
    hide Prepare, Provision, JoinGroup, SameKeys, InjectPrefix, FinalKey, Starts, SameInputs;
    PrepareFrame(w, n, ep, g, env);
    PrepareStarts(w, n, ep, g, env);
    DrawStore(w, g, env);
    var r := Prepare(w, n, ep, g, env);
    if SupportsGroups(w, n, ep, env) {
      DrawKvs(w, g, env);
      var before := KeyFor(w, g, env);
      var after := EntryAfter(w, n, ep, g, env, winner);
      if r.outcome == Done {
        ProvisionKvs(r.world, n, g, before, env, winner);
        SameOutcome(WithGroupKey(w, g, env), r.world, n, before, env, winner);
        JoinFrame(ProvisionAfter(r.world, n, g, env, winner).world, n, ep, g, env);
      }
      var drawn := if g in w.store then [] else [InjectedFor(g, before, env.first)];
      var taken := if after == before then [] else [InjectedFor(g, after, env.second)];
      ApplyAllConcat(w.kvs, drawn, taken);
      ApplyOne(w.kvs, InjectedFor(g, before, env.first));
      ApplyOne(r.world.kvs, InjectedFor(g, after, env.second));
    }
  }

  lemma DrawKvs(w: World, g: GroupId, env: Env)
    ensures WithGroupKey(w, g, env).kvs == if g in w.store then w.kvs
      else Apply(w.kvs, InjectedFor(g, Draw(g, env), env.first))
  {
    hide InjectPrefix;
  }

  lemma ApplyOne(kvs: Kvs, i: Injected)
    ensures ApplyAll(kvs, []) == kvs && ApplyAll(kvs, [i]) == Apply(kvs, i)
  {
    hide Apply;
    assert [i][1..] == [];
  }

  // Injections are all a command does to the storage.
  lemma ExecuteKvs(w: World, c: Command)
    ensures Execute(w, c).world.kvs == ApplyAll(w.kvs, InjectionsOf(w, c))
  {
    hide AddToGroup, AddInjections, InjectPrefix;
    if c.Add? {
      AddKvs(w, c.node, c.endpoint, c.group, c.env, c.winner);
    } else if c.Send? {
      hide RefreshAll, Refreshed;
      if c.group in w.store { ApplyOne(w.kvs, InjectedFor(c.group, w.store[c.group], c.env.first)); }
      SendKvs(w, c.group, c.env);
    } else {
      OtherKvs(w, c);
    }
  }

  lemma SendKvs(w: World, g: GroupId, env: Env)
    ensures SendToGroup(w, g, env).world.kvs ==
      if env.sending.KeyMissing? && g in w.store then Apply(w.kvs, InjectedFor(g, w.store[g], env.first)) else w.kvs
  {
    hide InjectPrefix, Refreshed;
  }

  lemma {:induction false} RunKvs(w: World, cs: seq<Command>)
    ensures Run(w, cs).kvs == ApplyAll(w.kvs, RunInjections(w, cs))
    decreases cs
  {
    hide Execute, InjectionsOf, Apply;
    if cs != [] {
      ExecuteKvs(w, cs[0]);
      RunKvs(Execute(w, cs[0]).world, cs[1..]);
      ApplyAllConcat(w.kvs, InjectionsOf(w, cs[0]), RunInjections(Execute(w, cs[0]).world, cs[1..]));
    }
  }

  /** Over every run the rest of the storage stays as it was: the groups and the next fabric of FabricData,
      and every keyset and map that is not injected. */
  lemma RunKeepsRest(w: World, cs: seq<Command>)
    ensures KeepsRest(w.kvs, Run(w, cs).kvs, KeysetIds(RunInjections(w, cs)), MapIds(RunInjections(w, cs)))
  {
    hide KeepsRest, ApplyAll;
    RunKvs(w, cs);
    ApplyAllKeeps(w.kvs, RunInjections(w, cs));
  }

  /** Over every run, with purges, reuse, repeated injections and writes that fail: both linked lists are
      acyclic with matching counts at the end if and only if they were at the start and each injection, as
      far as it got, wrote a keyset and a map id that were not on their lists. */
  lemma RunWellFormedIff(w: World, cs: seq<Command>)
    ensures WellFormed(Run(w, cs).kvs) <==> WellFormed(w.kvs) && AllFresh(w.kvs, RunInjections(w, cs))
  {
    hide WellFormed, AllFresh, ApplyAll;
    RunKvs(w, cs);
    ApplyAllWellFormedIff(w.kvs, RunInjections(w, cs));
  }

  /* ---- Runs in which every stored group resolves ---- */

  // Chains without a cycle, made of keysets of the store, and every stored group resolves to its keyset
  // and key.
  ghost predicate ChainsServe(store: map<GroupId, StoredKey>, kvs: Kvs, ks: seq<nat>, ms: seq<nat>) {
    && Chains(kvs, ks, ms)
    && (forall k :: k in ks ==> k == IPK || k in Origins(store))
    && (forall g :: g in store ==>
          && ValidGroup(g)
          && Resolve(kvs.maps, ms, g) == Some(store[g].keyset)
          && store[g].keyset in ks && store[g].keyset in kvs.keysets
            && kvs.keysets[store[g].keyset].key == store[g].key)
  }

  ghost predicate Serving(w: World) {
    exists ks, ms :: ChainsServe(w.store, w.kvs, ks, ms)
  }

  /** A group's first group_add injects its key: the chains stay sound and the group resolves. */
  lemma NewGroupServed(w: World, g: GroupId, env: Env, ks: seq<nat>, ms: seq<nat>)
    requires ChainsServe(w.store, w.kvs, ks, ms) && ValidGroup(g) && g !in w.store
    requires env.first.writes >= 3 && env.first.mapId != NO_MAP && env.first.mapId !in ms
    ensures Serving(WithGroupKey(w, g, env))
  {
    hide Chains, Preserved;
    var w' := WithGroupKey(w, g, env);
    var keyset := KeysetFor(g);
    var ks', ms' := [keyset] + ks, [env.first.mapId] + ms;
    assert Fresh(ks, ms, keyset, env.first.mapId) by {
      FreshKeyset(w.store, g);
      KeysetForInjective(g, g);
    }
    InjectFresh(w.kvs, ks, ms, g, keyset, env.freshKey, env.first.mapId);
    assert w'.kvs == Inject(w.kvs, g, keyset, env.freshKey, env.first.mapId);
    forall k | k in ks' ensures k == IPK || k in Origins(w'.store) {
      if k != keyset && k != IPK {
        var h :| h in w.store && KeysetFor(h) == k;
        assert h in w'.store;
      } else if k == keyset {
        assert g in w'.store;
      }
    }
    forall h | h in w'.store
      ensures ValidGroup(h) && Resolve(w'.kvs.maps, ms', h) == Some(w'.store[h].keyset)
      ensures w'.store[h].keyset in ks' && w'.store[h].keyset in w'.kvs.keysets
      ensures w'.kvs.keysets[w'.store[h].keyset].key == w'.store[h].key
    {
      if h != g { KeptKey(w.kvs, w'.kvs, ks, ms, w.store[h].keyset); }
    }
    assert ChainsServe(w'.store, w'.kvs, ks', ms');
  }

  lemma KeptKey(kvs: Kvs, kvs': Kvs, ks: seq<nat>, ms: seq<nat>, k: nat)
    requires Preserved(kvs, kvs', ks, ms) && k in ks && k in kvs.keysets
    ensures k in kvs'.keysets && kvs'.keysets[k] == kvs.keysets[k]
  {
  }

  /** Taking over another group's key, or repeating an injection after error 0xAC, injects a keyset that
      is already on its chain: the storage is no longer well formed. */
  lemma ReinjectionCloses(w: World, g: GroupId, sk: StoredKey, i: Injection, ks: seq<nat>, ms: seq<nat>)
    requires ChainsServe(w.store, w.kvs, ks, ms) && (exists h :: h in w.store && w.store[h] == sk) && i.writes >= 3
    ensures !WellFormed(InjectKeys(w, g, sk, i).kvs)
  {
    var h :| h in w.store && w.store[h] == sk;
    assert InjectKeys(w, g, sk, i).kvs == Inject(w.kvs, g, sk.keyset, sk.key, i.mapId);
    InjectWellFormedIff(w.kvs, ks, ms, g, sk.keyset, sk.key, i.mapId);
  }

  /** So does a group_add of a group whose key was purged while its keyset stayed on the chain. */
  lemma ReaddCloses(w: World, g: GroupId, env: Env, ks: seq<nat>, ms: seq<nat>)
    requires Chains(w.kvs, ks, ms) && g !in w.store && KeysetFor(g) in ks && env.first.writes >= 3
    ensures !WellFormed(WithGroupKey(w, g, env).kvs)
  {
    InjectWellFormedIff(w.kvs, ks, ms, g, KeysetFor(g), env.freshKey, env.first.mapId);
  }

  // The injection of a new group completes, with a map id that is not on the chain.
  ghost predicate InjectsFresh(w: World, g: GroupId, env: Env) {
    g in w.store || (ValidGroup(g) && env.first.writes >= 3 && env.first.mapId != NO_MAP
      && forall ks, ms :: ChainsServe(w.store, w.kvs, ks, ms) ==> env.first.mapId !in ms)
  }

  // Commands that inject nothing but new groups, and purge nothing.
  ghost predicate InjectsOnce(w: World, c: Command) {
    match c
    case Add(n, ep, g, env, winner) =>
      && InjectsFresh(w, g, env)
      && (Starts(w, n, ep, g, env) ==> !Reuses(WithGroupKey(w, g, env), n, KeyFor(w, g, env), env))
    case Send(g, env) => !env.sending.KeyMissing?
    case _ => Execute(w, c).world.store == w.store
  }

  lemma ExecuteServes(w: World, c: Command)
    requires Serving(w) && InjectsOnce(w, c)
    ensures Serving(Execute(w, c).world)
  {
    hide ChainsServe, AddToGroup, SendToGroup;
    if c.Add? {
      AddServes(w, c.node, c.endpoint, c.group, c.env, c.winner);
    } else if c.Send? {
      RefreshStore(w, c.group, c.env);
      SendKvs(w, c.group, c.env);
    } else {
      OtherKvs(w, c);
    }
  }

  lemma OtherKvs(w: World, c: Command)
    requires !c.Add? && !c.Send?
    ensures Execute(w, c).world.kvs == w.kvs
  {
    hide ReadKeyMap, RemovableOf, RemoveMembers, SavedAfterForget, GroupsOfNode, RemoveAcl, RemoveAllAcl, StripKeyMap,
         WipeKeys, Cleanup, OneDevice, AddKeyset;
    match c
    case Remove(n, g, env) =>
      var s := StripKeyMap(RemoveMembers(w, n, {g}, env), n, {g}, env);
      if s.Some? { CleanupFrame(s.value, n, env); }
    case RemoveAll(n, ep, env) =>
      var groups := ListedGroups(w, n, ep, env);
      CleanupFrame(w, n, env);
      var s := StripKeyMap(RemoveMembers(w, n, groups, env), n, groups, env);
      if s.Some? { CleanupFrame(s.value, n, env); }
    case KeysetAddition(n, keyset, key, env) => AddKeysetFrame(w, n, keyset, key, 0, env);
    case KeysetBinding(n, g, keyset, env) =>
    case KeysetRemoval(n, keyset, env) =>
    case Reset(n, env) =>
  }

  lemma AddServes(w: World, n: NodeId, ep: Endpoint, g: GroupId, env: Env, winner: GroupId)
    requires Serving(w) && InjectsOnce(w, Add(n, ep, g, env, winner))
    ensures Serving(AddToGroup(w, n, ep, g, env, winner).world)
  {
    hide ChainsServe, AddToGroup, Prepare, SameKeys, Install, InjectPrefix;
    var ks, ms :| ChainsServe(w.store, w.kvs, ks, ms);
    assert Serving(WithGroupKey(w, g, env)) by {
      if g !in w.store { NewGroupServed(w, g, env, ks, ms); }
    }
    PrepareFrame(w, n, ep, g, env);
    DrawStore(w, g, env);
    AddStore(w, n, ep, g, env, winner);
    AddKvs(w, n, ep, g, env, winner);
    DrawKvs(w, g, env);
    var w' := AddToGroup(w, n, ep, g, env, winner).world;
    if SupportsGroups(w, n, ep, env) {
      ApplyOne(w.kvs, InjectedFor(g, Draw(g, env), env.first));
      assert w'.store == WithGroupKey(w, g, env).store;
      assert w'.kvs == WithGroupKey(w, g, env).kvs;
    } else {
      ApplyOne(w.kvs, InjectedFor(g, Draw(g, env), env.first));
    }
  }

  ghost predicate InjectsOnceRun(w: World, cs: seq<Command>)
    decreases cs
  {
    cs == [] || (InjectsOnce(w, cs[0]) && InjectsOnceRun(Execute(w, cs[0]).world, cs[1..]))
  }

  /** Over every run that injects new groups only: both linked lists stay acyclic with matching counts
      and a head-first walk resolves every stored group to its stored keyset and key. */
  lemma {:induction false} RunServes(w: World, cs: seq<Command>)
    requires Serving(w) && InjectsOnceRun(w, cs)
    ensures Serving(Run(w, cs)) && WellFormed(Run(w, cs).kvs)
    decreases cs
  {
    hide Execute, InjectsOnce;
    if cs != [] {
      ExecuteServes(w, cs[0]);
      RunServes(Execute(w, cs[0]).world, cs[1..]);
    }
  }
}
