/** Runs from a fresh fabric that reach the failures: each breaks an invariant of the devices, the
    controller's maps, their stored copies or its key-value storage. */
module GroupRuns {
  import opened Wrappers
  import opened KeyChain
  import opened Devices
  import opened GroupProtocol
  import opened GroupFrames
  import opened GroupKeys
  import opened GroupTracker
  import opened GroupInvariant
  import opened GroupMaps
  import opened GroupReload
  import opened GroupRestart
  import opened GroupChains
  import opened GroupDelivery
  import opened GroupAddEffects
  import opened GroupBoundaries

  // Nothing fails; the map ids are those of the id-th command.
  function Calm(key: Key, id: nat): Env {
    Env({}, {}, None, true, false, key, Injection(10000 + 2 * id, 3), Injection(10001 + 2 * id, 3), Sent, true)
  }

  // One call fails.
  function Failing(key: Key, id: nat, down: Call): Env {
    Calm(key, id).(down := {down})
  }

  // A lamp with the IPK, keyset slots for `slots` keysets in all and one endpoint.
  function Lamp(slots: nat): Device {
    Device(map[IPK := "ipk"], slots, [], map[1 := GroupTable([], 4)], {1}, [], {})
  }

  // A fabric of two such lamps and no groups.
  function TwoLamps(slots: nat): World {
    World(map[], map[], map[], map[], Kvs(None, map[], map[]), map[1 := Lamp(slots), 2 := Lamp(slots)])
  }

  // A device after a first group was added on endpoint 1, as far as keys matter.
  ghost predicate Serves(d: Device, g: GroupId, key: Key, slots: nat) {
    && d.keysets == map[IPK := "ipk", KeysetFor(g) := key] && d.keysetCapacity == slots
    && d.keyMap == [KeyMapEntry(g, KeysetFor(g))]
    && d.tables.Keys == {1} && |d.tables[1].members| <= 1 && d.tables[1].capacity == 4 && d.foreign == {}
  }

  /* ---- group_add to a device with room for everything ---- */

  lemma PlainPrepare(w: World, n: NodeId, g: GroupId, env: Env)
    requires n in w.devices && 1 in w.devices[n].tables && g !in w.store && env.capacityKnown
    requires |w.devices[n].tables[1].members| < w.devices[n].tables[1].capacity
    requires ServerListRead !in env.down && MembershipGet !in env.down
    ensures Starts(w, n, 1, g, env) && Prepare(w, n, 1, g, env) == Result(WithGroupKey(w, g, env), Done)
    ensures var w1 := WithGroupKey(w, g, env);
      && w1.store == w.store[g := Draw(g, env)]
      && w1.devices == w.devices && w1.tracker == w.tracker && w1.provisioned == w.provisioned
  {
    hide InjectPrefix;
  }

  lemma PlainInstall(w: World, n: NodeId, sk: StoredKey, env: Env, slots: nat)
    requires n in w.devices && w.devices[n] == Lamp(slots) && slots >= 2
    requires sk.keyset != IPK && n !in w.tracker && env.down == {}
    ensures var (w2, status) := Install(w, n, sk, env);
      && status == Written && w2.store == w.store && w2.provisioned == w.provisioned
      && w2.tracker == w.tracker[n := {sk.keyset}]
      && w2.devices == w.devices[n := Overwrite(Lamp(slots), sk.keyset, sk.key)]
  {
    hide Cleanup;
    assert |Lamp(slots).keysets| == 1;
    assert {} + {sk.keyset} == {sk.keyset};
  }

  lemma PlainProvision(w: World, n: NodeId, g: GroupId, key: Key, id: nat, slots: nat)
    requires n in w.devices && w.devices[n] == Lamp(slots) && slots >= 2
    requires g !in w.store && n !in w.tracker && KeysetFor(g) != IPK
    ensures var env := Calm(key, id);
      var w1, sk := WithGroupKey(w, g, env), Draw(g, env);
      var p := Provision(w1, n, g, sk, env, g);
      && Starts(w, n, 1, g, env) && Prepare(w, n, 1, g, env) == Result(w1, Done)
      && g in w1.store && w1.store[g] == sk && n in w1.devices && KeyWritten(w1, n, sk, env) && !Reuses(w1, n, sk, env)
      && p.outcome == Done && p.reused == None
      && p.world.store == w.store[g := sk] && p.world.provisioned == w.provisioned
      && p.world.tracker == w.tracker[n := {KeysetFor(g)}]
      && p.world.devices == w.devices[n := p.world.devices[n]]
      && Serves(p.world.devices[n], g, key, slots) && p.world.devices[n].tables == Lamp(slots).tables
  {
    hide WithGroupKey, Prepare, Install, BindOnDevice, KeyWritten, StaysFull, Starts, Serves, Overwrite;
    var env := Calm(key, id);
    PlainPrepare(w, n, g, env);
    var w1, sk := WithGroupKey(w, g, env), Draw(g, env);
    PlainInstall(w1, n, sk, env, slots);
    InstallStatus(w1, n, sk, env);
    var w2 := Install(w1, n, sk, env).0;
    OverwrittenServes(g, key, slots);
    PlainBind(w2, n, g, env);
  }

  lemma OverwrittenServes(g: GroupId, key: Key, slots: nat)
    requires KeysetFor(g) != IPK
    ensures var d := Overwrite(Lamp(slots), KeysetFor(g), key);
      && d.keyMap == [] && d.tables == Lamp(slots).tables
      && Serves(d.(keyMap := [KeyMapEntry(g, KeysetFor(g))]), g, key, slots)
  {
  }

  lemma PlainBind(w: World, n: NodeId, g: GroupId, env: Env)
    requires n in w.devices && w.devices[n].keyMap == [] && env.down == {} && env.refused == {}
    ensures BindOnDevice(w, n, g, KeysetFor(g), env)
      == Some(PutDevice(w, n, w.devices[n].(keyMap := [KeyMapEntry(g, KeysetFor(g))])))
  {
    assert Without([], {g}) == [];
    assert Bind([], g, KeysetFor(g)) == [KeyMapEntry(g, KeysetFor(g))];
  }

  // Joining changes no keys.
  lemma PlainJoin(w: World, n: NodeId, g: GroupId, env: Env)
    requires n in w.devices && 1 in w.devices[n].tables && env.down == {} && env.refused == {}
    ensures var r := JoinGroup(w, n, 1, g, env);
      && r.outcome == Done && r.world.store == w.store && r.world.tracker == w.tracker
      && r.world.provisioned == w.provisioned[g := ProvisionedOf(w, g) + {n}]
      && r.world.devices.Keys == w.devices.Keys
      && (forall m :: m in w.devices && m != n ==> r.world.devices[m] == w.devices[m])
      && r.world.devices[n].keysets == w.devices[n].keysets && r.world.devices[n].keyMap == w.devices[n].keyMap
      && r.world.devices[n].keysetCapacity == w.devices[n].keysetCapacity
      && r.world.devices[n].foreign == w.devices[n].foreign
      && r.world.devices[n].tables == w.devices[n].tables[1 := AddMember(w.devices[n].tables[1], g)]
  {
    hide EnsureAcl, AddMember;
    PlainAcl(PutTable(w, n, 1, AddMember(TableOf(w.devices[n], 1), g)), n, g, env);
  }

  lemma PlainAcl(w: World, n: NodeId, g: GroupId, env: Env)
    requires n in w.devices
    ensures var w' := EnsureAcl(w, n, g, env);
      && w'.devices.Keys == w.devices.Keys && w'.devices[n] == w.devices[n].(acl := w'.devices[n].acl)
      && (forall m :: m in w.devices && m != n ==> w'.devices[m] == w.devices[m])
  {
    hide EnsureGroup, HasGroup;
  }

  lemma PlainAdd(w: World, n: NodeId, g: GroupId, key: Key, id: nat, slots: nat)
    requires n in w.devices && w.devices[n] == Lamp(slots) && slots >= 2
    requires g !in w.store && g !in w.provisioned && n !in w.tracker && KeysetFor(g) != IPK
    ensures var r := AddToGroup(w, n, 1, g, Calm(key, id), g);
      && r.outcome == Done
      && r.world.store == w.store[g := StoredKey(KeysetFor(g), key)]
      && r.world.tracker == w.tracker[n := {KeysetFor(g)}]
      && r.world.provisioned == w.provisioned[g := {n}]
      && r.world.devices.Keys == w.devices.Keys
      && (forall m :: m in w.devices && m != n ==> r.world.devices[m] == w.devices[m])
      && Serves(r.world.devices[n], g, key, slots)
  {
    hide WithGroupKey, Prepare, Provision, JoinGroup, Reuses, Serves, AddMember, KeyWritten, Starts;
    var env := Calm(key, id);
    PlainProvision(w, n, g, key, id, slots);
    var p := Provision(WithGroupKey(w, g, env), n, g, Draw(g, env), env, g);
    PlainJoin(p.world, n, g, env);
    JoinedServes(p.world.devices[n], JoinGroup(p.world, n, 1, g, env).world.devices[n], g, key, slots);
    assert ProvisionedOf(p.world, g) + {n} == {n};
  }

  lemma JoinedServes(d: Device, d': Device, g: GroupId, key: Key, slots: nat)
    requires Serves(d, g, key, slots) && d.tables == Lamp(slots).tables
    requires d'.keysets == d.keysets && d'.keyMap == d.keyMap && d'.keysetCapacity == d.keysetCapacity
    requires d'.foreign == d.foreign
    requires d'.tables == d.tables[1 := AddMember(d.tables[1], g)]
    ensures Serves(d', g, key, slots)
  {
  }

  lemma PlainKeeps(w: World, n: NodeId, g: GroupId, key: Key, id: nat, slots: nat)
    requires Invariant(w) && n in w.devices && w.devices[n] == Lamp(slots) && slots >= 2
    requires g !in w.store && n !in w.tracker && KeysetFor(g) != IPK && Agrees(w.store, g, Draw(g, Calm(key, id)))
    ensures Invariant(AddToGroup(w, n, 1, g, Calm(key, id), g).world)
  {
    hide WithGroupKey, Prepare, Provision, Invariant, Agrees, Reuses, AddToGroup, AddHarmless, KeyWritten, StaysFull,
         Starts;
    PlainProvision(w, n, g, key, id, slots);
    OrderlyAddIsHarmless(w, n, 1, g, Calm(key, id), g);
    AddKeepsIff(w, n, 1, g, Calm(key, id), g);
  }

  /* ---- Short runs ---- */

  function First(): Command {
    Add(1, 1, 10, Calm("a", 0), 10)
  }

  // The world after the first command.
  ghost predicate AfterOne(w: World, slots: nat) {
    && w.store == map[10 := StoredKey(11, "a")] && w.tracker == map[1 := {11}] && w.provisioned == map[10 := {1}]
    && w.devices.Keys == {1, 2} && w.devices[2] == Lamp(slots) && Serves(w.devices[1], 10, "a", slots)
  }

  lemma OneAdded(slots: nat)
    requires slots >= 2
    ensures var w1 := Execute(TwoLamps(slots), First()).world; Invariant(w1) && AfterOne(w1, slots)
    ensures Invariant(TwoLamps(slots))
  {
    hide Invariant, AddToGroup, Serves;
    var w := TwoLamps(slots);
    assert KeysetFor(10) == 11;
    NobodyTracked(w);
    PlainKeeps(w, 1, 10, "a", 0, slots);
    PlainAdd(w, 1, 10, "a", 0, slots);
  }

  lemma RunFirst(w: World, c: Command, cs: seq<Command>)
    ensures GroupProtocol.Run(w, [c] + cs) == GroupProtocol.Run(Execute(w, c).world, cs)
  {
    hide Execute;
    assert ([c] + cs)[1..] == cs;
  }

  lemma RunThree(w: World, a: Command, b: Command, c: Command)
    ensures GroupProtocol.Run(w, [a]) == Execute(w, a).world
    ensures GroupProtocol.Run(w, [a, b]) == Execute(Execute(w, a).world, b).world
    ensures GroupProtocol.Run(w, [a, b, c]) == Execute(GroupProtocol.Run(w, [a, b]), c).world
  {
    hide Execute, GroupProtocol.Run;
    var w1 := Execute(w, a).world;
    var w2 := Execute(w1, b).world;
    RunFirst(w, a, []);
    RunFirst(w, a, [b]);
    RunFirst(w1, b, []);
    RunFirst(w, a, [b, c]);
    RunFirst(w1, b, [c]);
    RunFirst(w2, c, []);
    RunNothing(w1);
    RunNothing(w2);
    RunNothing(Execute(w2, c).world);
    assert [a] + [] == [a] && [a] + [b] == [a, b] && [b] + [] == [b];
    assert [a] + [b, c] == [a, b, c] && [b] + [c] == [b, c] && [c] + [] == [c];
  }

  lemma RunNothing(w: World)
    ensures GroupProtocol.Run(w, []) == w
  {
  }

  /** One lamp, one group_add whose KeySetWrite never arrives: the command returns normally, and the lamp
      is tracked for a group it cannot decrypt. */
  lemma LostWriteBreaks()
    ensures var env := Failing("a", 0, KeysetWrite(1, 0));
      Invariant(TwoLamps(2)) && !Invariant(GroupProtocol.Run(TwoLamps(2), [Add(1, 1, 10, env, 10)]))
  {
    hide Invariant, AddToGroup, GroupProtocol.Run, Prepare, WithGroupKey;
    var env, w := Failing("a", 0, KeysetWrite(1, 0)), TwoLamps(2);
    var c := Add(1, 1, 10, env, 10);
    NobodyTracked(w);
    RunThree(w, c, c, c);
    PlainPrepare(w, 1, 10, env);
    FailedProvisioningIsRecorded(w, 1, 1, 10, env, 10);
    assert EntriesOf([], 10) == [];
  }

  /** One lamp in group 10, and a group_remove for another group whose first map read fails: the lamp
      loses the binding of group 10 and is still tracked for it. */
  lemma FailedReadBreaks()
    ensures !Invariant(GroupProtocol.Run(TwoLamps(2), [First(), Remove(1, 20, Failing("", 4, KeyMapRead(0)))]))
  {
    hide Invariant, RemoveFromGroup, GroupProtocol.Run, Serves, AddToGroup;
    var env := Failing("", 4, KeyMapRead(0));
    OneAdded(2);
    RunThree(TwoLamps(2), First(), Remove(1, 20, env), First());
    var w1 := Execute(TwoLamps(2), First()).world;
    assert 10 in GroupsOfNode(w1, 1);
    RemoveAfterFailedReadIff(w1, 1, 20, env);
  }

  /** The same with the cleanup's map read failing instead: the lamp keeps the binding and loses the
      keyset it names. */
  lemma FailedCleanupReadBreaks()
    ensures !Invariant(GroupProtocol.Run(TwoLamps(2), [First(), Remove(1, 20, Failing("", 4, KeyMapRead(1)))]))
  {
    hide Invariant, RemoveFromGroup, GroupProtocol.Run, Serves, AddToGroup;
    var env := Failing("", 4, KeyMapRead(1));
    OneAdded(2);
    RunThree(TwoLamps(2), First(), Remove(1, 20, env), First());
    var w1 := Execute(TwoLamps(2), First()).world;
    assert 10 in GroupsOfNode(w1, 1) && 11 in CleanupCandidates(w1, 1, env);
    RemoveCleanupIff(w1, 1, 20, env);
  }

  /** A lamp with room for two groups joins group 10 and then group 20, and the map cannot be read before
      the second binding is written: the first binding is gone. */
  lemma FailedBindReadBreaks()
    ensures !Invariant(GroupProtocol.Run(TwoLamps(3), [First(), Add(1, 1, 20, Failing("b", 1, KeyMapRead(3)), 20)]))
  {
    hide Invariant, AddToGroup, GroupProtocol.Run, Prepare, WithGroupKey, Serves, KeyWritten;
    var env := Failing("b", 1, KeyMapRead(3));
    OneAdded(3);
    RunThree(TwoLamps(3), First(), Add(1, 1, 20, env, 20), First());
    var w1 := Execute(TwoLamps(3), First()).world;
    ServesHasRoom(w1.devices[1], 10, "a", 3);
    PlainPrepare(w1, 1, 20, env);
    var w2 := WithGroupKey(w1, 20, env);
    RoomWrites(w2, 1, Draw(20, env), env);
    assert 10 in GroupsOfNode(w1, 1);
    AddAfterFailedReadIff(w1, 1, 1, 20, env, 20);
  }

  lemma ServesHasRoom(d: Device, g: GroupId, key: Key, slots: nat)
    requires Serves(d, g, key, slots)
    ensures 1 in d.tables && |d.tables[1].members| < d.tables[1].capacity
    ensures |d.keysets| <= 2 && d.keysetCapacity == slots
  {
    assert d.keysets.Keys == {IPK, KeysetFor(g)};
    assert |d.keysets.Keys| <= 2;
  }

  lemma RoomWrites(w: World, n: NodeId, sk: StoredKey, env: Env)
    requires n in w.devices && KeysetWrite(n, 0) !in env.down && |w.devices[n].keysets| < w.devices[n].keysetCapacity
    ensures KeyWritten(w, n, sk, env)
  {
    hide Cleanup;
  }

  /* ---- The run that leaves a node behind ---- */

  function Second(): Command {
    Add(2, 1, 20, Calm("b", 1), 20)
  }

  function Third(): Command {
    Add(2, 1, 10, Calm("c", 2), 20)
  }

  // The world after the first two commands.
  ghost predicate AfterTwo(w: World) {
    && w.store == map[10 := StoredKey(11, "a"), 20 := StoredKey(21, "b")]
    && w.tracker == map[1 := {11}, 2 := {21}] && w.provisioned == map[10 := {1}, 20 := {2}]
    && w.devices.Keys == {1, 2} && Serves(w.devices[1], 10, "a", 2) && Serves(w.devices[2], 20, "b", 2)
  }

  lemma TwoAdded() returns (w2: World)
    ensures w2 == Execute(Execute(TwoLamps(2), First()).world, Second()).world
    ensures Invariant(w2) && AfterTwo(w2)
  {
    hide Invariant, AddToGroup, Serves;
    OneAdded(2);
    var w1 := Execute(TwoLamps(2), First()).world;
    assert KeysetFor(20) == 21;
    PlainKeeps(w1, 2, 20, "b", 1, 2);
    PlainAdd(w1, 2, 20, "b", 1, 2);
    w2 := Execute(w1, Second()).world;
  }

  // The second lamp's table is full, and nothing in it can be cleaned up.
  lemma ThirdAddReuses(w: World)
    requires AfterTwo(w)
    ensures Reuses(w, 2, w.store[10], Calm("c", 2))
    ensures var p := Provision(w, 2, 10, w.store[10], Calm("c", 2), 20);
      && p.outcome == Done && p.reused == Some(21)
      && p.world.store == map[10 := StoredKey(21, "b"), 20 := StoredKey(21, "b")]
        && p.world.provisioned == w.provisioned
  {
    hide Provision, Reuses, OneDevice, KeysetsAfter, Binds, Bind, FinalKey, Serves, Stuck;
    TwoReferenced(w, w.devices[2]);
    FullTableReuses(w, 2, 10, Calm("c", 2), 20, 21);
    ProvisionEffect(w, 2, 10, w.store[10], Calm("c", 2), 20);
  }

  lemma TwoReferenced(w: World, d: Device)
    requires Serves(d, 20, "b", 2) && w.store == map[10 := StoredKey(11, "a"), 20 := StoredKey(21, "b")]
    ensures |d.keysets| == d.keysetCapacity == 2 && 11 !in d.keysets
    ensures Referenced(d.keyMap) == {21} && StoreKeysets(w.store) * Referenced(d.keyMap) == {21}
  {
    assert KeysetFor(20) == 21;
    assert d.keysets.Keys == {IPK, 21};
    assert KeyMapEntry(20, 21) in d.keyMap;
    assert 20 in w.store;
  }

  lemma ThirdAddPrepared(w: World)
    requires AfterTwo(w)
    ensures Starts(w, 2, 1, 10, Calm("c", 2)) && Prepare(w, 2, 1, 10, Calm("c", 2)) == Result(w, Done)
    ensures WithGroupKey(w, 10, Calm("c", 2)) == w && 1 in w.devices[2].tables
  {
    hide Serves;
    ServesHasRoom(w.devices[2], 20, "b", 2);
  }

  /** Two lamps with one free keyset slot each: the first joins group 10, the second group 20, and up to
      here every tracked node can decrypt. Then the second also joins group 10: its table is full, there
      is nothing to clean up, the group takes over keyset 21, and the first lamp, still tracked for group
      10, is left with keyset 11. */
  lemma TwoLampsBreak()
    ensures Invariant(GroupProtocol.Run(TwoLamps(2), [First(), Second()]))
    ensures !Invariant(GroupProtocol.Run(TwoLamps(2), [First(), Second(), Third()]))
  {
    hide Invariant, AddToGroup, Provision, GroupProtocol.Run, Prepare, Serves, Reuses, FinalKey, Holds;
    var w2 := TwoAdded();
    RunThree(TwoLamps(2), First(), Second(), Third());
    ThirdAddReuses(w2);
    ThirdAddPrepared(w2);
    assert 1 in ProvisionedOf(w2, 10);
    ReuseKeepsIff(w2, 2, 1, 10, Calm("c", 2), 20);
  }

  /* ---- The run that makes the key store ambiguous ---- */

  // The world after the third command, as far as it matters for the first lamp.
  ghost predicate AfterThree(w: World) {
    && w.store == map[10 := StoredKey(21, "b"), 20 := StoredKey(21, "b")]
    && w.provisioned == map[10 := {1, 2}, 20 := {2}]
    && 1 in w.devices && Serves(w.devices[1], 10, "a", 2) && 1 in w.tracker && w.tracker[1] == {11}
  }

  lemma ThreeAdded() returns (w3: World)
    ensures w3 == GroupProtocol.Run(TwoLamps(2), [First(), Second(), Third()])
    ensures AfterThree(w3)
  {
    hide Invariant, GroupProtocol.Run, Serves, AddToGroup;
    RunThree(TwoLamps(2), First(), Second(), Third());
    var w2 := TwoAdded();
    ThirdAdd(w2);
    w3 := AddToGroup(w2, 2, 1, 10, Calm("c", 2), 20).world;
  }

  lemma ThirdAdd(w: World)
    requires AfterTwo(w)
    ensures AfterThree(AddToGroup(w, 2, 1, 10, Calm("c", 2), 20).world)
  {
    hide Provision, Prepare, Serves, JoinGroup, AddToGroup, Reuses;
    ThirdAddReuses(w);
    ThirdAddPrepared(w);
    ThirdProvisionFrame(w);
    AddIsJoin(w, 2, 10, Calm("c", 2), 20);
    PlainJoin(Provision(w, 2, 10, w.store[10], Calm("c", 2), 20).world, 2, 10, Calm("c", 2));
    assert {1} + {2} == {1, 2};
  }

  // Neither the first lamp nor its tracker entry is touched.
  lemma ThirdProvisionFrame(w: World)
    requires AfterTwo(w)
    ensures var w' := Provision(w, 2, 10, w.store[10], Calm("c", 2), 20).world;
      && 1 in w'.devices && w'.devices[1] == w.devices[1] && 1 in w'.tracker && w'.tracker[1] == {11}
      && 2 in w'.devices && 1 in w'.devices[2].tables
  {
    hide Provision, Serves;
    ServesHasRoom(w.devices[2], 20, "b", 2);
    hide KeysOnly, Provisions, Keyless;
    var env := Calm("c", 2);
    ProvisionStep(w, 2, 10, w.store[10], env, 20);
    var w' := Provision(w, 2, 10, w.store[10], env, 20).world;
    KeysOnlyAt(w, w', 2);
    KeysOnlyElsewhere(w, w', 2, 1);
    TrackerElsewhere(w, w', 2, 10, w.store[10], env, 20, 1);
  }

  lemma AddIsJoin(w: World, n: NodeId, g: GroupId, env: Env, winner: GroupId)
    requires g in w.store && Prepare(w, n, 1, g, env) == Result(w, Done)
    requires Provision(w, n, g, w.store[g], env, winner).outcome == Done
    ensures AddToGroup(w, n, 1, g, env, winner)
      == JoinGroup(Provision(w, n, g, w.store[g], env, winner).world, n, 1, g, env)
  {
    hide Provision, Prepare, JoinGroup;
  }

  /** The run goes on: the second lamp is reset, which purges group 20 (no other node was in it); group 20
      is added again, here to the first lamp, and keyset 21 now has two keys. */
  lemma TwoLampsAmbiguous()
    ensures var w3 := GroupProtocol.Run(TwoLamps(2), [First(), Second(), Third()]);
      && KeysAgree(w3.store)
      && !KeysAgree(GroupProtocol.Run(w3, [Reset(2, Calm("", 4)), Add(1, 1, 20, Calm("d", 3), 20)]).store)
  {
    hide Execute, GroupProtocol.Run, Serves, KeysAgree;
    var w3 := ThreeAdded();
    RunThree(w3, Reset(2, Calm("", 4)), Add(1, 1, 20, Calm("d", 3), 20), First());
    ReaddAmbiguous(w3);
  }

  lemma ReaddAmbiguous(w: World)
    requires AfterThree(w)
    ensures KeysAgree(w.store)
    ensures !KeysAgree(Execute(Execute(w, Reset(2, Calm("", 4))).world, Add(1, 1, 20, Calm("d", 3), 20)).world.store)
  {
    hide Provision, Prepare, Serves, AddToGroup, ResetNode, SupportsGroups, AfterReset, KeysAgree;
    OneSharedKey(w.store);
    ResetFrame(w);
    DrawAmbiguous(w);
    FourthAdd(ResetNode(w, 2, Calm("", 4)).world);
  }

  lemma OneSharedKey(store: map<GroupId, StoredKey>)
    requires store == map[10 := StoredKey(21, "b"), 20 := StoredKey(21, "b")]
    ensures KeysAgree(store)
  {
  }

  lemma DrawAmbiguous(w: World)
    requires AfterThree(w) && SupportsGroups(ResetNode(w, 2, Calm("", 4)).world, 1, 1, Calm("d", 3))
    ensures !KeysAgree(Prepare(ResetNode(w, 2, Calm("", 4)).world, 1, 1, 20, Calm("d", 3)).world.store)
  {
    hide Prepare, Serves, ResetNode, SupportsGroups, KeysAgree;
    assert KeysetFor(20) == 21;
    PurgeThenAddIsAmbiguous(w, 2, 10, 20, Calm("", 4), 1, 1, Calm("d", 3));
  }

  // The world after the reset.
  ghost predicate AfterReset(w: World) {
    && w.store == map[10 := StoredKey(21, "b")]
    && 1 in w.devices && Serves(w.devices[1], 10, "a", 2) && 1 in w.tracker && w.tracker[1] == {11}
  }

  lemma ResetFrame(w: World)
    requires AfterThree(w)
    ensures var w' := ResetNode(w, 2, Calm("", 4)).world; AfterReset(w') && SupportsGroups(w', 1, 1, Calm("d", 3))
  {
    hide WipeKeys, RemoveAllAcl, SavedAfterForget, Serves;
    ResetPurges(w, 2, 10, 20, Calm("", 4));
    ResetReachesOne(w);
    ServesHasRoom(w.devices[1], 10, "a", 2);
  }

  lemma ResetReachesOne(w: World)
    ensures var w1 := RemoveAllAcl(WipeKeys(w, 2, Calm("", 4)), 2, Calm("", 4));
      w1.devices.Keys == w.devices.Keys && forall m :: m in w.devices && m != 2 ==> w1.devices[m] == w.devices[m]
  {
    hide RemovableOf, RemoveAllGroups;
  }

  lemma FourthAdd(w: World)
    requires AfterReset(w) && SupportsGroups(w, 1, 1, Calm("d", 3))
    ensures AddToGroup(w, 1, 1, 20, Calm("d", 3), 20).world.store == Prepare(w, 1, 1, 20, Calm("d", 3)).world.store
  {
    hide InjectPrefix, Provision;
    var r := Prepare(w, 1, 1, 20, Calm("d", 3));
    assert r.outcome == Done && r.world.devices == w.devices && r.world.tracker == w.tracker;
    assert KeysetFor(20) == 21 && KeysetFor(10) == 11;
    var d := w.devices[1];
    assert |d.keysets| == 2 by { assert d.keysets.Keys == {IPK, 11}; }
    assert Referenced(d.keyMap) == {11} by { assert KeyMapEntry(10, 11) in d.keyMap; }
    assert r.world.store == map[10 := StoredKey(21, "b"), 20 := StoredKey(21, "d")];
    assert StoreKeysets(r.world.store) == {21};
    NothingToReuse(r.world, 1, 20, Calm("d", 3), 20);
  }

  /* ---- Runs that break the other invariants ---- */

  /** The keyset of a bound group is removed from the lamp: GroupKeyMap names a keyset that is not there. */
  lemma RemovedKeysetUnmaps()
    ensures AllMapped(GroupProtocol.Run(TwoLamps(2), [First()]))
    ensures !AllMapped(GroupProtocol.Run(TwoLamps(2), [First(), KeysetRemoval(1, 11, Calm("", 4))]))
  {
    hide Invariant, AddToGroup, RemoveKeyset, GroupProtocol.Run;
    OneAdded(2);
    RunThree(TwoLamps(2), First(), KeysetRemoval(1, 11, Calm("", 4)), First());
    var w1 := Execute(TwoLamps(2), First()).world;
    assert KeysetFor(10) == 11;
    assert KeyMapEntry(10, 11) in w1.devices[1].keyMap;
    KeysetRemovalMappedIff(w1, 1, 11, Calm("", 4));
  }

  /** A reset that cannot remove the lamp's keyset drops the tracker all the same. */
  lemma IncompleteResetForgets()
    ensures Known(GroupProtocol.Run(TwoLamps(2), [First()]))
    ensures !Known(GroupProtocol.Run(TwoLamps(2), [First(), Reset(1, Failing("", 4, KeysetRemove(11)))]))
  {
    hide Invariant, AddToGroup, ResetNode, GroupProtocol.Run, Known;
    var env := Failing("", 4, KeysetRemove(11));
    OneAdded(2);
    RunThree(TwoLamps(2), First(), Reset(1, env), First());
    LampsKnown(2);
    ExecuteKnownIff(TwoLamps(2), First());
    var w1 := Execute(TwoLamps(2), First()).world;
    assert KeysetFor(10) == 11;
    assert 11 in Survivors(w1, 1, env);
    ResetKnownIff(w1, 1, env);
  }

  lemma LampsKnown(slots: nat)
    ensures Known(TwoLamps(slots))
  {
  }

  /** A reset purges the lamp's group and leaves its stored node list: after a restart the lamp is tracked
      for a group that has no key. */
  lemma PurgeThenRestartBreaks()
    ensures var w2 := GroupProtocol.Run(TwoLamps(2), [First(), Reset(1, Calm("", 4))]);
      Invariant(w2) && !NodesSaved(w2) && !Invariant(Restarted(w2))
  {
    hide Invariant, AddToGroup, ResetNode, GroupProtocol.Run, Serves, KeysCopied, NodesCopied, TrackerCopied,
         Restarted;
    var c := Reset(1, Calm("", 4));
    OneAdded(2);
    RunThree(TwoLamps(2), First(), c, First());
    LampsSaved(2);
    ExecuteSaved(TwoLamps(2), First());
    var w1 := Execute(TwoLamps(2), First()).world;
    assert 10 in GroupsOfNode(w1, 1) && LeftProvisioned(w1, 1, 10) == {};
    assert 10 in Purged(w1, 1, GroupsOfNode(w1, 1), true);
    ExecuteSaved(w1, c);
    ExecuteKeepsIff(w1, c);
    RestartAfterIff(w1, c);
  }

  lemma LampsSaved(slots: nat)
    ensures KeysSaved(TwoLamps(slots)) && NodesSaved(TwoLamps(slots)) && TrackerSaved(TwoLamps(slots))
  {
  }

  /* ---- Runs that close the keyset list ---- */

  // A plain group_add prepends its keyset and its map id.
  lemma PlainLists(w: World, n: NodeId, g: GroupId, key: Key, id: nat, slots: nat, ks: seq<nat>, ms: seq<nat>)
    requires n in w.devices && w.devices[n] == Lamp(slots) && slots >= 2
    requires g !in w.store && g !in w.provisioned && n !in w.tracker && KeysetFor(g) != IPK
    requires Chains(w.kvs, ks, ms) && KeyChain.Fresh(ks, ms, KeysetFor(g), 10000 + 2 * id)
    ensures Chains(AddToGroup(w, n, 1, g, Calm(key, id), g).world.kvs, [KeysetFor(g)] + ks, [10000 + 2 * id] + ms)
    ensures InjectionsOf(w, Add(n, 1, g, Calm(key, id), g))
      == [InjectedFor(g, StoredKey(KeysetFor(g), key), Injection(10000 + 2 * id, 3))]
  {
    hide AddToGroup, Prepare, Provision, WithGroupKey, Chains, InjectPrefix, Serves, KeyWritten, StaysFull, RoomMade;
    var env := Calm(key, id);
    PlainProvision(w, n, g, key, id, slots);
    AddKvs(w, n, 1, g, env, g);
    var i := InjectedFor(g, Draw(g, env), env.first);
    ApplyOne(w.kvs, i);
    assert [i] + [] == [i];
    InjectFresh(w.kvs, ks, ms, g, KeysetFor(g), key, 10000 + 2 * id);
    assert Apply(w.kvs, i) == Inject(w.kvs, g, KeysetFor(g), key, 10000 + 2 * id);
  }

  lemma OneListed()
    ensures Chains(Execute(TwoLamps(2), First()).world.kvs, [11], [10000])
    ensures InjectionsOf(TwoLamps(2), First()) == [InjectedFor(10, StoredKey(11, "a"), Injection(10000, 3))]
  {
    hide AddToGroup, InjectionsOf;
    assert KeysetFor(10) == 11;
    assert Chains(TwoLamps(2).kvs, [], []);
    PlainLists(TwoLamps(2), 1, 10, "a", 0, 2, [], []);
    assert [11] + [] == [11] && [10000] + [] == [10000];
  }

  /** The controller's storage is well formed after the first group_add. When a groupcast then reports the
      key missing, the same keyset is injected once more and the keyset list closes. */
  lemma RetryClosesList()
    ensures var send := Send(10, Calm("", 4).(sending := KeyMissing));
      && WellFormed(GroupProtocol.Run(TwoLamps(2), [First()]).kvs)
      && !WellFormed(GroupProtocol.Run(TwoLamps(2), [First(), send]).kvs)
  {
    hide Invariant, AddToGroup, SendToGroup, GroupProtocol.Run, Serves, Chains;
    var send := Send(10, Calm("", 4).(sending := KeyMissing));
    OneAdded(2);
    OneListed();
    RunThree(TwoLamps(2), First(), send, First());
    var w1 := Execute(TwoLamps(2), First()).world;
    ExecuteKvs(w1, send);
    ListedCloses(w1, send, InjectedFor(10, StoredKey(11, "a"), send.env.first), [11], [10000]);
  }

  // A command whose one injection is complete and of a keyset on the list.
  lemma ListedCloses(w: World, c: Command, i: Injected, ks: seq<nat>, ms: seq<nat>)
    requires Chains(w.kvs, ks, ms) && InjectionsOf(w, c) == [i] && i.keyset in ks && i.writes >= 3
    ensures !WellFormed(Execute(w, c).world.kvs)
  {
    hide Execute, InjectionsOf, Chains, Apply;
    ExecuteKvs(w, c);
    ApplyOne(w.kvs, i);
    ApplyWellFormedIff(w.kvs, i);
    assert !PrefixFresh(ks, ms, i.keyset, i.mapId, i.writes);
  }

  /** And after the first two. The third takes over keyset 21 from group 20, injects it once more, and the
      keyset list closes. */
  lemma ReuseClosesList()
    ensures WellFormed(GroupProtocol.Run(TwoLamps(2), [First(), Second()]).kvs)
    ensures !WellFormed(GroupProtocol.Run(TwoLamps(2), [First(), Second(), Third()]).kvs)
  {
    hide Invariant, AddToGroup, GroupProtocol.Run, Serves, Chains, InjectionsOf;
    var w2 := TwoAdded();
    TwoListed();
    RunThree(TwoLamps(2), First(), Second(), Third());
    ThirdInjects(w2);
    ListedCloses(w2, Third(), InjectedFor(10, StoredKey(21, "b"), Third().env.second), [21, 11], [10002, 10000]);
  }

  lemma TwoListed()
    ensures Chains(Execute(Execute(TwoLamps(2), First()).world, Second()).world.kvs, [21, 11], [10002, 10000])
  {
    hide AddToGroup, InjectionsOf, Chains, Serves, Invariant;
    OneAdded(2);
    OneListed();
    assert KeysetFor(20) == 21;
    PlainLists(Execute(TwoLamps(2), First()).world, 2, 20, "b", 1, 2, [11], [10000]);
    assert [21] + [11] == [21, 11] && [10002] + [10000] == [10002, 10000];
  }

  lemma ThirdInjects(w: World)
    requires AfterTwo(w)
    ensures InjectionsOf(w, Third()) == [InjectedFor(10, StoredKey(21, "b"), Third().env.second)]
  {
    hide Provision, Prepare, Serves, Starts, FinalKey;
    ThirdAddReuses(w);
    ThirdAddPrepared(w);
    ProvisionStore(w, 2, 10, w.store[10], Calm("c", 2), 20);
    assert FinalKey(w, 2, w.store[10], Calm("c", 2), 20)
      == Provision(w, 2, 10, w.store[10], Calm("c", 2), 20).world.store[10];
    assert SupportsGroups(w, 2, 1, Calm("c", 2)) by { StartsSupports(w, 2, 1, 10, Calm("c", 2)); }
  }

  lemma StartsSupports(w: World, n: NodeId, ep: Endpoint, g: GroupId, env: Env)
    requires Starts(w, n, ep, g, env)
    ensures SupportsGroups(w, n, ep, env)
  {
  }

  /* ---- A run that delivers ---- */

  /** A fresh controller delivers nothing yet, its first group_add is deliverable, and so the lamp decrypts
      what is sent to the group. */
  lemma FirstDelivers()
    ensures Delivers(TwoLamps(2)) && DeliverableRun(TwoLamps(2), [First()])
    ensures var w1 := GroupProtocol.Run(TwoLamps(2), [First()]);
      Tracked(w1.provisioned, 10, 1) && exists ms :: DecryptsGroupcast(w1, ms, 10, 1)
  {
    hide Invariant, AddToGroup, GroupProtocol.Run, Serves, InjectionsOf, Harmless, Delivers, MapChain,
         DecryptsGroupcast;
    var w := TwoLamps(2);
    NothingToDeliver(w);
    OneAdded(2);
    OneListed();
    DeliversHas(w);
    ExecuteKeepsIff(w, First());
    forall ms | MapChain(w.kvs, ms) ensures ms == [] { EmptyMaps(w, ms); }
    assert MapServed(w, First());
    RunThree(w, First(), First(), First());
    assert [First()][1..] == [];
    RunDelivers(w, [First()]);
  }

  lemma DeliversHas(w: World)
    requires Delivers(w)
    ensures Invariant(w)
  {
  }

  lemma EmptyMaps(w: World, ms: seq<nat>)
    requires w.kvs == Kvs(None, map[], map[]) && MapChain(w.kvs, ms)
    ensures ms == []
  {
  }
}
