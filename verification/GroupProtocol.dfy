/** The group commands of the device controller as functions on the whole state: the controller's
    three maps, their stored copies, the controller's key-value storage and all devices.

    Each call to the SDK either takes effect, raises, or is answered with an error status that the
    code does not look at; `Env` says which, and supplies what the code draws at random. */
module GroupProtocol {
  import opened Wrappers
  import opened Minimum
  import opened KeyChain
  import opened Devices
  import Storage
  import opened Cells

  datatype StoredKey = StoredKey(keyset: KeysetId, key: Key)

  datatype World = World(
    store: map<GroupId, StoredKey>,           // _group_key_store
    tracker: map<NodeId, set<KeysetId>>,      // _known_keysets_per_node
    provisioned: map<GroupId, set<NodeId>>,   // _group_provisioned_nodes
    saved: Storage.Data,                      // the stored copies of the three
    kvs: Kvs,                                 // the controller's own key-value storage
    devices: map<NodeId, Device>)

  // One SDK call of a command. A command makes each at most once.
  datatype Call =
    | ServerListRead
    | MembershipGet
    | OldestEvict
    | KeysetWrite(node: NodeId, attempt: nat)
    | KeyMapRead(site: nat)
    | KeyTableRead
    | KeysetRemove(keyset: KeysetId)
    | KeyMapWrite
    | MemberAdd
    | AclRead
    | AclWrite
    | PartsRead
    | MemberRemove(group: GroupId, endpoint: Endpoint)

  // The random map id of one injection and how many of its three writes succeed.
  datatype Injection = Injection(mapId: nat, writes: nat)

  datatype Sending = Sent | KeyMissing | SendFailed   // KeyMissing is error 0xAC

  datatype Env = Env(
    down: set<Call>,                  // calls that raise
    refused: set<Call>,               // calls that return an ignored error status
    table: Option<set<KeysetId>>,     // the answer to a GroupKeyTable read, if any
    capacityKnown: bool,              // whether GetGroupMembership reports an integer capacity
    noAttributes: bool,               // whether the ACL read, or the read of a binding, returns no attributes
    freshKey: Key,
    first: Injection,
    second: Injection,
    sending: Sending,
    resent: bool)                     // whether the groupcast repeated after error 0xAC gets out

  datatype Outcome = Done | CallFailed | Invalid
  datatype Result = Result(world: World, outcome: Outcome)

  // (group_id % 0xFFFE) + 1
  function KeysetFor(group: GroupId): KeysetId {
    group % 0xFFFE + 1
  }

  // range(1, 64)
  function BruteForceRange(): set<KeysetId> {
    Below(64) - {IPK}
  }

  function Below(n: nat): (s: set<nat>)
    ensures forall k: nat :: k in s <==> k < n
  {
    if n == 0 then {} else Below(n - 1) + {n - 1}
  }

  /* ---- Updates of one map together with its stored copy ---- */

  function PutKey(w: World, g: GroupId, sk: StoredKey): World {
    w.(store := w.store[g := sk], saved := w.saved[KeyCell(g) := Storage.KeyRecord(sk.keyset, sk.key)])
  }

  function PutTracker(w: World, n: NodeId, keysets: set<KeysetId>): World {
    w.(tracker := w.tracker[n := keysets], saved := w.saved[TrackerCell(n) := Storage.Ids(keysets)])
  }

  function PutProvisioned(w: World, g: GroupId, nodes: set<NodeId>): World {
    w.(provisioned := w.provisioned[g := nodes], saved := w.saved[NodesCell(g) := Storage.Ids(nodes)])
  }

  function TrackerOf(w: World, n: NodeId): set<KeysetId> {
    if n in w.tracker then w.tracker[n] else {}
  }

  function ProvisionedOf(w: World, g: GroupId): set<NodeId> {
    if g in w.provisioned then w.provisioned[g] else {}
  }

  function PutDevice(w: World, n: NodeId, d: Device): World {
    w.(devices := w.devices[n := d])
  }

  function StoreKeysets(store: map<GroupId, StoredKey>): set<KeysetId> {
    set g | g in store :: store[g].keyset
  }

  // Nothing but the state of devices differs.
  ghost predicate OnlyDevices(w: World, w': World) {
    w' == w.(devices := w'.devices)
  }

  /* ---- SDK calls ---- */

  predicate Reach(w: World, n: NodeId, c: Call, env: Env) {
    n in w.devices && c !in env.down
  }

  predicate Effective(w: World, n: NodeId, c: Call, env: Env) {
    Reach(w, n, c, env) && c !in env.refused
  }

  // `_get_node_group_key_map`: an empty list when the read fails.
  function ReadKeyMap(w: World, n: NodeId, site: nat, env: Env): seq<KeyMapEntry> {
    if Reach(w, n, KeyMapRead(site), env) then w.devices[n].keyMap else []
  }

  datatype WriteStatus = Written | Exhausted | Failed

  // `group_add_key_set`: KeySetWrite and, if it succeeds, the tracker entry.
  function AddKeyset(w: World, n: NodeId, keyset: KeysetId, key: Key, attempt: nat, env: Env): (World, WriteStatus) {
    if !Reach(w, n, KeysetWrite(n, attempt), env) then (w, Failed)
    else match WriteKeyset(w.devices[n], keyset, key)
      case None => (w, Exhausted)
      case Some(d) => (PutTracker(PutDevice(w, n, d), n, TrackerOf(w, n) + {keyset}), Written)
  }

  /* ---- Keyset cleanup ---- */

  function TableAnswer(w: World, n: NodeId, env: Env): set<KeysetId> {
    if Reach(w, n, KeyTableRead, env) && env.table.Some? then env.table.value else {}
  }

  // The three tiers: device table, controller tracker, brute force.
  function CleanupCandidates(w: World, n: NodeId, env: Env): set<KeysetId> {
    var table := TableAnswer(w, n, env);
    if table != {} then table
    else if TrackerOf(w, n) != {} then TrackerOf(w, n)
    else BruteForceRange() + (StoreKeysets(w.store) - {IPK})
  }

  function Orphaned(w: World, n: NodeId, env: Env): set<KeysetId> {
    CleanupCandidates(w, n, env) - Referenced(ReadKeyMap(w, n, 1, env)) - {IPK}
  }

  function RemovableOf(w: World, n: NodeId, keysets: set<KeysetId>, env: Env): set<KeysetId> {
    set k | k in keysets && Reach(w, n, KeysetRemove(k), env) && k in w.devices[n].keysets
  }

  // KeySetRemove of each of `gone`, with the tracker kept in step where the node has one.
  function RemoveTracked(w: World, n: NodeId, gone: set<KeysetId>): World
    requires gone != {} ==> n in w.devices
  {
    if gone == {} then w
    else
      var w1 := PutDevice(w, n, RemoveKeysets(w.devices[n], gone));
      if n in w.tracker then PutTracker(w1, n, w.tracker[n] - gone) else w1
  }

  // `_cleanup_unused_keysets_on_node`
  function Cleanup(w: World, n: NodeId, env: Env): (World, nat) {
    var gone := RemovableOf(w, n, Orphaned(w, n, env), env);
    assert gone != {} ==> n in w.devices;
    (RemoveTracked(w, n, gone), |gone|)
  }

  /* ---- Provisioning ---- */

  function InjectKeys(w: World, g: GroupId, sk: StoredKey, i: Injection): World {
    w.(kvs := InjectPrefix(w.kvs, g, sk.keyset, sk.key, i.mapId, i.writes))
  }

  // KeySetWrite, and once more if the table was full and the cleanup freed a slot.
  function Install(w: World, n: NodeId, sk: StoredKey, env: Env): (World, WriteStatus) {
    var (w1, s1) := AddKeyset(w, n, sk.keyset, sk.key, 0, env);
    if s1 != Exhausted then (w1, s1)
    else
      var (w2, cleaned) := Cleanup(w1, n, env);
      if cleaned > 0 then AddKeyset(w2, n, sk.keyset, sk.key, 1, env) else (w2, Exhausted)
  }

  function Reusable(w: World, n: NodeId, env: Env): (keysets: set<KeysetId>)
    ensures keysets <= StoreKeysets(w.store)
  {
    StoreKeysets(w.store) * Referenced(ReadKeyMap(w, n, 2, env))
  }

  // Entries of the store that share a keyset collapse to one in dict(store.values()).
  predicate Wins(store: map<GroupId, StoredKey>, winner: GroupId, keyset: KeysetId) {
    winner in store && store[winner].keyset == keyset
  }

  function RecordKeyset(w: World, n: NodeId, keyset: KeysetId): World {
    if keyset in TrackerOf(w, n) then w else PutTracker(w, n, TrackerOf(w, n) + {keyset})
  }

  ghost function PickWinner(store: map<GroupId, StoredKey>, keyset: KeysetId, hint: GroupId): (winner: GroupId)
    requires keyset in StoreKeysets(store)
    ensures Wins(store, winner, keyset)
    ensures Wins(store, hint, keyset) ==> winner == hint
  {
    if Wins(store, hint, keyset) then hint
    else
      assert exists g :: Wins(store, g, keyset) by {
        var g :| g in store && store[g].keyset == keyset;
        assert Wins(store, g, keyset);
      }
      var winner :| Wins(store, winner, keyset);
      winner
  }

  // The group takes over the key of the winner, which the device already holds.
  function Remap(w: World, n: NodeId, g: GroupId, sk: StoredKey, env: Env): World {
    var w1 := RecordKeyset(w, n, sk.keyset);
    if g in w1.store && w1.store[g] == sk then w1
    else InjectKeys(PutKey(w1, g, sk), g, sk, env.second)
  }

  // Re-read the map, replace the group's entry, write it back; None when the write raises.
  function BindOnDevice(w: World, n: NodeId, g: GroupId, keyset: KeysetId, env: Env): (bound: Option<World>)
    ensures bound.Some? ==> OnlyDevices(w, bound.value)
  {
    if !Reach(w, n, KeyMapWrite, env) then None
    else if KeyMapWrite in env.refused then Some(w)
    else Some(PutDevice(w, n, w.devices[n].(keyMap := Bind(ReadKeyMap(w, n, 3, env), g, keyset))))
  }

  // `reused` is the keyset taken over from another group, if any.
  datatype Provisioning = Provisioning(world: World, outcome: Outcome, reused: Option<KeysetId>)

  // `_provision_group_keys_on_node`; `winner` is the group whose entry dict(store.values()) keeps for
  // the reused keyset, should entries share it.
  ghost function Provision(w: World, n: NodeId, g: GroupId, sk: StoredKey, env: Env, winner: GroupId): Provisioning {
    var (w1, status) := Install(w, n, sk, env);
    if status == Failed then Provisioning(w1, CallFailed, None)
    else if status == Written then FinishProvision(w1, n, g, sk.keyset, None, env)
    else if Reusable(w1, n, env) == {} then Provisioning(w1, Invalid, None)
    else
      var keyset := Min(Reusable(w1, n, env));
      var donor := PickWinner(w1.store, keyset, winner);
      var w2 := Remap(w1, n, g, w1.store[donor], env);
      FinishProvision(w2, n, g, keyset, Some(keyset), env)
  }

  function FinishProvision(w: World, n: NodeId, g: GroupId, keyset: KeysetId, reused: Option<KeysetId>,
                           env: Env): Provisioning {
    match BindOnDevice(w, n, g, keyset, env)
    case None => Provisioning(w, CallFailed, reused)
    case Some(w') => Provisioning(w', Done, reused)
  }

  /* ---- ACL ---- */

  function EnsureAcl(w: World, n: NodeId, g: GroupId, env: Env): (w': World)
    ensures OnlyDevices(w, w')
  {
    if !Reach(w, n, AclRead, env) then w
    else
      var acl := if env.noAttributes then [] else w.devices[n].acl;
      if HasGroup(acl, g) || !Effective(w, n, AclWrite, env) then w
      else PutDevice(w, n, w.devices[n].(acl := EnsureGroup(acl, g)))
  }

  function RemoveAcl(w: World, n: NodeId, g: GroupId, env: Env): (w': World)
    ensures OnlyDevices(w, w')
  {
    if !Reach(w, n, AclRead, env) || env.noAttributes || !Effective(w, n, AclWrite, env) then w
    else PutDevice(w, n, w.devices[n].(acl := RemoveGroup(w.devices[n].acl, g)))
  }

  function RemoveAllAcl(w: World, n: NodeId, env: Env): (w': World)
    ensures OnlyDevices(w, w')
  {
    if !Reach(w, n, AclRead, env) || env.noAttributes || !Effective(w, n, AclWrite, env) then w
    else PutDevice(w, n, w.devices[n].(acl := RemoveAllGroups(w.devices[n].acl)))
  }

  /* ---- group_add ---- */

  function TableOf(d: Device, ep: Endpoint): GroupTable {
    if ep in d.tables then d.tables[ep] else GroupTable([], 0)
  }

  function PutTable(w: World, n: NodeId, ep: Endpoint, t: GroupTable): World
    requires n in w.devices
  {
    PutDevice(w, n, w.devices[n].(tables := w.devices[n].tables[ep := t]))
  }

  // Step 2 and 3: a key for a group not seen before.
  function WithGroupKey(w: World, g: GroupId, env: Env): World {
    if g in w.store then w
    else
      var sk := StoredKey(KeysetFor(g), env.freshKey);
      PutKey(InjectKeys(w, g, sk, env.first), g, sk)
  }

  // Step 4: when the table is reported full, the oldest group makes room.
  function MakeRoom(w: World, n: NodeId, ep: Endpoint, g: GroupId, env: Env): (r: Result)
    ensures OnlyDevices(w, r.world)
  {
    if !Reach(w, n, MembershipGet, env) then Result(w, CallFailed)
    else
      var t := TableOf(w.devices[n], ep);
      if g in t.members || !env.capacityKnown || |t.members| < t.capacity then Result(w, Done)
      else if t.members == [] then Result(w, Invalid)
      else if !Reach(w, n, OldestEvict, env) then Result(w, CallFailed)
      else if OldestEvict in env.refused then Result(w, Done)
      else Result(PutTable(w, n, ep, DropMembers(t, {t.members[0]})), Done)
  }

  // Steps 6 to 8.
  function JoinGroup(w: World, n: NodeId, ep: Endpoint, g: GroupId, env: Env): Result {
    if !Reach(w, n, MemberAdd, env) then Result(w, CallFailed)
    else
      var w1 := if MemberAdd in env.refused then w else PutTable(w, n, ep, AddMember(TableOf(w.devices[n], ep), g));
      var w2 := EnsureAcl(w1, n, g, env);
      Result(PutProvisioned(w2, g, ProvisionedOf(w2, g) + {n}), Done)
  }

  predicate SupportsGroups(w: World, n: NodeId, ep: Endpoint, env: Env) {
    Reach(w, n, ServerListRead, env) && ep in w.devices[n].tables
  }

  // Steps 1 to 4.
  function Prepare(w: World, n: NodeId, ep: Endpoint, g: GroupId, env: Env): Result {
    if !SupportsGroups(w, n, ep, env) then Result(w, Invalid)
    else MakeRoom(WithGroupKey(w, g, env), n, ep, g, env)
  }

  // Step 5, once the first four are done.
  ghost function ProvisionAfter(prepared: World, n: NodeId, g: GroupId, env: Env, winner: GroupId): Provisioning
    requires g in prepared.store
  {
    Provision(prepared, n, g, prepared.store[g], env, winner)
  }

  // A provisioning that raised an SDK error is logged and forgotten; only InvalidArguments gets out.
  ghost function AddToGroup(w: World, n: NodeId, ep: Endpoint, g: GroupId, env: Env, winner: GroupId): Result {
    var prepared := Prepare(w, n, ep, g, env);
    if prepared.outcome != Done then prepared
    else
      var p := ProvisionAfter(prepared.world, n, g, env, winner);
      if p.outcome == Invalid then Result(p.world, Invalid)
      else JoinGroup(p.world, n, ep, g, env)
  }

  /* ---- group_remove, group_remove_all ---- */

  function Dropped(w: World, n: NodeId, ep: Endpoint, groups: set<GroupId>, env: Env): set<GroupId> {
    set g | g in groups && Effective(w, n, MemberRemove(g, ep), env)
  }

  // RemoveGroup of each group on each endpoint of PartsList; failures are ignored.
  function RemoveMembers(w: World, n: NodeId, groups: set<GroupId>, env: Env): (w': World)
    ensures OnlyDevices(w, w')
  {
    if !Reach(w, n, PartsRead, env) then w
    else
      var d := w.devices[n];
      PutDevice(w, n, d.(tables := map ep | ep in d.tables ::
        if ep in d.parts then DropMembers(d.tables[ep], Dropped(w, n, ep, groups, env)) else d.tables[ep]))
  }

  function StripKeyMap(w: World, n: NodeId, groups: set<GroupId>, env: Env): (stripped: Option<World>)
    ensures stripped.Some? ==> OnlyDevices(w, stripped.value)
  {
    if !Reach(w, n, KeyMapWrite, env) then None
    else if KeyMapWrite in env.refused then Some(w)
    else Some(PutDevice(w, n, w.devices[n].(keyMap := Without(ReadKeyMap(w, n, 0, env), groups))))
  }

  function LeftProvisioned(w: World, n: NodeId, g: GroupId): set<NodeId> {
    ProvisionedOf(w, g) - {n}
  }

  // The groups of `hit` that are left without nodes, if they are to lose their key.
  function Purged(w: World, n: NodeId, hit: set<GroupId>, purge: bool): (purged: set<GroupId>)
    ensures purged <= hit && (!purge ==> purged == {})
  {
    set g | g in hit && purge && LeftProvisioned(w, n, g) == {}
  }

  // Forget node n for the groups `hit`; with `purge`, a group left without nodes loses its stored key,
  // and its stored node list is not rewritten.
  function Forget(w: World, n: NodeId, hit: set<GroupId>, purge: bool): (w': World)
    ensures w'.devices == w.devices && w'.tracker == w.tracker && w'.kvs == w.kvs
  {
    var purged := Purged(w, n, hit, purge);
    w.(provisioned := map g | g in w.provisioned :: if g in hit then w.provisioned[g] - {n} else w.provisioned[g],
       store := w.store - purged,
       saved := SavedAfterForget(w, n, purged, hit - purged))
  }

  function SavedAfterForget(w: World, n: NodeId, purged: set<GroupId>, kept: set<GroupId>): Storage.Data {
    map c | c in w.saved.Keys + NodesCells(kept) && !(c.key.GroupKeys? && c.subkey.Some? && c.subkey.value in purged) ::
      if c in NodesCells(kept) then Storage.Ids(LeftProvisioned(w, n, c.subkey.value)) else w.saved[c]
  }

  function GroupsOfNode(w: World, n: NodeId): set<GroupId> {
    set g | g in w.provisioned && n in w.provisioned[g]
  }

  function RemoveFromGroup(w: World, n: NodeId, g: GroupId, env: Env): Result {
    var w1 := RemoveMembers(w, n, {g}, env);
    match StripKeyMap(w1, n, {g}, env)
    case None => Result(w1, CallFailed)
    case Some(w2) =>
      var w3 := RemoveAcl(Cleanup(w2, n, env).0, n, g, env);
      Result(Forget(w3, n, GroupsOfNode(w3, n) * {g}, false), Done)
  }

  function ListedGroups(w: World, n: NodeId, ep: Endpoint, env: Env): set<GroupId> {
    if Reach(w, n, MembershipGet, env) then set g | g in TableOf(w.devices[n], ep).members else {}
  }

  function RemoveFromAllGroups(w: World, n: NodeId, ep: Endpoint, env: Env): Result {
    var groups := ListedGroups(w, n, ep, env);
    if groups == {} then FinishRemoveAll(w, n, env)
    else
      var w1 := RemoveMembers(w, n, groups, env);
      match StripKeyMap(w1, n, groups, env)
      case None => Result(w1, CallFailed)
      case Some(w2) => FinishRemoveAll(w2, n, env)
  }

  function FinishRemoveAll(w: World, n: NodeId, env: Env): Result {
    var w1 := RemoveAllAcl(Cleanup(w, n, env).0, n, env);
    Result(Forget(w1, n, GroupsOfNode(w1, n), false), Done)
  }

  /* ---- group_add_key_set, group_bind_key_set, group_key_set_remove, group_reset_node ---- */

  // The command of that name: any keyset, any key.
  function AddKeysetTo(w: World, n: NodeId, keyset: KeysetId, key: Key, env: Env): Result {
    var (w', status) := AddKeyset(w, n, keyset, key, 0, env);
    Result(w', if status == Written then Done else CallFailed)
  }

  // Any group, any keyset, whether or not it is installed; an unanswered read ends the command.
  function BindKeyset(w: World, n: NodeId, g: GroupId, keyset: KeysetId, env: Env): (r: Result)
    ensures OnlyDevices(w, r.world)
  {
    if !Reach(w, n, KeyMapRead(0), env) then Result(w, CallFailed)
    else if env.noAttributes then Result(w, Done)
    else if !Reach(w, n, KeyMapWrite, env) then Result(w, CallFailed)
    else if KeyMapWrite in env.refused then Result(w, Done)
    else Result(PutDevice(w, n, w.devices[n].(keyMap := Bind(w.devices[n].keyMap, g, keyset))), Done)
  }

  function GroupsWithKeyset(w: World, keyset: KeysetId): set<GroupId> {
    set g | g in w.store && w.store[g].keyset == keyset
  }

  // The device lets the keyset go.
  predicate KeysetGoes(w: World, n: NodeId, keyset: KeysetId, env: Env) {
    keyset != IPK && Reach(w, n, KeysetRemove(keyset), env) && keyset in w.devices[n].keysets
  }

  function RemoveKeyset(w: World, n: NodeId, keyset: KeysetId, env: Env): Result {
    if keyset == IPK then Result(w, Invalid)
    else if !Reach(w, n, KeysetRemove(keyset), env) || keyset !in w.devices[n].keysets then Result(w, CallFailed)
    else
      var w1 := RemoveTracked(w, n, {keyset});
      Result(Forget(w1, n, GroupsWithKeyset(w1, keyset), true), Done)
  }

  function ResetTargets(w: World, n: NodeId): set<KeysetId> {
    (TrackerOf(w, n) + (set g | g in w.store && n in ProvisionedOf(w, g) :: w.store[g].keyset)) - {IPK}
  }

  function DropTracker(w: World, n: NodeId): World {
    if n in w.tracker then w.(tracker := w.tracker - {n}, saved := w.saved - {TrackerCell(n)}) else w
  }

  // Step 1: targeted and brute-force KeySetRemove, then an empty GroupKeyMap; failures are ignored.
  function WipeKeys(w: World, n: NodeId, env: Env): (w': World)
    ensures OnlyDevices(w, w')
  {
    if n !in w.devices then w
    else
      var gone := RemovableOf(w, n, ResetTargets(w, n) + BruteForceRange(), env);
      var d := RemoveKeysets(w.devices[n], gone);
      PutDevice(w, n, if KeyMapWrite in env.down || KeyMapWrite in env.refused then d else d.(keyMap := []))
  }

  function ResetNode(w: World, n: NodeId, env: Env): Result {
    var w1 := DropTracker(RemoveAllAcl(WipeKeys(w, n, env), n, env), n);
    Result(Forget(w1, n, GroupsOfNode(w1, n), true), Done)
  }

  /* ---- group_send_command ---- */

  function Refreshed(w: World, nodes: set<NodeId>, keyset: KeysetId, key: Key, env: Env): set<NodeId> {
    set n | n in nodes && Reach(w, n, KeysetWrite(n, 0), env) && WriteKeyset(w.devices[n], keyset, key).Some?
  }

  // KeySetWrite to every node of the set; failures are ignored.
  function EnsureKeysets(w: World, nodes: set<NodeId>, sk: StoredKey, env: Env): World {
    RefreshAll(w, Refreshed(w, nodes, sk.keyset, sk.key, env), sk)
  }

  function RefreshAll(w: World, hit: set<NodeId>, sk: StoredKey): World {
    w.(devices := RefreshedDevices(w.devices, hit, sk), tracker := RefreshedTracker(w, hit, sk),
      saved := RefreshedSaved(w, hit, sk))
  }

  function RefreshedDevices(devices: map<NodeId, Device>, hit: set<NodeId>, sk: StoredKey): map<NodeId, Device> {
    map n | n in devices :: if n in hit then Overwrite(devices[n], sk.keyset, sk.key) else devices[n]
  }

  function RefreshedTracker(w: World, hit: set<NodeId>, sk: StoredKey): map<NodeId, set<KeysetId>> {
    w.tracker + (map n | n in hit :: TrackerOf(w, n) + {sk.keyset})
  }

  function RefreshedSaved(w: World, hit: set<NodeId>, sk: StoredKey): Storage.Data {
    w.saved + (map c | c in TrackerCells(hit) :: Storage.Ids(TrackerOf(w, c.subkey.value) + {sk.keyset}))
  }

  function SendToGroup(w: World, g: GroupId, env: Env): Result {
    var w1 := if g in w.store then EnsureKeysets(w, ProvisionedOf(w, g), w.store[g], env) else w;
    match env.sending
    case Sent => Result(w1, Done)
    case SendFailed => Result(w1, CallFailed)
    case KeyMissing =>
      if g in w1.store then Result(InjectKeys(w1, g, w1.store[g], env.first), if env.resent then Done else CallFailed)
      else Result(w1, Invalid)
  }

  /* ---- Runs ---- */

  datatype Command =
    | Add(node: NodeId, endpoint: Endpoint, group: GroupId, env: Env, winner: GroupId)
    | Remove(node: NodeId, group: GroupId, env: Env)
    | RemoveAll(node: NodeId, endpoint: Endpoint, env: Env)
    | KeysetAddition(node: NodeId, keyset: KeysetId, key: Key, env: Env)
    | KeysetBinding(node: NodeId, group: GroupId, keyset: KeysetId, env: Env)
    | KeysetRemoval(node: NodeId, keyset: KeysetId, env: Env)
    | Reset(node: NodeId, env: Env)
    | Send(group: GroupId, env: Env)

  ghost function Execute(w: World, c: Command): Result {
    match c
    case Add(n, ep, g, env, winner) => AddToGroup(w, n, ep, g, env, winner)
    case Remove(n, g, env) => RemoveFromGroup(w, n, g, env)
    case RemoveAll(n, ep, env) => RemoveFromAllGroups(w, n, ep, env)
    case KeysetAddition(n, keyset, key, env) => AddKeysetTo(w, n, keyset, key, env)
    case KeysetBinding(n, g, keyset, env) => BindKeyset(w, n, g, keyset, env)
    case KeysetRemoval(n, keyset, env) => RemoveKeyset(w, n, keyset, env)
    case Reset(n, env) => ResetNode(w, n, env)
    case Send(g, env) => SendToGroup(w, g, env)
  }

  ghost function Run(w: World, cs: seq<Command>): World
    decreases cs
  {
    if cs == [] then w else Run(Execute(w, cs[0]).world, cs[1..])
  }
}
