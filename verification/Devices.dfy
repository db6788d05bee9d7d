/** A commissioned device as the group commands see it: its keyset table, GroupKeyMap, group tables
    and access control list. A command the device answers with an error changes nothing. */
module Devices {
  import opened Wrappers
  import opened KeyChain

  type NodeId = nat
  type Endpoint = nat
  type GroupId = nat
  type KeysetId = nat

  datatype KeyMapEntry = KeyMapEntry(group: GroupId, keyset: KeysetId)
  datatype AuthMode = Pase | Case | Group
  datatype AclEntry = AclEntry(privilege: nat, auth: AuthMode, subjects: seq<nat>, targets: seq<nat>)
  datatype GroupTable = GroupTable(members: seq<GroupId>, capacity: nat)

  // `parts` is Descriptor.PartsList; `foreign` lists keysets that were last written by somebody else.
  datatype Device = Device(keysets: map<KeysetId, Key>, keysetCapacity: nat, keyMap: seq<KeyMapEntry>,
                           tables: map<Endpoint, GroupTable>, parts: set<Endpoint>, acl: seq<AclEntry>,
                           foreign: set<KeysetId>)

  const IPK: KeysetId := 0
  const OPERATE: nat := 3

  /* ---- Keysets ---- */

  // KeySetWrite overwrites in place; a new keyset needs a free slot, else ResourceExhausted (None).
  function WriteKeyset(d: Device, keyset: KeysetId, key: Key): Option<Device> {
    if keyset in d.keysets || |d.keysets| < d.keysetCapacity
    then Some(Overwrite(d, keyset, key))
    else None
  }

  // The keyset is this controller's own from now on.
  function Overwrite(d: Device, keyset: KeysetId, key: Key): Device {
    d.(keysets := d.keysets[keyset := key], foreign := d.foreign - {keyset})
  }

  function RemoveKeysets(d: Device, gone: set<KeysetId>): Device {
    d.(keysets := d.keysets - gone)
  }

  /* ---- GroupKeyMap ---- */

  function Without(entries: seq<KeyMapEntry>, groups: set<GroupId>): (rest: seq<KeyMapEntry>)
    ensures forall e :: e in rest <==> e in entries && e.group !in groups
  {
    if entries == [] then []
    else
      var rest := Without(entries[1..], groups);
      if entries[0].group in groups then rest else [entries[0]] + rest
  }

  // The entries of one group, in order.
  function EntriesOf(entries: seq<KeyMapEntry>, group: GroupId): (own: seq<KeyMapEntry>)
    ensures forall e :: e in own <==> e in entries && e.group == group
  {
    if entries == [] then []
    else
      var own := EntriesOf(entries[1..], group);
      if entries[0].group == group then [entries[0]] + own else own
  }

  function Bind(entries: seq<KeyMapEntry>, group: GroupId, keyset: KeysetId): seq<KeyMapEntry> {
    Without(entries, {group}) + [KeyMapEntry(group, keyset)]
  }

  function Referenced(entries: seq<KeyMapEntry>): set<KeysetId> {
    set e | e in entries :: e.keyset
  }

  ghost predicate MapsTo(d: Device, group: GroupId, keyset: KeysetId) {
    EntriesOf(d.keyMap, group) == [KeyMapEntry(group, keyset)]
  }

  // Every GroupKeyMap entry names an installed keyset.
  ghost predicate MappedInstalled(d: Device) {
    forall e :: e in d.keyMap ==> e.keyset in d.keysets
  }

  lemma {:induction false} EntriesOfWithout(entries: seq<KeyMapEntry>, groups: set<GroupId>, group: GroupId)
    ensures EntriesOf(Without(entries, groups), group) == if group in groups then [] else EntriesOf(entries, group)
  {
    if entries != [] {
      EntriesOfWithout(entries[1..], groups, group);
      var rest := Without(entries[1..], groups);
      assert ([entries[0]] + rest)[1..] == rest;
    }
  }

  lemma {:induction false} EntriesOfAppend(entries: seq<KeyMapEntry>, e: KeyMapEntry, group: GroupId)
    ensures EntriesOf(entries + [e], group) == EntriesOf(entries, group) + if e.group == group then [e] else []
  {
    if entries != [] {
      EntriesOfAppend(entries[1..], e, group);
      assert (entries + [e])[1..] == entries[1..] + [e];
    } else {
      assert entries + [e] == [e];
    }
  }

  /** Binding leaves exactly one entry for the group and every other group's entries in order. */
  lemma BindEntries(entries: seq<KeyMapEntry>, group: GroupId, keyset: KeysetId, other: GroupId)
    ensures EntriesOf(Bind(entries, group, keyset), other) ==
      if other == group then [KeyMapEntry(group, keyset)] else EntriesOf(entries, other)
  {
    EntriesOfWithout(entries, {group}, other);
    EntriesOfAppend(Without(entries, {group}), KeyMapEntry(group, keyset), other);
  }

  // The other groups' entries keep their order among themselves.
  lemma {:induction false} WithoutAppend(entries: seq<KeyMapEntry>, e: KeyMapEntry, groups: set<GroupId>)
    ensures Without(entries + [e], groups) == Without(entries, groups) + if e.group in groups then [] else [e]
  {
    if entries != [] {
      WithoutAppend(entries[1..], e, groups);
      assert (entries + [e])[1..] == entries[1..] + [e];
    } else {
      assert entries + [e] == [e];
    }
  }

  lemma {:induction false} WithoutTwice(entries: seq<KeyMapEntry>, groups: set<GroupId>)
    ensures Without(Without(entries, groups), groups) == Without(entries, groups)
  {
    if entries != [] {
      WithoutTwice(entries[1..], groups);
      var rest := Without(entries[1..], groups);
      assert ([entries[0]] + rest)[1..] == rest;
    }
  }

  /* ---- Group tables ---- */

  function Drop(members: seq<GroupId>, gone: set<GroupId>): (rest: seq<GroupId>)
    ensures forall g :: g in rest <==> g in members && g !in gone
  {
    if members == [] then []
    else
      var rest := Drop(members[1..], gone);
      if members[0] in gone then rest else [members[0]] + rest
  }

  function DropMembers(t: GroupTable, gone: set<GroupId>): GroupTable {
    t.(members := Drop(t.members, gone))
  }

  // AddGroup: idempotent for a member; a full table answers with an error status.
  function AddMember(t: GroupTable, group: GroupId): GroupTable {
    if group in t.members || |t.members| >= t.capacity then t else t.(members := t.members + [group])
  }

  ghost predicate NoRepeats(members: seq<GroupId>) {
    forall i, j :: 0 <= i < j < |members| ==> members[i] != members[j]
  }

  lemma {:induction false} DropNone(members: seq<GroupId>, gone: set<GroupId>)
    requires forall g :: g in members ==> g !in gone
    ensures Drop(members, gone) == members
  {
    if members != [] {
      forall g | g in members[1..] ensures g !in gone { assert g in members; }
      DropNone(members[1..], gone);
      assert [members[0]] + members[1..] == members;
    }
  }

  lemma DropOldest(members: seq<GroupId>)
    requires members != [] && NoRepeats(members)
    ensures Drop(members, {members[0]}) == members[1..]
  {
    DropNone(members[1..], {members[0]});
  }

  /* ---- Access control ---- */

  predicate IsGroupEntry(e: AclEntry) {
    e.auth == Group
  }

  predicate GrantsGroup(e: AclEntry, group: GroupId) {
    e.auth == Group && group in e.subjects
  }

  function HasGroup(acl: seq<AclEntry>, group: GroupId): (b: bool)
    ensures b <==> exists e :: e in acl && GrantsGroup(e, group)
  {
    acl != [] && (GrantsGroup(acl[0], group) || HasGroup(acl[1..], group))
  }

  function GroupEntry(group: GroupId): AclEntry {
    AclEntry(OPERATE, Group, [group], [])
  }

  // `_ensure_group_acl_on_node` on the list it read.
  function EnsureGroup(acl: seq<AclEntry>, group: GroupId): seq<AclEntry> {
    if HasGroup(acl, group) then acl else acl + [GroupEntry(group)]
  }

  // `_remove_group_acl_on_node` on the list it read.
  function RemoveGroup(acl: seq<AclEntry>, group: GroupId): seq<AclEntry> {
    if acl == [] then []
    else if GrantsGroup(acl[0], group) then RemoveGroup(acl[1..], group)
    else [acl[0]] + RemoveGroup(acl[1..], group)
  }

  // `_remove_all_group_acl_entries_on_node` on the list it read.
  function RemoveAllGroups(acl: seq<AclEntry>): seq<AclEntry> {
    if acl == [] then []
    else if IsGroupEntry(acl[0]) then RemoveAllGroups(acl[1..])
    else [acl[0]] + RemoveAllGroups(acl[1..])
  }

  ghost predicate SingleSubjects(acl: seq<AclEntry>) {
    forall e :: e in acl && e.auth == Group ==> |e.subjects| == 1
  }

  // The entries that do not concern `group`, in order.
  ghost function OtherEntries(acl: seq<AclEntry>, group: GroupId): seq<AclEntry> {
    if acl == [] then []
    else (if acl[0].auth == Group && acl[0].subjects == [group] then [] else [acl[0]]) + OtherEntries(acl[1..], group)
  }

  /** Ensuring extends the list by at most one entry, makes the group granted, is idempotent and keeps
      the one-subject form. */
  lemma EnsureExtends(acl: seq<AclEntry>, group: GroupId)
    ensures acl <= EnsureGroup(acl, group)
    ensures HasGroup(EnsureGroup(acl, group), group)
    ensures EnsureGroup(EnsureGroup(acl, group), group) == EnsureGroup(acl, group)
    ensures SingleSubjects(acl) ==> SingleSubjects(EnsureGroup(acl, group))
  {
    var acl' := EnsureGroup(acl, group);
    if !HasGroup(acl, group) {
      assert GroupEntry(group) in acl' && GrantsGroup(GroupEntry(group), group);
    }
  }

  // Every entry that grants `group` grants nothing else.
  ghost predicate OwnEntries(acl: seq<AclEntry>, group: GroupId) {
    forall e :: e in acl && GrantsGroup(e, group) ==> e.subjects == [group]
  }

  lemma {:induction false} RemovedEntries(acl: seq<AclEntry>, group: GroupId)
    ensures forall e :: e in RemoveGroup(acl, group) <==> e in acl && !GrantsGroup(e, group)
    ensures |RemoveGroup(acl, group)| <= |OtherEntries(acl, group)|
  {
    if acl != [] { RemovedEntries(acl[1..], group); }
  }

  /** Removing a group keeps exactly the entries that do not concern it, in order, if and only if every
      entry that grants the group grants it alone. */
  lemma {:induction false} RemoveKeepsOthersIff(acl: seq<AclEntry>, group: GroupId)
    ensures RemoveGroup(acl, group) == OtherEntries(acl, group) <==> OwnEntries(acl, group)
  {
    if acl != [] {
      var head, tail := acl[0], acl[1..];
      RemoveKeepsOthersIff(tail, group);
      RemovedEntries(tail, group);
      assert forall e :: e in acl <==> e == head || e in tail;
      assert OwnEntries(acl, group)
        <==> OwnEntries(tail, group) && (GrantsGroup(head, group) ==> head.subjects == [group]);
      if !GrantsGroup(head, group) {
        assert ([head] + RemoveGroup(tail, group))[1..] == RemoveGroup(tail, group);
        assert ([head] + OtherEntries(tail, group))[1..] == OtherEntries(tail, group);
      }
    }
  }

  /** Another group keeps its access if and only if some entry grants it without granting the removed
      group; the removed group loses its own, and one-subject lists stay so. */
  lemma {:induction false} OtherGroupKeptIff(acl: seq<AclEntry>, group: GroupId, other: GroupId)
    ensures HasGroup(RemoveGroup(acl, group), other)
      <==> exists e :: e in acl && GrantsGroup(e, other) && !GrantsGroup(e, group)
    ensures !HasGroup(RemoveGroup(acl, group), group)
    ensures SingleSubjects(acl) ==> SingleSubjects(RemoveGroup(acl, group))
  {
    RemovedEntries(acl, group);
  }

  lemma {:induction false} RemoveAppend(acl: seq<AclEntry>, e: AclEntry, group: GroupId)
    requires !HasGroup(acl, group)
    ensures RemoveGroup(acl + [e], group) == acl + if GrantsGroup(e, group) then [] else [e]
  {
    if acl != [] {
      assert acl[0] in acl;
      RemoveAppend(acl[1..], e, group);
      assert (acl + [e])[1..] == acl[1..] + [e];
      assert [acl[0]] + acl[1..] == acl;
    } else {
      assert acl + [e] == [e];
    }
  }

  /** Ensuring then removing restores a list that did not grant the group. */
  lemma EnsureRemoveRestores(acl: seq<AclEntry>, group: GroupId)
    requires !HasGroup(acl, group)
    ensures RemoveGroup(EnsureGroup(acl, group), group) == acl
  {
    RemoveAppend(acl, GroupEntry(group), group);
  }

  /** So where one entry has both as its subjects, the other group loses its access. */
  lemma SharedEntryIsLost(group: GroupId, other: GroupId)
    requires group != other
    ensures var acl := [AclEntry(OPERATE, Group, [group, other], [])];
      HasGroup(acl, other) && !HasGroup(RemoveGroup(acl, group), other)
  {
    var acl := [AclEntry(OPERATE, Group, [group, other], [])];
    assert acl[0].subjects[1] == other;
    assert GrantsGroup(acl[0], group) by { assert acl[0].subjects[0] == group; }
    assert acl[1..] == [];
  }

  /** Removing all group entries undoes nothing but group grants: it absorbs every single removal, and
      it changes nothing if and only if there is no group entry. */
  lemma {:induction false} RemoveAllAbsorbs(acl: seq<AclEntry>, group: GroupId)
    ensures RemoveAllGroups(RemoveGroup(acl, group)) == RemoveAllGroups(acl)
    ensures |RemoveAllGroups(acl)| <= |acl|
    ensures RemoveAllGroups(acl) == acl <==> forall e :: e in acl ==> !IsGroupEntry(e)
  {
    if acl != [] {
      var head, tail := acl[0], acl[1..];
      RemoveAllAbsorbs(tail, group);
      assert forall e :: e in acl <==> e == head || e in tail;
      var rest := RemoveGroup(tail, group);
      assert ([head] + rest)[1..] == rest;
      assert ([head] + RemoveAllGroups(tail))[1..] == RemoveAllGroups(tail);
    }
  }
}
