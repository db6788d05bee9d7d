# Matter server: verification model

This project models the stateful core of the Matter server and proves what its parts promise about each
other. It is written in Dafny 4.11; `dafny verify dfyconfig.toml` checks everything.

## What is modelled

**Group keys** (`Devices`, `GroupProtocol`, `GroupController`, `ChipController` and the `Group*` proofs).
The controller keeps a key per group, a tracker of keysets per node and the nodes provisioned per group,
each with a stored copy, and drives devices with a bounded keyset table, a GroupKeyMap, bounded group tables
per endpoint and an access control list. `GroupProtocol` gives every command as a function on the whole
state (`World`); `GroupController` runs the commands as the program does, loop by loop and write by write,
and proves that they compute those functions. The theorems are about all runs of these eight commands
(`group_add`, `group_remove`, `group_remove_all`, `group_add_key_set`, `group_bind_key_set`,
`group_key_set_remove`, `group_reset_node`, `send_group_command`), on any number of arbitrary devices, which
may hold keysets, bindings and access control entries of anybody. `GroupEffects` and `GroupAddEffects` tell
what each command leaves on the devices, field by field and after any mix of failures, from the state before
it; `GroupUndo` joins an add and a removal.

**The controller's own key-value storage** (`KeyChain`, `GroupChains`). Two linked lists encoded as
entries, with heads and counts in FabricData, onto which `_inject_controller_group_keys` pushes.
`GroupDelivery` joins it to the devices: what the controller sends to a group, the nodes tracked for it can
decrypt. `GroupRestart` says what a restart of the controller does to that.

**The client mirror** (`Mirror`, `MirrorSync`, `MirrorClient`, `MirrorServer`). The server changes node
objects in place and queues events that refer to them; an event becomes a message only when the event loop
runs its callback. Messages pass a bounded queue and the socket, and the client folds them into its nodes.
`MirrorHistory` tells the server's nodes from the steps alone, `MirrorReceived` the client's from the messages.

**The subscription index** (`Subscriptions`), **attribute paths** (`AttributePath`), **the persistent
storage** (`Storage`: debounced save and crash-ordered file replacement), and **the typed wire parser**
against the JSON encoder (`Wire`, `WireRoundTrip`, `WireExact`, `WireBoundaries`, `WireTypes`, `Base64`), and
structs keyed by TLV tags (`WireTags`).

Where a natural invariant fails on some branch, the code is modelled as it is: a lemma gives the exact
condition under which the invariant holds, and a run or an input shows it failing outside. For the group
commands the conditions are collected per command (`Harmless`, `MapSafe`, `Collides`, `Purges`, `MapServed`)
and look at the state before it only, so that the theorems over runs are equivalences; `GroupBoundaries`
says what they come to, failure by failure, and `GroupRuns` has short runs from a fresh fabric that reach the
failures of each invariant.

## Assumptions

- Handlers run one at a time. The SDK wrapper holds its node lock for a single call, so nothing in the
  program protects a command against another one; atomicity is assumed, not derived.
- A call to the SDK takes effect, raises, or is answered with an error status that the code does not look
  at (an attribute write and a cluster command return their status). `Env.down` and `Env.refused` say
  which calls do what; every theorem is for all environments its `requires` allows.
- A device answers KeySetWrite by overwriting in place (Matter Core Specification, section 11.2.7.1.1) and
  with ResourceExhausted only when its table is full; KeySetRemove does not touch GroupKeyMap, as the
  comment on `group_reset_node` says (`matter_server/server/device_controller.py:2372-2376`).
- Keys are opaque texts. Random keys and map ids, the order in which sets and dictionaries are iterated and
  the entry that `dict(self._group_key_store.values())` keeps are parameters.
- Lists of ids that the program sorts before storing are stored as sets, which they determine.

Five places where the code and its own documentation differ, and the code is followed: the docstring of
`group_reset_node` speaks of ids 1 to 63 only, the code first removes every id it has on record; the
docstring of `_cleanup_unused_keysets_on_node` says brute force tries ids 1 to 31, the code 1 to 63; it also
says that referenced keysets are never removed, but a failed read of GroupKeyMap counts as an empty map (see
`GroupTracker.CleanupSparesIff`); the
docstring of `_provision_group_keys_on_node` names a first read of GroupKeyMap, whose result is used only
after it has been read again; and `group_add` logs a failed provisioning and goes on to record the node as
provisioned (see `GroupBoundaries.FailedProvisioningIsRecorded`).

## Model

| member | source | states |
|---|---|---|
| GroupInvariant.RunKeepsIff | matter_server/server/device_controller.py:1461-2872 | over every run of the eight group commands, on any number of arbitrary devices and whatever fails: every node tracked for a group maps it exactly once, to the stored keyset, and holds the stored key, and shared keyset ids share one key, throughout, if and only if every command of the run is harmless |
| GroupInvariant.RunKeeps | matter_server/server/device_controller.py:1461-2872 | in particular where adds and removals can read and write GroupKeyMap, draws do not collide, a reuse finds the key on the device and leaves no other node behind, and single keysets are written and bound as stored |
| GroupInvariant.ExecuteKeepsIff | matter_server/server/device_controller.py:1461-2872 | each command alone keeps that invariant if and only if it is harmless; group_remove_all, group_key_set_remove, group_reset_node and groupcasts always are |
| GroupInvariant.ProvisionedKeepsIff | matter_server/server/device_controller.py:1945-2076 | provisioning and the steps after it keep the invariant if and only if the final key fits the other groups, a changed keyset id leaves no other node behind, the other groups of the node keep binding and keyset, and the node gets or had binding and key |
| GroupInvariant.AddKeepsIff | matter_server/server/device_controller.py:1461-1566 | so for the whole of group_add, on every path and for every failure |
| GroupInvariant.RemoveKeepsIff | matter_server/server/device_controller.py:2086-2144 | group_remove keeps it if and only if, for every other group of the node, the map was read before it was written back (or the write was refused) and the cleanup spares its keyset |
| GroupInvariant.RemoveAllKeeps | matter_server/server/device_controller.py:2146-2228 | group_remove_all keeps it whatever fails |
| GroupInvariant.RemoveKeysetKeeps | matter_server/server/device_controller.py:2230-2294 | so does group_key_set_remove |
| GroupInvariant.ResetKeeps | matter_server/server/device_controller.py:2296-2432 | so does group_reset_node |
| GroupInvariant.AddKeysetKeepsIff | matter_server/server/device_controller.py:2802-2829 | group_add_key_set keeps it if and only if the key it writes is the one the groups of the node have under that id |
| GroupInvariant.BindKeysetKeepsIff | matter_server/server/device_controller.py:2832-2872 | group_bind_key_set keeps it if and only if it binds the keyset the group has, or the node is not tracked for the group |
| GroupInvariant.SendKeeps | matter_server/server/device_controller.py:2692-2753 | a groupcast, which rewrites keysets on all nodes of the group, keeps it whatever fails |
| GroupInvariant.NobodyTracked | matter_server/server/device_controller.py:215-249 | a controller that tracks nobody satisfies the invariant on any devices |
| GroupBoundaries.ReuseKeepsIff | matter_server/server/device_controller.py:2000-2051 | taking over another group's keyset keeps the invariant if and only if no other node is tracked for the group and the device holds the stored key under it |
| GroupRuns.TwoLampsBreak | matter_server/server/device_controller.py:2000-2051 | three adds on two fresh devices after the third of which the invariant is broken |
| GroupRuns.TwoLampsAmbiguous | matter_server/server/device_controller.py:2411-2417 | two more commands, a reset and an add, after which one keyset id has two keys |
| GroupRuns.LostWriteBreaks | matter_server/server/device_controller.py:1527-1566 | one group_add whose KeySetWrite is lost breaks the invariant on a fresh lamp |
| GroupRuns.FailedReadBreaks | matter_server/server/device_controller.py:2118-2128 | one group_add, then a group_remove of another group whose first map read fails |
| GroupRuns.FailedCleanupReadBreaks | matter_server/server/device_controller.py:2129-2133 | the same with the map read of the cleanup failing |
| GroupRuns.FailedBindReadBreaks | matter_server/server/device_controller.py:2053-2070 | two group_adds on a lamp with room for both, the last map read of the second failing |
| GroupRuns.RemovedKeysetUnmaps | matter_server/server/device_controller.py:2230-2294 | group_add, then group_key_set_remove of the keyset it bound: GroupKeyMap names a keyset that is not there |
| GroupRuns.IncompleteResetForgets | matter_server/server/device_controller.py:2399-2402 | group_add, then a reset that cannot remove the keyset: the tracker forgets a keyset that is still on the device |
| GroupRuns.PurgeThenRestartBreaks | matter_server/server/device_controller.py:2404-2423 | group_add, a reset that purges the group, and a restart: the stored node list is stale, and the lamp is tracked for a group that has no key |
| GroupRuns.RetryClosesList | matter_server/server/device_controller.py:2727-2747 | group_add, then a groupcast with error 0xAC: the storage is well formed after the first and its keyset list cyclic after the second |
| GroupRuns.ReuseClosesList | matter_server/server/device_controller.py:2026-2051 | well formed after two adds; the third takes over a keyset, and the keyset list is cyclic |
| GroupRuns.FirstDelivers | matter_server/server/device_controller.py:1461-1566 | a fresh controller and one group_add meet the assumptions of RunDelivers, and the lamp decrypts what is sent to the group |
| GroupBoundaries.UnboundIsRecordedIff | matter_server/server/device_controller.py:1527-1566 | KeySetWrite or the map write raised, or the map write was refused: the node is recorded all the same, and the invariant holds if and only if it had the binding already, the key is written or held, and a keyset taken over left no other node behind |
| GroupBoundaries.FailedProvisioningIsRecorded | matter_server/server/device_controller.py:1527-1566 | if KeySetWrite never arrived: if and only if the node could decrypt already |
| GroupBoundaries.AddAfterFailedReadIff | matter_server/server/device_controller.py:2053-2070 | a map that cannot be read before the new binding is written back: the invariant survives if and only if the node is tracked for no other group |
| GroupBoundaries.AddCleanupIff | matter_server/server/device_controller.py:1987-1999 | a cleanup that cannot read the map, in group_add: if and only if no keyset of another group of the node is a candidate that can be removed |
| GroupBoundaries.RemoveAfterFailedReadIff | matter_server/server/device_controller.py:2118-2128 | group_remove after a failed GroupKeyMap read keeps the invariant if and only if the node is tracked for no other group |
| GroupBoundaries.RemoveCleanupIff | matter_server/server/device_controller.py:2129-2133 | where only the cleanup cannot read the map: if and only if no keyset of another group of the node is a candidate that can be removed |
| GroupBoundaries.FullTableReuses | matter_server/server/device_controller.py:1987-2051 | a full table with nothing to clean up leaves reuse, and the group takes over the key of the entry kept for that keyset |
| GroupBoundaries.NothingToReuse | matter_server/server/device_controller.py:2000-2018 | with no keyset to reuse either, provisioning raises InvalidArguments and changes nothing |
| GroupMaps.RunMappedIff | matter_server/server/device_controller.py:1783-1917 | over every run, every GroupKeyMap entry of every device names a keyset installed there, throughout, if and only if no command removes a keyset that the map still names afterwards or binds one that is not installed |
| GroupMaps.ExecuteMappedIff | matter_server/server/device_controller.py:1461-2872 | each command alone, with the condition on the map and the failed reads |
| GroupMaps.ProvisionBinds | matter_server/server/device_controller.py:1945-2070 | if every mapped keyset is installed and the map can be read and written, a normal return leaves exactly one entry for the group, naming its keyset, which is installed, and all other entries in order; any other outcome leaves GroupKeyMap alone; the assumption survives |
| GroupAddEffects.AddEffects | matter_server/server/device_controller.py:1461-1566 | the whole of group_add, whatever fails: it returns normally exactly if it began, found a key for the device and AddGroup arrived; then the endpoint has the group as far as there is room, the access control list grants it (Operate, Group, [group], no targets) unless it did, and the node is recorded; keysets, GroupKeyMap, tracker and store are as provisioning leaves them; no other device changes |
| GroupAddEffects.ProvisionStep | matter_server/server/device_controller.py:1945-2076 | all that provisioning comes to: the key (keyset id group % 0xFFFE + 1 if new) written at once, or after a cleanup, or the least mapped keyset of the store taken over, or nothing but a cleanup; InvalidArguments exactly where there is nothing to take over |
| GroupEffects.RemoveEffects | matter_server/server/device_controller.py:2086-2144 | group_remove returns normally exactly if GroupKeyMap can be written; the group is then gone from every listed endpoint that answers, from GroupKeyMap and from the access control list, the rest is as it was, in order, exactly the orphaned keysets are gone, and the node is not tracked for the group |
| GroupEffects.RemoveAllEffects | matter_server/server/device_controller.py:2146-2228 | the same for the groups found on the reference endpoint, with every Group entry gone from the access control list |
| GroupEffects.KeysetRemovalEffects | matter_server/server/device_controller.py:2230-2294 | refuses keyset 0, fails for an absent one, and otherwise takes it off device and tracker, forgets the node for its groups, and drops the key of exactly those left without nodes |
| GroupEffects.ResetEffects | matter_server/server/device_controller.py:2296-2432 | of the keysets exactly 0 and those remain that are not in the tracker, of a group of the node or 1 to 63, or cannot be removed; GroupKeyMap is empty and no Group entry is left, if they can be written; group tables stay; the tracker has no entry, and groups left without nodes have no key |
| GroupEffects.KeysetAdditionEffects | matter_server/server/device_controller.py:2802-2829 | the key is written and the keyset tracked exactly if the device is reached and has the keyset or a free slot |
| GroupEffects.KeysetBindingEffects | matter_server/server/device_controller.py:2832-2872 | one entry for the group after those of all others, in order |
| GroupEffects.SendRefreshes | matter_server/server/device_controller.py:2717-2722 | before a groupcast every tracked node that takes it holds the group's key again, and its tracker and stored copy have the keyset; no other device, keyset or field changes |
| GroupEffects.SendOutcome | matter_server/server/device_controller.py:2724-2753 | done when it got out, at once or after the injection that error 0xAC leads to; InvalidArguments for a group without a key |
| GroupUndo.RemoveUndoesAdd | matter_server/server/device_controller.py:1461-2144 | where nothing fails, and the device did not speak of the group and had a slot, group_remove restores the group tables, the access control list and GroupKeyMap that group_add changed |
| GroupAddEffects.AddIsFifo | matter_server/server/device_controller.py:1505-1553 | the endpoint's group list stays (member), gains the group (free slot) or loses its oldest entry for it (full); no other endpoint changes |
| GroupAddEffects.FifoFits | matter_server/server/device_controller.py:1505-1531 | that list never exceeds the capacity, has no repetitions and loses at most the oldest entry |
| GroupAddEffects.EnsureAclKeepsIff | matter_server/server/device_controller.py:1581-1632 | the ACL write of a group_add keeps what was there exactly when the read returned attributes, or there was nothing else to keep |
| GroupKeys.KeysetForInjective | matter_server/server/device_controller.py:1491 | for valid group ids the keyset id is neither 0 nor 0xFFFF, and distinct groups get distinct ids |
| GroupKeys.InstallStatus | matter_server/server/device_controller.py:1976-1999 | write, cleanup and second write succeed, or end with a full table, exactly as slots, removable keysets and failing calls say beforehand |
| GroupKeys.SameOutcome | matter_server/server/device_controller.py:1945-2018 | what becomes of the key depends on nothing but the controller's maps and the node's keysets, capacity and GroupKeyMap |
| GroupKeys.RunAgreesIff | matter_server/server/device_controller.py:1489-1503 | over every run, purges and reuse included, each stored keyset id has one key throughout if and only if no draw collides: no new group is given a keyset id that another group has with another key, and keeps it |
| GroupKeys.ExecuteAgreesIff | matter_server/server/device_controller.py:1489-1503 | each command alone: exactly the colliding draw that provisioning does not replace |
| GroupKeys.PrepareAgreesIff | matter_server/server/device_controller.py:1489-1503 | already after the draw: exactly when the drawn keyset id is another group's with another key |
| GroupKeys.AgreesIff | matter_server/server/device_controller.py:2008 | one entry of the store: unambiguous with it if and only if its key fits every other group with its keyset id |
| GroupKeys.RunUnambiguous | matter_server/server/device_controller.py:1489-1503 | over every run of valid groups without a purge, reuse included, each stored keyset id has one key and was drawn for a group still in the store |
| GroupKeys.ExecuteUnambiguous | matter_server/server/device_controller.py:2008-2051 | each command that purges nothing keeps that, whatever fails in it |
| GroupKeys.PurgeThenAddIsAmbiguous | matter_server/server/device_controller.py:2411-2417 | a group whose keyset id another took over, purged and added again, gives that id a second key |
| GroupKeys.ResetPurges | matter_server/server/device_controller.py:2404-2423 | a reset purges the groups the node was alone in, and no group with another node |
| GroupReload.RunNodesSavedIff | matter_server/server/device_controller.py:221-249 | over every run a restart would rebuild the node lists exactly after each command, if and only if no command purges a group whose list names the node |
| GroupReload.RunKeysSaved | matter_server/server/device_controller.py:221-249 | over every run, purges included, it rebuilds the key store and the keyset tracker exactly |
| GroupReload.ExecuteSaved | matter_server/server/device_controller.py:2264-2294 | a command keeps the stored node lists exact if and only if it purges no group whose list names the node |
| GroupReload.ForgetNodesSavedIff | matter_server/server/device_controller.py:2404-2423 | the purge clears the list in memory without rewriting it: exact afterwards if and only if the list did not name the node |
| GroupReload.RestartRebuilds | matter_server/server/device_controller.py:221-249 | a restart rebuilds each of the three maps exactly from an exact copy |
| GroupRestart.RestartKeepsIff | matter_server/server/device_controller.py:239-249 | the device invariant holds after a restart if and only if every node on a stored list can decrypt its group |
| GroupRestart.RestartAfterIff | matter_server/server/device_controller.py:2404-2423 | right after a harmless command: if and only if the command purged no group whose stored list names the node |
| GroupTracker.RunKnownIff | matter_server/server/device_controller.py:1763-1774 | over every run, a keyset on a device is the IPK, somebody else's, or in the tracker, throughout, if and only if every reset removes all keysets of the controller's own from its device |
| GroupTracker.ExecuteKnownIff | matter_server/server/device_controller.py:2802-2829 | each command keeps that, whatever fails in it, except, exactly, a reset that leaves one of the controller's own keysets behind |
| GroupTracker.ResetKnownIff | matter_server/server/device_controller.py:2399-2402 | a reset keeps it exactly when every keyset of the controller's own was removed |
| GroupTracker.CleanupIsSafe | matter_server/server/device_controller.py:1812-1917 | with a working GroupKeyMap read, cleanup removes neither keyset 0 nor a referenced keyset, whichever tier found the candidates |
| GroupTracker.CleanupSparesIff | matter_server/server/device_controller.py:1783-1943 | a referenced keyset survives cleanup if and only if the map could be read, or the keyset is no candidate of the tier in use, or it cannot be removed; a failed read counts as an empty map |
| GroupTracker.CleanupLeavesNoOrphans | matter_server/server/device_controller.py:1783-1917 | where removal fails only for absent ids, no keyset of the controller's own stays unreferenced |
| GroupTracker.RemoveLeavesNoOrphans | matter_server/server/device_controller.py:2118-2133 | so after group_remove |
| GroupTracker.RemoveAllLeavesNoOrphans | matter_server/server/device_controller.py:2193-2211 | so after group_remove_all |
| GroupTracker.ResetLeavesNone | matter_server/server/device_controller.py:2332-2402 | a reset leaves no keyset of the controller's own at all |
| GroupController.MatterDeviceController.Start | matter_server/server/device_controller.py:221-249 | the reload loops make the three maps what the stored cells hold, and leave everything else |
| GroupController.MatterDeviceController.GroupAdd | matter_server/server/device_controller.py:1461-1566 | the command in steps does what the function on the whole state says, which AddEffects tells |
| GroupController.MatterDeviceController.GroupRemove | matter_server/server/device_controller.py:2086-2144 | likewise, see RemoveEffects |
| GroupController.MatterDeviceController.GroupRemoveAll | matter_server/server/device_controller.py:2146-2228 | likewise, see RemoveAllEffects |
| GroupController.MatterDeviceController.GroupKeySetRemove | matter_server/server/device_controller.py:2230-2294 | likewise, purging groups left without nodes, see KeysetRemovalEffects |
| GroupController.MatterDeviceController.GroupResetNode | matter_server/server/device_controller.py:2296-2432 | likewise, see ResetEffects |
| GroupController.MatterDeviceController.SendGroupCommand | matter_server/server/device_controller.py:2692-2753 | likewise: the loop over the provisioned nodes is one simultaneous refresh; error 0xAC injects and sends once more; see SendRefreshes |
| GroupController.MatterDeviceController.GroupAddKeySet | matter_server/server/device_controller.py:2802-2829 | KeySetWrite and, only if it succeeded, the tracker and its copy |
| GroupController.MatterDeviceController.GroupBindKeySet | matter_server/server/device_controller.py:2832-2872 | the binding in steps; a read without attributes ends the command, unlike the map reads of the others |
| GroupController.MatterDeviceController.FindCandidates | matter_server/server/device_controller.py:1812-1870 | the three tiers of cleanup candidates, in this order of preference |
| GroupController.MatterDeviceController.CleanupUnusedKeysets | matter_server/server/device_controller.py:1783-1917 | the removal loop removes exactly the unreferenced candidates the device lets go, counts them, and keeps the tracker in step |
| GroupController.MatterDeviceController.ProvisionGroupKeys | matter_server/server/device_controller.py:1945-2076 | write, cleanup and retry, reuse and binding compute the provisioning function |
| GroupController.MatterDeviceController.KeysetDict | matter_server/server/device_controller.py:2008 | the loop form of dict(values): every keyset of the store once, with the key of one of its entries |
| GroupController.MatterDeviceController.RemapGroup | matter_server/server/device_controller.py:2026-2051 | tracker entry, remapped store, copy and injection |
| GroupController.MatterDeviceController.InjectControllerGroupKeys | matter_server/server/device_controller.py:2538-2644 | the three writes in order, stopping at the first that fails |
| GroupController.MatterDeviceController.EnsureGroupAcl | matter_server/server/device_controller.py:1568-1632 | read, test and append |
| GroupController.MatterDeviceController.RemoveGroupAcl | matter_server/server/device_controller.py:1636-1681 | the filter, written back only if it removed something |
| GroupController.MatterDeviceController.RemoveAllGroupAcl | matter_server/server/device_controller.py:1683-1722 | likewise for all groups |
| GroupController.MatterDeviceController.RemoveMemberships | matter_server/server/device_controller.py:2179-2191 | the nested loops over groups and endpoints drop each group from each listed endpoint that answers |
| GroupController.MatterDeviceController.ForgetNode | matter_server/server/device_controller.py:2270-2294 | the loop over groups forgets the node for all of them and purges those left empty |
| GroupController.MatterDeviceController.RemoveAllKeys | matter_server/server/device_controller.py:2332-2392 | targeted removal, the rest of the brute-force range, an empty GroupKeyMap |
| GroupController.DropTwice | matter_server/server/device_controller.py:2179-2191 | dropping groups one after the other is dropping them all |
| ChipController.ChipDeviceController.KeySetWrite | matter_server/server/device_controller.py:2802-2829 | overwrites in place, takes a free slot, or reports ResourceExhausted |
| ChipController.ChipDeviceController.KeySetRemove | matter_server/server/device_controller.py:2253-2258 | removes an installed keyset, raises for an absent one |
| Devices.BindEntries | matter_server/server/device_controller.py:2055-2065 | binding leaves exactly one entry for the group and every other group's entries in order |
| Devices.EntriesOfWithout | matter_server/server/device_controller.py:2118-2128 | stripping groups keeps the entries of all others in order |
| Devices.EnsureExtends | matter_server/server/device_controller.py:1597-1623 | ensuring a grant extends the list, is idempotent and keeps the one-subject form |
| Devices.RemoveKeepsOthersIff | matter_server/server/device_controller.py:1655-1671 | removing a group keeps exactly the entries that do not concern it, in order, if and only if every entry granting it grants it alone |
| Devices.OtherGroupKeptIff | matter_server/server/device_controller.py:1655-1671 | another group keeps its access if and only if some entry grants it without granting the removed one |
| Devices.EnsureRemoveRestores | matter_server/server/device_controller.py:1581-1671 | ensure then remove restores a list that did not grant the group |
| Devices.SharedEntryIsLost | matter_server/server/device_controller.py:1655-1663 | an entry with two subjects goes whole, and the other group with it |
| Devices.RemoveAllAbsorbs | matter_server/server/device_controller.py:1683-1722 | removing all grants absorbs every single removal and changes nothing if and only if there is no group entry |
| Devices.DropOldest | matter_server/server/device_controller.py:1510-1525 | evicting the first entry of a list without repetitions leaves its tail |
| Minimum.Min | matter_server/server/device_controller.py:2021 | the least element of a nonempty set |
| KeyChain.InjectFresh | matter_server/server/device_controller.py:2588-2634 | fresh ids: one node is prepended to each chain, the group resolves to its keyset and key, no other resolution or reachable entry changes |
| KeyChain.InjectFailsSafe | matter_server/server/device_controller.py:2593-2641 | FabricData is written last: any failing prefix leaves both chains, every reachable entry and every resolution as they were |
| KeyChain.InjectWellFormedIff | matter_server/server/device_controller.py:2588-2634 | a complete injection keeps both lists acyclic with matching counts exactly when both ids are fresh |
| KeyChain.ApplyWellFormedIff | matter_server/server/device_controller.py:2588-2641 | with any number of writes: well formed afterwards if and only if it was before and the ids written are fresh; a cycle is never mended |
| KeyChain.ApplyResolves | matter_server/server/device_controller.py:2588-2641 | the map list alone: an injection with a fresh map id keeps it, and the search answers the injected keyset for the group if the injection is complete, and what it answered before otherwise |
| KeyChain.ApplyAllKeeps | matter_server/server/device_controller.py:2586-2641 | injections leave the groups and the next fabric of FabricData, and every entry under another id, as they were |
| KeyChain.RepushCloses | matter_server/server/device_controller.py:2608 | pushing an entry already on its chain closes a cycle that never reaches the end |
| KeyChain.ChainUnique | matter_server/server/device_controller.py:2576-2579 | a head determines its chain |
| KeyChain.ChainHeadOnce | matter_server/server/device_controller.py:2576-2579 | a chain that reaches its end visits no entry twice |
| GroupChains.RunWellFormedIff | matter_server/server/device_controller.py:2538-2644 | over every run, with purges, reuse, repeated injections and failing writes: both lists are acyclic with matching counts at the end if and only if they were at the start and every injection was of a keyset and a map id not on the lists |
| GroupChains.RunKeepsRest | matter_server/server/device_controller.py:2586-2641 | so over every run of the group commands |
| GroupChains.RunServes | matter_server/server/device_controller.py:1489-1503 | over every run that injects new valid groups only and purges nothing, the keyset ids are fresh by themselves, so both lists stay sound and every stored group resolves to its stored keyset and key |
| GroupDelivery.RunResolvesIff | matter_server/server/device_controller.py:2538-2644 | over every run, purges, reuse and repeated injections included: a head-first search of the map list finds every stored group's keyset, throughout, if and only if map ids are fresh and each group's last complete injection is of its stored entry |
| GroupDelivery.ExecuteResolvesIff | matter_server/server/device_controller.py:2538-2644 | each command alone |
| GroupDelivery.TrackedDecryptGroupcasts | matter_server/server/device_controller.py:2692-2725 | a node tracked for a group maps it to the keyset that the controller's storage resolves it to, and holds the controller's key under it |
| GroupDelivery.RunDelivers | matter_server/server/device_controller.py:1461-2872 | so throughout every run of harmless commands whose injections write fresh map ids, their own key and the group's final entry |
| GroupDelivery.NothingToDeliver | matter_server/server/device_controller.py:215-249 | a controller without keys and with an empty storage is such a start |
| GroupChains.NewGroupServed | matter_server/server/device_controller.py:1489-1503 | a group's first add keeps the lists sound and makes the group resolve |
| GroupChains.ReinjectionCloses | matter_server/server/device_controller.py:2049-2051 | reuse, or the retry after error 0xAC, injects a keyset already on its chain and breaks the list |
| GroupChains.ReaddCloses | matter_server/server/device_controller.py:1489-1503 | so does adding a purged group whose keyset is still on the chain |
| MirrorSync.RunSynced | matter_server/server/device_controller.py:1139-1147 | over every run and interleaving, the client meets no event for an unknown node, and what is on its way makes a listening client agree with the server |
| MirrorSync.QuietAgrees | matter_server/client/client.py:620-747 | with nothing on its way, the client has exactly the server's nodes and availability, and every known attribute value the server holds |
| MirrorSync.NextSynced | matter_server/server/client_handler.py:175-184 | every step of the device controller, the event loop, the writer and the reader keeps that |
| MirrorSync.AttributeSyncedIff | matter_server/client/models/node.py:359-365 | an attribute change keeps the client in step exactly when the client will know the endpoint by then; it will if the server stored the endpoint |
| MirrorSync.NewEndpointSyncedIff | matter_server/client/models/node.py:359-365 | with nothing queued: exactly when the client has the endpoint |
| MirrorSync.FirstAttributeIsMissed | matter_server/client/models/node.py:359-365 | a run: the first attribute of a node that had none |
| MirrorSync.QuietExactIff | matter_server/client/client.py:620-747 | with nothing on its way, the client has exactly what a client connecting now would get if and only if it has no endpoint and no value the server has dropped |
| MirrorSync.UpdateExactIff | matter_server/client/models/node.py:320-340 | a snapshot gives what a client without a past would build if and only if the client had nothing the snapshot does not report |
| MirrorSync.InterviewExactIff | matter_server/server/device_controller.py:1119-1147 | a new interview, once received, gives exactly the new data under the same condition |
| MirrorSync.ClientKeepsOldValues | matter_server/client/models/node.py:320-340 | containment is not equality: an interview without an attribute leaves its value on the client |
| MirrorSync.UpdateReflects | matter_server/client/models/node.py:320-340 | a snapshot brings any mirror up to date |
| MirrorSync.EndpointSynced | matter_server/server/device_controller.py:3487-3501 | removing an endpoint keeps the client in step, queued snapshots included |
| MirrorSync.RemovalSynced | matter_server/server/device_controller.py:1325-1349 | so does removing a node |
| MirrorSync.StartSynced | matter_server/server/client_handler.py:175-184 | the dump and the subscription start in step |
| MirrorSync.CloseSynced | matter_server/server/client_handler.py:229-253 | a full queue ends the connection; what was written can still be applied |
| MirrorHistory.RunTells | matter_server/server/device_controller.py:1119-1147 | over every run the server's nodes are those the list of steps tells: there from interview or import to removal, available as the last subscription, resubscription, loss or import says, through any interviews, and with the values last read or reported on endpoints not removed since |
| MirrorHistory.QuietTells | matter_server/client/client.py:620-747 | with nothing on its way after an orderly run, this is what the client shows |
| MirrorHistory.RunAnnounces | matter_server/server/device_controller.py:3299-3310 | each step of the controller queues one event for a listening client, or none, as what happened before decides: a loss or a return is told once |
| MirrorReceived.FoldShows | matter_server/client/client.py:695-747 | the client's nodes, availability, endpoints and values are those the messages tell; removed endpoints are gone with their values; receiving fails exactly on an attribute of a node the client does not have then |
| Mirror.PendingAlike | matter_server/server/server.py:350-358 | changing one live object inside a scope changes what its queued events will tell the client inside that scope only |
| Mirror.FoldFirst | matter_server/client/client.py:644-647 | receiving one message and folding the rest is folding all |
| MirrorServer.DeviceController.InterviewNode | matter_server/server/device_controller.py:1119-1147 | a new object replaces the old one, keeps its availability (see MirrorHistory.RunTells), is a bridge exactly if endpoint 1 lists device type 14, and is announced |
| MirrorServer.DeviceController.AnnounceNode | matter_server/server/device_controller.py:1152-1160 | for a test node, the stored object is announced as it is |
| MirrorServer.DeviceController.NodeSubscribed | matter_server/server/device_controller.py:3355-3369 | the live object becomes available, gains the read attributes, and is announced |
| MirrorServer.DeviceController.NodeUnavailable | matter_server/server/device_controller.py:3672-3681 | announced only if it was available |
| MirrorServer.DeviceController.ResubscriptionSucceeded | matter_server/server/device_controller.py:3299-3310 | announced only if it was not |
| MirrorServer.DeviceController.AttributeUpdatedCallback | matter_server/server/device_controller.py:3154-3203 | a bridge's PartsList is followed, one removal step per endpoint gone and a task for those added, and not stored; any other value is stored, announced and handed to each callback registered for the node, in order, and a changed software version schedules an interview |
| MirrorServer.DeviceController.HandleEndpointsRemoved | matter_server/server/device_controller.py:3487-3501 | one removal step per endpoint, each exactly once, in some order |
| MirrorServer.EndpointsSynced | matter_server/server/device_controller.py:3487-3501 | in whatever order, the client stays in step |
| MirrorServer.DeviceController.RemoveNode | matter_server/server/device_controller.py:1341-1349 | the node leaves the dictionary and the removal is queued |
| MirrorServer.DeviceController.HandleStartListening | matter_server/server/client_handler.py:175-184 | a dump of all nodes, then the subscription |
| MirrorServer.DeviceController.RunNextCallback | matter_server/server/server.py:350-358 | the object is turned into a message when the callback runs, as it is then |
| MirrorServer.DeviceController.WriteNext | matter_server/server/client_handler.py:215-227 | messages leave in the order they were queued |
| MirrorServer.ClientConnection.SendMessage | matter_server/server/client_handler.py:229-253 | queued, or the connection ends when the queue is full |
| MirrorClient.MatterNode.Update | matter_server/client/models/node.py:320-340 | sorting by endpoint and updating each merges the snapshot and deletes nothing |
| MirrorClient.MatterNode.UpdateEndpoint | matter_server/client/models/node.py:219-223 | the loop sets exactly the known attributes |
| MirrorClient.MatterNode.SetAttributeValue | matter_server/client/models/node.py:180-217 | unknown attributes are ignored |
| MirrorClient.MatterNode.UpdateAttribute | matter_server/client/models/node.py:359-365 | unknown endpoints are ignored |
| MirrorClient.MatterClient.HandleEventMessage | matter_server/client/client.py:695-747 | the branch per event; a KeyError exactly for an attribute of an unknown node, with nothing changed |
| MirrorClient.MatterClient.StartListening | matter_server/client/client.py:634-638 | the dump replaces whatever nodes there were |
| Subscriptions.IndexRefinesScan | matter_server/client/client.py:98-122 | for every history and every event whose path is not the wildcard, the callbacks run are exactly the live registrations that match, each once |
| Subscriptions.WildcardPathRunsTwice | matter_server/client/client.py:770-789 | an event with path "*" runs each of them twice, so it is right exactly when nothing matches |
| Subscriptions.IndexHoldsLive | matter_server/client/client.py:98-122 | the list under a filter's key is the live registrations with that filter, in order |
| Subscriptions.KeyInjective | matter_server/client/client.py:115 | two filters share a key exactly when they mean the same, although paths contain separators |
| Subscriptions.LookupsMatch | matter_server/client/client.py:780-789 | the keys looked up are the matching filters, each once |
| Subscriptions.EventSubscriptions.SubscribeEvents | matter_server/client/client.py:80-117 | files the callback under its key |
| Subscriptions.EventSubscriptions.Unsubscribe | matter_server/client/client.py:119-122 | removes the first equal callback, ValueError if there is none |
| Subscriptions.EventSubscriptions.SignalEvent | matter_server/client/client.py:770-789 | the nested loops run the lists of all matching keys in order |
| AttributePath.PathRoundTrip | matter_server/common/helpers/util.py:56-76 | parsing a created path gives the three components back, wildcards included |
| AttributePath.PathInjective | matter_server/common/helpers/util.py:56-65 | distinct triples have distinct paths |
| AttributePath.PathText | matter_server/common/helpers/util.py:56-65 | "1/29/3", and "None" for a wildcard |
| AttributePath.ParseAttributesFromReadResult | matter_server/server/helpers/attributes.py:8-25 | the triple loop yields exactly the attributes of the nested result, each under its path |
| AttributePath.FlatteningIsInjective | matter_server/server/helpers/attributes.py:12-25 | flattening loses nothing |
| AttributePath.PrefixSelectsEndpoint | matter_server/server/device_controller.py:3490-3495 | the prefix test selects the paths of that endpoint only: "1/" never hits "12/..." |
| AttributePath.RemoveEndpoints | matter_server/server/device_controller.py:3490-3495 | the rebuilt dictionary keeps exactly the paths that start with none of the prefixes |
| AttributePath.RemovalIsExact | matter_server/server/device_controller.py:3490-3495 | exactly the attributes of the removed endpoints go |
| Storage.NoLostSave | matter_server/server/storage.py:65-96 | over all interleavings of writes, timer and save tasks, whenever memory differs from disk a timer is armed or a save is outstanding |
| Storage.WritesWait | matter_server/server/storage.py:65-82 | writes that are not forced wait for the timer, however many: no task starts before it fires, and it is armed exactly if one of them changed something |
| Storage.LiveObjectIff | matter_server/server/device_controller.py:3658-3670 | a live object changed in place compares equal to itself: the change is still written if and only if a save that has not read the dictionary was to come |
| Storage.LostStaysLost | matter_server/server/storage.py:65-82 | and if not, no timer or task ever writes it |
| Storage.LiveObjectIsNotSaved | matter_server/server/device_controller.py:3658-3670 | so from a freshly loaded state, over every run of timers and tasks |
| Storage.StopMaySkip | matter_server/server/storage.py:50-56 | stopping without a pending timer loses nothing if no save task is left |
| Storage.StopAfterForcedWriteLosesIt | matter_server/server/storage.py:50-56 | a forced write just before it is still only a task |
| Storage.RecoversLastSave | matter_server/server/storage.py:106-170 | stopping after any step of any run and loading again yields exactly the dictionary that the last completed replacement wrote, or the one first on disk |
| Storage.CrashRecovery | matter_server/server/storage.py:106-170 | which is the first, or one that was in memory at some point of the run |
| Storage.CrashSafeIff | matter_server/server/storage.py:152-170 | one save survives a crash after each of its steps exactly when the main file is whole or the backup has nothing to lose |
| Storage.StepDurable | matter_server/server/storage.py:152-170 | what a load returns changes only in the final replacement |
| Storage.ProgressIsDoSave | matter_server/server/storage.py:156-166 | the steps of the machine, uninterrupted, are one whole save |
| Storage.StorageController.constructor | matter_server/server/storage.py:45-48 | loads what the files hold |
| Storage.StorageController.LoadFirst | matter_server/server/storage.py:110-126 | the first of main and backup that decodes, else nothing |
| Storage.StorageController.Set | matter_server/server/storage.py:65-82 | an unforced write of an equal value schedules nothing |
| Storage.StorageController.Remove | matter_server/server/storage.py:84-96 | removes and saves at once |
| Storage.StorageController.Save | matter_server/server/storage.py:131-150 | cancels the timer, then starts a task or a new timer |
| Storage.StorageController.DoSave | matter_server/server/storage.py:156-166 | unlink, copy, replace |
| WireExact.RoundTripIff | matter_server/common/helpers/util.py:105-302 | for every value of the program and every type, nested to any depth: read back as it was written if and only if it fits the type; the condition covers nulls, defaults, unions, dictionary keys, "TLVValue" and the name "NOCStruct.noc" |
| WireRoundTrip.RoundTrip | matter_server/common/helpers/util.py:105-302 | whatever fits its type is read back as it was written: integers, text, booleans, bytes, enums, optionals, unions, lists, tuples, sets, dictionaries and dataclasses, nested to any depth |
| WireRoundTrip.ObjectRoundTripIff | matter_server/common/helpers/util.py:269-302 | a dataclass survives exactly when its null fields hold their defaults, where they have one |
| WireRoundTrip.ObjectComesBackRestored | matter_server/common/helpers/util.py:124-126 | otherwise it comes back with those fields replaced |
| WireRoundTrip.KeyBack | matter_server/common/helpers/util.py:159-168 | text and natural-number keys that fit the key type, a union included, are read back |
| WireExact.UnionFirstIff | matter_server/common/helpers/util.py:170-201 | a union returns v if and only if some member does and all before it reject |
| WireTags.TaggedRoundTrip | matter_server/common/helpers/util.py:97-137 | a value is read back also where the structs it holds are keyed by tags, as text or integers, in any order and beside keys that belong to no field, at any depth of structs, lists, dictionaries and unions |
| WireTags.TagsRoundTrip | matter_server/common/helpers/util.py:97-137 | in particular a struct written by the decimal text of the tags of its fields |
| WireTags.TagKeyIs | matter_server/common/helpers/util.py:97-102 | a tag becomes its label; text that is no number, numbers that are no tag and negative ones stay |
| WireTags.TagNeedsDescriptor | matter_server/common/helpers/util.py:135-137 | {"0": 5} is C(label=5) if the class has a descriptor with that tag, and C(label=None) without one |
| WireTags.LenientIgnores | matter_server/common/helpers/util.py:269-302 | unless strict, only the entries under the names of fields matter |
| WireTags.StrictRejects | matter_server/common/helpers/util.py:280-285 | strict, any other key is a KeyError |
| WireBoundaries.NullsAreDropped | matter_server/common/helpers/util.py:149-154 | a list, tuple or set comes back without its nulls, so it survives exactly when it has none |
| WireBoundaries.DictRoundTripIff | matter_server/common/helpers/util.py:138-168 | a dictionary is read back exactly when it has no null under "TLVValue"; otherwise AttributeError, which no union catches |
| WireBoundaries.UnparsedIsNullIff | matter_server/common/helpers/util.py:138-148 | a value the SDK could not parse is parsed as a null without default is, if and only if the type is neither Nullable with SDK types nor None where null is not permitted |
| WireBoundaries.TextRoundTripIff | matter_server/common/helpers/util.py:246-247 | text survives if and only if its name is not "NOCStruct.noc", which is also the name of a dictionary key of that text; there it becomes empty bytes |
| WireBoundaries.UnionDecides | matter_server/common/helpers/util.py:170-201 | a value other than null is, under a union, what the first member makes of it that does not reject it; if all do, None where the union has None and otherwise a TypeError |
| WireBoundaries.UnionRoundTripIff | matter_server/common/helpers/util.py:170-201 | a value that some member of a union gives back survives under the union if and only if no earlier member that is reached takes it for something else or fails with an error the union does not catch |
| WireBoundaries.NumericTextIff | matter_server/common/helpers/util.py:231-232 | so text under int or str survives exactly when it is not numeric |
| WireBoundaries.BytesTakeText | matter_server/common/helpers/util.py:233-240 | under a union that begins with bytes every text comes back as bytes |
| WireBoundaries.EnumTakesScalars | matter_server/common/helpers/util.py:214-220 | an enum in the first place takes every integer and text: its values become members, others survive |
| WireBoundaries.TupleRoundTripIff | matter_server/common/helpers/util.py:149-154 | the parser applies the first type argument to every element: a tuple survives exactly when no element is null and each fits that type |
| WireBoundaries.MixedTupleFails | matter_server/common/helpers/util.py:149-154 | so (1, "a") does not survive under tuple[int, str] |
| WireTypes.ParsedHasType | matter_server/common/helpers/util.py:105-266 | a successful parse returns the default of a null or a value of the requested type, up to permitted nulls and raw enum values |
| WireTypes.ObjectHasType | matter_server/common/helpers/util.py:269-302 | dataclass_from_dict gives an object of the class whose fields hold defaults or values of their types; None only if not strict |
| WireTypes.LeafHasType | matter_server/common/helpers/util.py:214-266 | the conversions of single values give values of the type |
| Wire.ParseUnion | matter_server/common/helpers/util.py:170-201 | never ends in KeyError: the members' errors are caught, except AttributeError |
| Wire.ParseFields | matter_server/common/helpers/util.py:281-302 | a successful parse has a value for each field from the i-th on; the measure (size of the value, then of the type) ends the recursion through classes that refer to themselves |
| Base64.RoundTrip | matter_server/common/helpers/json.py:30-31 | section 4 of RFC 4648: decoding an encoding gives the bytes back |
| Base64.TestVectors | matter_server/common/helpers/json.py:30-31 | test vectors of section 10 of RFC 4648 |
| Decimal.ToNatOfStr | matter_server/common/helpers/util.py:231-232 | decimal text of a natural number is numeric and reads back as the number |
| Decimal.StrDigits | matter_server/common/helpers/util.py:56-65 | digit by digit, in base ten |
| Decimal.StrInjective | matter_server/server/storage.py:65-82 | distinct ids have distinct text, so subkeys do not collide |

## Left out

- The CHIP SDK, TLV encoding, HKDF derivation, commissioning, discovery, subscriptions on the wire and the network: calls whose outcome is a parameter.
- `group_list`, `group_get_membership` and `group_debug_info`, which only read, and `init_group_testing_data`, which is one call to the SDK.
- Interleaving of two commands at an await, and node objects captured before an await: see the assumptions.
- KeyChain.InjectFresh: keysets and maps are addressed by their id; the hexadecimal names of the entries and the TLV records around them are not modelled.
- MirrorServer.DeviceController.AttributeUpdatedCallback: registering a callback for a node's attribute updates; the tasks it schedules are returned, and the work of the interview is a step of its own.
- MirrorClient.MatterNode.Update: a stored value is the raw value whose parse the client keeps; values of attributes never received, which an SDK cluster object fills with defaults, device types and the table of composed endpoints are not modelled, nor are `MatterEndpoint` and cluster objects separate from their node.
- MirrorSync.RunSynced: assumes that every value the client knows an attribute for can be parsed; a parse error would end the client's read loop.
- Subscriptions.EventSubscriptions.SignalEvent: callbacks that subscribe or unsubscribe while they are run.
- Storage.StorageController.Set: nested dictionaries are addressed by key and subkey, and the JSON text of the file is not modelled.
- WireExact.RoundTripIff: dictionary keys are integers or texts; that earlier members of a union reject is stated through the parser.
- Wire.Encode: the JSON text itself, which orjson writes and reads back, and the 64-bit bound on its integers; dataclass fields whose names start with an underscore, objects marked `do_not_serialize`, exceptions and classes.
- Wire.ParseLeaf: floats, timestamps, `type[...]` annotations and the SDK types `uint` and `float32`; `str.isnumeric` beyond ASCII digits; an IntEnum member is not an int here, and True equals 1 in enums and sets but not inside a tuple.
- Wire.DecodeBytes: b64decode accepts more texts than encodings (foreign characters are skipped, padding bits ignored); what it makes of those is a parameter.
- OTA updates, certificates, vendor information, custom clusters, node diagnostics, bridge tracking as a correctness claim, dashboard and scripts: input and output, data, or easy members.
