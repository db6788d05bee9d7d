/** The SDK wrapper the device controller calls: devices on the network and the key-value storage. */
module ChipController {
  import opened Wrappers
  import opened KeyChain
  import opened Devices
  import opened GroupProtocol

  // What an SDK call did: returned, or raised.
  datatype Reply = Returned | Raised

  class ChipDeviceController {
    var devices: map<NodeId, Device>
    var kvs: Kvs

    constructor (devices: map<NodeId, Device>, kvs: Kvs)
      ensures this.devices == devices && this.kvs == kvs
    {
      this.devices, this.kvs := devices, kvs;
    }

    predicate Reaches(n: NodeId, c: Call, env: Env)
      reads this
    {
      n in devices && c !in env.down
    }

    method KeySetWrite(n: NodeId, keyset: KeysetId, key: Key, attempt: nat, env: Env) returns (status: WriteStatus)
      modifies this`devices
      ensures status == Failed <==> !old(Reaches(n, KeysetWrite(n, attempt), env))
      ensures status == Exhausted ==> WriteKeyset(old(devices)[n], keyset, key).None?
      ensures status == Written ==>
        && WriteKeyset(old(devices)[n], keyset, key).Some?
        && devices == old(devices)[n := WriteKeyset(old(devices)[n], keyset, key).value]
      ensures status != Written ==> devices == old(devices)
    {
      if !Reaches(n, KeysetWrite(n, attempt), env) {
        return Failed;
      }
      var d := devices[n];
      if keyset in d.keysets || |d.keysets| < d.keysetCapacity {
        devices := devices[n := Overwrite(d, keyset, key)];
        return Written;
      }
      return Exhausted;
    }

    // Raises for an absent keyset too (NOT_FOUND).
    method KeySetRemove(n: NodeId, keyset: KeysetId, env: Env) returns (reply: Reply)
      modifies this`devices
      ensures reply == Returned <==> old(Reaches(n, KeysetRemove(keyset), env)) && keyset in old(devices)[n].keysets
      ensures devices == if reply == Returned then old(devices)[n := RemoveKeysets(old(devices)[n], {keyset})]
        else old(devices)
    {
      if !Reaches(n, KeysetRemove(keyset), env) || keyset !in devices[n].keysets {
        return Raised;
      }
      devices := devices[n := devices[n].(keysets := devices[n].keysets - {keyset})];
      return Returned;
    }

    // A write that is answered with an error status returns normally and changes nothing.
    method WriteKeyMap(n: NodeId, entries: seq<KeyMapEntry>, env: Env) returns (reply: Reply)
      modifies this`devices
      ensures reply == Returned <==> old(Reaches(n, KeyMapWrite, env))
      ensures devices == if reply == Returned && KeyMapWrite !in env.refused
                         then old(devices)[n := old(devices)[n].(keyMap := entries)] else old(devices)
    {
      if !Reaches(n, KeyMapWrite, env) {
        return Raised;
      }
      if KeyMapWrite !in env.refused {
        devices := devices[n := devices[n].(keyMap := entries)];
      }
      return Returned;
    }

    method WriteAcl(n: NodeId, acl: seq<AclEntry>, env: Env)
      modifies this`devices
      ensures devices == if old(Reaches(n, AclWrite, env)) && AclWrite !in env.refused
                         then old(devices)[n := old(devices)[n].(acl := acl)] else old(devices)
    {
      if Reaches(n, AclWrite, env) && AclWrite !in env.refused {
        devices := devices[n := devices[n].(acl := acl)];
      }
    }

    method SendRemoveGroup(n: NodeId, ep: Endpoint, group: GroupId, c: Call, env: Env) returns (reply: Reply)
      modifies this`devices
      ensures reply == Returned <==> old(Reaches(n, c, env)) && ep in old(devices)[n].tables
      ensures devices == if reply == Returned && c !in env.refused
        then var d := old(devices)[n];
             old(devices)[n := d.(tables := d.tables[ep := DropMembers(d.tables[ep], {group})])]
        else old(devices)
    {
      if !Reaches(n, c, env) || ep !in devices[n].tables {
        return Raised;
      }
      if c !in env.refused {
        var d := devices[n];
        devices := devices[n := d.(tables := d.tables[ep := DropMembers(d.tables[ep], {group})])];
      }
      return Returned;
    }

    method SendAddGroup(n: NodeId, ep: Endpoint, group: GroupId, env: Env) returns (reply: Reply)
      modifies this`devices
      ensures reply == Returned <==> old(Reaches(n, MemberAdd, env))
      ensures devices == if reply == Returned && MemberAdd !in env.refused
        then var d := old(devices)[n];
             old(devices)[n := d.(tables := d.tables[ep := AddMember(TableOf(d, ep), group)])]
        else old(devices)
    {
      if !Reaches(n, MemberAdd, env) {
        return Raised;
      }
      if MemberAdd !in env.refused {
        var d := devices[n];
        var t := TableOf(d, ep);
        if group !in t.members && |t.members| < t.capacity {
          t := t.(members := t.members + [group]);
        }
        devices := devices[n := d.(tables := d.tables[ep := t])];
      }
      return Returned;
    }
  }
}
