/** The server's half of the mirror with its live objects: the device controller's handlers and the
    connection they signal to, proved to take the steps of `Mirror`. */
module MirrorServer {
  import opened Wrappers
  import opened Mirror
  import opened MirrorSync

  const PARTS_LIST := Path(0, 29, 3)
  const SOFTWARE_VERSION := Path(0, 40, 9)
  const DEVICE_TYPES := Path(1, 29, 0)
  const AGGREGATOR: nat := 14

  // The device types of endpoint 1 tell a bridge.
  predicate TellsBridge(attributes: map<Path, Value>) {
    DEVICE_TYPES in attributes && attributes[DEVICE_TYPES].DeviceTypeList?
      && AGGREGATOR in attributes[DEVICE_TYPES].types
  }

  // Tasks the attribute callback leaves to the event loop.
  datatype Task =
    | EndpointsAdded(endpoints: set<nat>)
    | FullInterview
    | AttributeCallback(callback: nat, path: Path, before: Option<Value>, value: Value)

  // One task for each callback, in the order of registration.
  function CallbackTasks(callbacks: seq<nat>, p: Path, before: Option<Value>, v: Value): seq<Task> {
    seq(|callbacks|, i requires 0 <= i < |callbacks| => AttributeCallback(callbacks[i], p, before, v))
  }

  predicate IsEndpointList(value: Option<Value>) {
    value.Some? ==> value.value.EndpointList?
  }

  function EndpointsIn(value: Option<Value>): set<nat>
    requires IsEndpointList(value)
  {
    if value.None? then {} else value.value.endpoints
  }

  /** The event loop's callbacks for one client, and its `WebsocketClientHandler`. */
  class ClientConnection {
    var loop: seq<LoopEvent>
    var outbox: seq<Message>
    var socket: seq<Message>
    var phase: Phase

    constructor ()
      ensures loop == [] && outbox == [] && socket == [] && phase == Idle
    {
      loop, outbox, socket, phase := [], [], [], Idle;
    }

    method SignalEvent(e: LoopEvent)
      modifies this`loop
      ensures loop == if phase == Listening then old(loop) + [e] else old(loop)
    {
      if phase == Listening {
        loop := loop + [e];
      }
    }

    // `_send_message`
    method SendMessage(msg: Message)
      modifies this
      ensures socket == old(socket)
      ensures if |old(outbox)| < 512 then loop == old(loop) && outbox == old(outbox) + [msg]
        && phase == old(phase)
        else loop == [] && outbox == old(outbox) && phase == Closed
    {
      if |outbox| < MAX_PENDING_MSG {
        outbox := outbox + [msg];
      } else {
        phase, loop := Closed, [];
      }
    }
  }

  class DeviceController {
    var nodes: map<NodeId, MatterNodeData>
    var attributeUpdateCallbacks: map<NodeId, seq<nat>>
    const connection: ClientConnection
    ghost var made: set<MatterNodeData>

    ghost predicate Valid()
      reads this, connection, made
    {
      && (forall n :: n in nodes ==> nodes[n] in made && nodes[n].id == n)
      && (forall e :: e in connection.loop && e.SnapshotOf? ==> e.node in made)
    }

    ghost function Heap(): map<MatterNodeData, NodeData>
      reads this, made
    {
      map o | o in made :: o.Data()
    }

    ghost function View(client: Client): (s: State)
      reads this, connection, made
    {
      State(Heap(), nodes, connection.loop, connection.outbox, connection.socket, client, connection.phase)
    }

    constructor (connection: ClientConnection)
      requires connection.loop == []
      ensures this.connection == connection && Valid() && nodes == map[]
    {
      this.connection := connection;
      nodes, attributeUpdateCallbacks, made := map[], map[], {};
    }

    function CallbacksOf(n: NodeId): seq<nat>
      reads this
    {
      if n in attributeUpdateCallbacks then attributeUpdateCallbacks[n] else []
    }

    lemma ValidIsWellFormed(client: Client)
      requires Valid()
      ensures WellFormed(View(client))
    {
    }

    method Store(node: MatterNodeData, ghost client: Client)
      requires Valid() && node !in made
      modifies this, connection`loop
      ensures Valid() && made == old(made) + {node}
      ensures View(client) == StoreNode(old(View(client)), node, node.Data())
    {
      nodes := nodes[node.id := node];
      made := made + {node};
      connection.SignalEvent(SnapshotOf(node));
      assert Heap() == old(Heap())[node := node.Data()];
    }

    // `_interview_node`, once the read has answered: a new object takes the place of the old one.
    method InterviewNode(n: NodeId, attributes: map<Path, Value>, ghost known: Known, ghost client: Client)
      returns (node: MatterNodeData)
      requires Valid()
      modifies this, connection`loop
      ensures Valid() && fresh(node) && made == old(made) + {node} && WellFormed(old(View(client)))
      ensures View(client) == Next(known, old(View(client)), Interview(node, n, attributes))
      ensures node.isBridge <==>
        && Path(1, 29, 0) in attributes && attributes[Path(1, 29, 0)].DeviceTypeList?
        && 14 in attributes[Path(1, 29, 0)].types
    {
      ValidIsWellFormed(client);
      var available := n in nodes && nodes[n].available;
      node := new MatterNodeData(n, available, attributes);
      if TellsBridge(attributes) {
        node.isBridge := true;
      }
      assert View(client) == old(View(client));
      Store(node, client);
    }

    // `interview_node` of a test node.
    method AnnounceNode(n: NodeId, ghost known: Known, ghost client: Client)
      requires Valid() && n in nodes
      modifies connection`loop
      ensures Valid() && WellFormed(old(View(client)))
      ensures View(client) == Next(known, old(View(client)), Announce(n))
    {
      ValidIsWellFormed(client);
      connection.SignalEvent(SnapshotOf(nodes[n]));
    }

    // The end of `_subscribe_node`.
    method NodeSubscribed(n: NodeId, attributes: map<Path, Value>, ghost known: Known, ghost client: Client)
      requires Valid() && n in nodes
      modifies nodes[n], connection`loop
      ensures Valid() && WellFormed(old(View(client)))
      ensures View(client) == Next(known, old(View(client)), Subscribed(n, attributes))
    {
      ValidIsWellFormed(client);
      var node := nodes[n];
      node.available := true;
      node.attributes := node.attributes + attributes;
      connection.SignalEvent(SnapshotOf(node));
      assert Heap() == old(Heap())[node := node.Data()];
    }

    // `_node_unavailable`
    method NodeUnavailable(n: NodeId, ghost known: Known, ghost client: Client)
      requires Valid() && n in nodes
      modifies nodes[n], connection`loop
      ensures Valid() && WellFormed(old(View(client)))
      ensures View(client) == Next(known, old(View(client)), Unavailable(n))
    {
      ValidIsWellFormed(client);
      var node := nodes[n];
      if !node.available {
        return;
      }
      node.available := false;
      connection.SignalEvent(SnapshotOf(node));
      assert Heap() == old(Heap())[node := node.Data()];
    }

    // `resubscription_succeeded`
    method ResubscriptionSucceeded(n: NodeId, ghost known: Known, ghost client: Client)
      requires Valid() && n in nodes
      modifies nodes[n], connection`loop
      ensures Valid() && WellFormed(old(View(client)))
      ensures View(client) == Next(known, old(View(client)), Resubscribed(n))
    {
      ValidIsWellFormed(client);
      var node := nodes[n];
      if !node.available {
        node.available := true;
        connection.SignalEvent(SnapshotOf(node));
        assert Heap() == old(Heap())[node := node.Data()];
      }
    }

    // `_handle_endpoints_removed`: one step per endpoint, in the order the set is iterated.
    method HandleEndpointsRemoved(n: NodeId, endpoints: set<nat>, ghost known: Known, ghost client: Client)
      returns (ghost order: seq<nat>)
      requires Valid() && n in nodes
      modifies nodes[n], connection`loop
      ensures Valid() && WellFormed(old(View(client)))
      ensures nodes[n].isBridge == old(nodes[n].isBridge)
      ensures multiset(order) == multiset(endpoints)
      ensures View(client) == AfterEndpoints(known, old(View(client)), n, order)
    {
      ValidIsWellFormed(client);
      hide Next;
      var todo := endpoints;
      order := [];
      while todo != {}
        invariant Valid() && nodes[n].isBridge == old(nodes[n].isBridge)
        invariant todo <= endpoints && multiset(order) + multiset(todo) == multiset(endpoints)
        invariant View(client) == AfterEndpoints(known, old(View(client)), n, order)
      {
        var e :| e in todo;
        RemoveEndpoint(n, e, known, client);
        assert (order + [e])[..|order|] == order;
        order := order + [e];
        todo := todo - {e};
      }
    }

    // One turn of its loop.
    method RemoveEndpoint(n: NodeId, e: nat, ghost known: Known, ghost client: Client)
      requires Valid() && n in nodes
      modifies nodes[n], connection`loop
      ensures Valid() && WellFormed(old(View(client))) && nodes[n].isBridge == old(nodes[n].isBridge)
      ensures View(client) == Next(known, old(View(client)), EndpointRemoved(n, e))
    {
      ValidIsWellFormed(client);
      var node := nodes[n];
      node.attributes := WithoutEndpoint(node.attributes, e);
      connection.SignalEvent(Plain(EndpointGone(n, e)));
      assert Heap() == old(Heap())[node := node.Data()];
    }

    // `attribute_updated_callback`: a bridge's PartsList is not stored but followed, endpoint by endpoint;
    // every other value is stored, handed to the callbacks registered for the node and announced, and a new
    // software version asks for an interview.
    method AttributeUpdatedCallback(n: NodeId, p: Path, before: Option<Value>, v: Value, ghost known: Known,
                                    ghost client: Client)
      returns (tasks: seq<Task>, ghost removed: seq<nat>)
      requires Valid() && n in nodes
      requires p == Path(0, 29, 3) ==> IsEndpointList(before) && v.EndpointList?
      modifies nodes[n], connection`loop
      ensures Valid() && WellFormed(old(View(client))) && nodes[n].isBridge == old(nodes[n].isBridge)
      ensures if nodes[n].isBridge && p == Path(0, 29, 3) then
          && multiset(removed) == multiset(EndpointsIn(before) - v.endpoints)
          && View(client) == AfterEndpoints(known, old(View(client)), n, removed)
          && var added := v.endpoints - EndpointsIn(before);
             tasks == if added == {} then [] else [EndpointsAdded(added)]
        else
          && View(client) == Next(known, old(View(client)), AttributeChanged(n, p, v))
          && tasks == (if p == Path(0, 40, 9) && before != Some(v) then [FullInterview] else [])
                        + CallbackTasks(CallbacksOf(n), p, before, v)
    {
      hide Next, Valid;
      tasks, removed := [], [];
      if nodes[n].isBridge && p == PARTS_LIST {
        ValidIsWellFormed(client);
        var gone, added := EndpointsIn(before) - v.endpoints, v.endpoints - EndpointsIn(before);
        if gone != {} {
          removed := HandleEndpointsRemoved(n, gone, known, client);
        }
        if added != {} {
          tasks := [EndpointsAdded(added)];
        }
      } else {
        if p == SOFTWARE_VERSION && before != Some(v) {
          tasks := [FullInterview];
        }
        var first := tasks;
        var callbacks := CallbacksOf(n);
        for i := 0 to |callbacks|
          invariant tasks == first + CallbackTasks(callbacks[..i], p, before, v)
        {
          tasks := tasks + [AttributeCallback(callbacks[i], p, before, v)];
          assert callbacks[..i + 1] == callbacks[..i] + [callbacks[i]];
        }
        assert callbacks[..|callbacks|] == callbacks;
        StoreAttribute(n, p, v, known, client);
      }
    }

    // The rest of it, for a value that is stored.
    method StoreAttribute(n: NodeId, p: Path, v: Value, ghost known: Known, ghost client: Client)
      requires Valid() && n in nodes
      modifies nodes[n], connection`loop
      ensures Valid() && WellFormed(old(View(client))) && nodes[n].isBridge == old(nodes[n].isBridge)
      ensures View(client) == Next(known, old(View(client)), AttributeChanged(n, p, v))
    {
      ValidIsWellFormed(client);
      var node := nodes[n];
      node.attributes := node.attributes[p := v];
      connection.SignalEvent(Plain(AttributeUpdate(n, p, v)));
      assert Heap() == old(Heap())[node := node.Data()];
    }

    // `remove_node`, once the node is known.
    method RemoveNode(n: NodeId, ghost known: Known, ghost client: Client)
      requires Valid() && n in nodes
      modifies this`nodes, connection`loop
      ensures Valid() && WellFormed(old(View(client)))
      ensures View(client) == Next(known, old(View(client)), NodeRemoved(n))
    {
      ValidIsWellFormed(client);
      nodes := nodes - {n};
      connection.SignalEvent(Plain(NodeGone(n)));
    }

    // `_handle_start_listening_command`: a full dump, then a subscription.
    method HandleStartListening(ghost known: Known, ghost client: Client)
      requires Valid() && connection.phase == Idle
      modifies connection
      ensures Valid() && WellFormed(old(View(client)))
      ensures View(client) == Next(known, old(View(client)), StartListening)
    {
      ValidIsWellFormed(client);
      var all := map n | n in nodes :: nodes[n].Data();
      assert all == map n | n in nodes :: Heap()[nodes[n]];
      connection.SendMessage(Dump(all));
      if connection.phase == Idle {
        connection.phase := Listening;
      }
      assert Heap() == old(Heap());
    }

    // The event loop runs the client's next callback: only now is the object turned into a message.
    method RunNextCallback(ghost known: Known, ghost client: Client)
      requires Valid() && connection.loop != []
      modifies connection
      ensures Valid() && WellFormed(old(View(client)))
      ensures View(client) == Next(known, old(View(client)), RunCallback)
    {
      ValidIsWellFormed(client);
      var e := connection.loop[0];
      assert e in connection.loop;
      connection.loop := connection.loop[1..];
      match e {
        case SnapshotOf(node) => connection.SendMessage(NodeSnapshot(node.Data()));
        case Plain(message) => connection.SendMessage(message);
      }
    }

    // One turn of `_writer`.
    method WriteNext(ghost known: Known, ghost client: Client)
      requires Valid() && connection.outbox != [] && connection.phase != Closed
      modifies connection
      ensures Valid() && WellFormed(old(View(client)))
      ensures View(client) == Next(known, old(View(client)), WriteMessage)
    {
      ValidIsWellFormed(client);
      connection.socket := connection.socket + [connection.outbox[0]];
      connection.outbox := connection.outbox[1..];
    }
  }

  ghost function AfterEndpoints(known: Known, s: State, n: NodeId, order: seq<nat>): (s': State)
    requires WellFormed(s)
    ensures WellFormed(s')
  {
    if order == [] then s
    else
      var s1 := AfterEndpoints(known, s, n, order[..|order| - 1]);
      RemovedWellFormed(known, s1, n, order[|order| - 1]);
      Next(known, s1, EndpointRemoved(n, order[|order| - 1]))
  }

  lemma RemovedWellFormed(known: Known, s: State, n: NodeId, e: nat)
    requires WellFormed(s)
    ensures WellFormed(Next(known, s, EndpointRemoved(n, e)))
  {
  }

  /** Removing any set of endpoints, in whatever order, keeps a listening client in step. */
  lemma {:induction false} EndpointsSynced(known: Known, s: State, n: NodeId, order: seq<nat>)
    requires Synced(known, s)
    ensures Synced(known, AfterEndpoints(known, s, n, order))
  {
    hide Next, Synced;
    SyncedWellFormed(known, s);
    if order != [] {
      var k := |order| - 1;
      EndpointsSynced(known, s, n, order[..k]);
      NextSynced(known, AfterEndpoints(known, s, n, order[..k]), EndpointRemoved(n, order[k]));
    }
  }

  lemma SyncedWellFormed(known: Known, s: State)
    requires Synced(known, s)
    ensures WellFormed(s)
  {
  }
}
