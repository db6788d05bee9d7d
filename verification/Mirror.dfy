/** What a listening client holds of the server's nodes. The server changes its node objects and queues
    events that refer to those objects; an event is turned into a message only when the event loop
    gets to it, so a queued event shows the object as it is then. The messages travel in order to the
    client, which applies them to its own nodes. */
module Mirror {
  import opened Wrappers

  type NodeId = nat
  // A raw attribute value: the two lists the server looks into, and everything else.
  datatype Value = Raw(n: int) | EndpointList(endpoints: set<nat>) | DeviceTypeList(types: seq<nat>)
  datatype Path = Path(endpoint: nat, cluster: nat, attribute: nat)

  // The (cluster, attribute) pairs the client has descriptors for.
  type Known = set<(nat, nat)>

  datatype NodeData = NodeData(id: NodeId, available: bool, attributes: map<Path, Value>)

  /** The server's node object. */
  class MatterNodeData {
    const id: NodeId
    var available: bool
    var attributes: map<Path, Value>
    var isBridge: bool

    constructor (id: NodeId, available: bool, attributes: map<Path, Value>)
      ensures Data() == NodeData(id, available, attributes) && !isBridge
    {
      this.id, this.available, this.attributes, isBridge := id, available, attributes, false;
    }

    function Data(): NodeData
      reads this
    {
      NodeData(id, available, attributes)
    }
  }

  /* ---- The client's side ---- */

  // Per endpoint, the values the client got from the server.
  datatype ClientNode = ClientNode(available: bool, endpoints: map<nat, map<Path, Value>>)

  type Client = map<NodeId, ClientNode>

  datatype Message =
    | Dump(nodes: map<NodeId, NodeData>)          // the answer to start_listening
    | NodeSnapshot(data: NodeData)                // NODE_ADDED, NODE_UPDATED
    | NodeGone(id: NodeId)
    | EndpointGone(id: NodeId, endpoint: nat)
    | AttributeUpdate(id: NodeId, path: Path, value: Value)
    | Notice                                      // command results and all other events

  const EMPTY := ClientNode(false, map[])

  predicate IsKnown(known: Known, p: Path) {
    (p.cluster, p.attribute) in known
  }

  function Endpoints(attributes: map<Path, Value>): set<nat> {
    set p | p in attributes :: p.endpoint
  }

  function ValuesOf(m: ClientNode, e: nat): map<Path, Value> {
    if e in m.endpoints then m.endpoints[e] else map[]
  }

  function KnownValues(known: Known, attributes: map<Path, Value>, e: nat): map<Path, Value> {
    map p | p in attributes && p.endpoint == e && IsKnown(known, p) :: attributes[p]
  }

  // `MatterNode.update`: nothing is deleted.
  function Update(known: Known, m: ClientNode, d: NodeData): ClientNode {
    ClientNode(d.available, map e | e in m.endpoints.Keys + Endpoints(d.attributes) ::
      ValuesOf(m, e) + KnownValues(known, d.attributes, e))
  }

  // `MatterNode.update_attribute`: ignored for an endpoint or an attribute not known.
  function SetAttribute(known: Known, m: ClientNode, p: Path, v: Value): ClientNode {
    if p.endpoint !in m.endpoints || !IsKnown(known, p) then m
    else m.(endpoints := m.endpoints[p.endpoint := m.endpoints[p.endpoint][p := v]])
  }

  // `_handle_event_message`; None is the KeyError of an attribute update for an unknown node.
  function Apply(known: Known, c: Client, msg: Message): Option<Client> {
    match msg
    case Dump(nodes) => Some(map n | n in nodes :: Update(known, EMPTY, nodes[n]))
    case NodeSnapshot(d) => Some(c[d.id := Update(known, if d.id in c then c[d.id] else EMPTY, d)])
    case NodeGone(n) => Some(c - {n})
    case EndpointGone(n, e) => Some(if n in c then c[n := c[n].(endpoints := c[n].endpoints - {e})] else c)
    case AttributeUpdate(n, p, v) => if n in c then Some(c[n := SetAttribute(known, c[n], p, v)]) else None
    case Notice => Some(c)
  }

  function Fold(known: Known, c: Client, msgs: seq<Message>): Option<Client> {
    if msgs == [] then Some(c)
    else
      var before := Fold(known, c, msgs[..|msgs| - 1]);
      if before.None? then None else Apply(known, before.value, msgs[|msgs| - 1])
  }

  /* ---- The server's side and the connection ---- */

  datatype LoopEvent = SnapshotOf(node: MatterNodeData) | Plain(message: Message)

  datatype Phase = Idle | Listening | Closed | Crashed

  const MAX_PENDING_MSG: nat := 512

  datatype State = State(
    heap: map<MatterNodeData, NodeData>,      // every node object ever made, as it is now
    nodes: map<NodeId, MatterNodeData>,       // _nodes of the device controller
    loop: seq<LoopEvent>,                     // callbacks scheduled for this client
    outbox: seq<Message>,                     // the bounded queue of the client handler
    socket: seq<Message>,                     // written, not yet read
    client: Client,
    phase: Phase)

  ghost predicate Queueable(heap: map<MatterNodeData, NodeData>, loop: seq<LoopEvent>) {
    forall e :: e in loop && e.SnapshotOf? ==> e.node in heap
  }

  ghost predicate WellFormed(s: State) {
    && (forall n :: n in s.nodes ==> s.nodes[n] in s.heap && s.heap[s.nodes[n]].id == n)
    && Queueable(s.heap, s.loop)
  }

  ghost function Serialize(heap: map<MatterNodeData, NodeData>, e: LoopEvent): Message
    requires e.SnapshotOf? ==> e.node in heap
  {
    match e
    case SnapshotOf(node) => NodeSnapshot(heap[node])
    case Plain(message) => message
  }

  ghost function SerializeAll(heap: map<MatterNodeData, NodeData>, loop: seq<LoopEvent>): (msgs: seq<Message>)
    requires Queueable(heap, loop)
    ensures |msgs| == |loop|
  {
    seq(|loop|, i requires 0 <= i < |loop| => Serialize(heap, loop[i]))
  }

  // Everything the client has not applied yet.
  ghost function Pending(s: State): seq<Message>
    requires WellFormed(s)
  {
    s.socket + s.outbox + SerializeAll(s.heap, s.loop)
  }

  // `signal_event`, for this client.
  function Signal(s: State, e: LoopEvent): State {
    if s.phase == Listening then s.(loop := s.loop + [e]) else s
  }

  // `_send_message`: a full queue ends the connection.
  function Send(s: State, msg: Message): State {
    if |s.outbox| >= MAX_PENDING_MSG then s.(phase := Closed, loop := []) else s.(outbox := s.outbox + [msg])
  }

  datatype Step =
    // the device controller
    | Interview(node: MatterNodeData, id: NodeId, attributes: map<Path, Value>)
    | ImportNode(node: MatterNodeData, data: NodeData)
    | Announce(id: NodeId)
    | Subscribed(id: NodeId, attributes: map<Path, Value>)
    | Unavailable(id: NodeId)
    | Resubscribed(id: NodeId)
    | AttributeChanged(id: NodeId, path: Path, value: Value)
    | EndpointRemoved(id: NodeId, endpoint: nat)
    | NodeRemoved(id: NodeId)
    | OtherEvent
    // the connection
    | StartListening
    | CommandResult
    | RunCallback
    | WriteMessage
    | Receive
    | Reconnect

  function StoreNode(s: State, node: MatterNodeData, d: NodeData): State {
    Signal(s.(heap := s.heap[node := d], nodes := s.nodes[d.id := node]), SnapshotOf(node))
  }

  // An object changes in place.
  function Mutate(s: State, n: NodeId, d: NodeData, e: LoopEvent): State
    requires n in s.nodes
  {
    Signal(s.(heap := s.heap[s.nodes[n] := d]), e)
  }

  ghost predicate Enabled(s: State, step: Step) {
    match step
    case Interview(node, _, _) => node !in s.heap
    case ImportNode(node, data) => node !in s.heap && data.id !in s.nodes
    case _ => true
  }

  function WithoutEndpoint(attributes: map<Path, Value>, e: nat): map<Path, Value> {
    map p | p in attributes && p.endpoint != e :: attributes[p]
  }

  ghost function Next(known: Known, s: State, step: Step): State
    requires WellFormed(s)
  {
    match step
    case Interview(node, n, attributes) =>
      StoreNode(s, node, NodeData(n, n in s.nodes && s.heap[s.nodes[n]].available, attributes))
    case ImportNode(node, data) => StoreNode(s, node, data)
    case Announce(n) => if n in s.nodes then Signal(s, SnapshotOf(s.nodes[n])) else s
    case Subscribed(n, attributes) =>
      if n !in s.nodes then s
      else
        var d := s.heap[s.nodes[n]];
        Mutate(s, n, d.(available := true, attributes := d.attributes + attributes), SnapshotOf(s.nodes[n]))
    case Unavailable(n) =>
      if n !in s.nodes || !s.heap[s.nodes[n]].available then s
      else Mutate(s, n, s.heap[s.nodes[n]].(available := false), SnapshotOf(s.nodes[n]))
    case Resubscribed(n) =>
      if n !in s.nodes || s.heap[s.nodes[n]].available then s
      else Mutate(s, n, s.heap[s.nodes[n]].(available := true), SnapshotOf(s.nodes[n]))
    case AttributeChanged(n, p, v) =>
      if n !in s.nodes then s
      else
        var d := s.heap[s.nodes[n]];
        Mutate(s, n, d.(attributes := d.attributes[p := v]), Plain(AttributeUpdate(n, p, v)))
    case EndpointRemoved(n, e) =>
      if n !in s.nodes then s
      else
        var d := s.heap[s.nodes[n]];
        Mutate(s, n, d.(attributes := WithoutEndpoint(d.attributes, e)), Plain(EndpointGone(n, e)))
    case NodeRemoved(n) =>
      if n !in s.nodes then s else Signal(s.(nodes := s.nodes - {n}), Plain(NodeGone(n)))
    case OtherEvent => Signal(s, Plain(Notice))
    case StartListening =>
      if s.phase != Idle then s else StartedListening(Send(s, Dump(map n | n in s.nodes :: s.heap[s.nodes[n]])))
    case CommandResult =>
      if s.phase == Idle || s.phase == Listening then Send(s, Notice) else s
    case RunCallback =>
      if s.loop == [] then s else Send(s.(loop := s.loop[1..]), Serialize(s.heap, s.loop[0]))
    case WriteMessage =>
      if s.outbox == [] || s.phase == Closed then s else s.(outbox := s.outbox[1..], socket := s.socket + [s.outbox[0]])
    case Receive => if s.socket == [] then s else Received(s, Apply(known, s.client, s.socket[0]))
    case Reconnect => if s.phase != Closed then s else s.(phase := Idle, loop := [], outbox := [], socket := [])
  }

  function StartedListening(s: State): State {
    if s.phase == Idle then s.(phase := Listening) else s
  }

  function Received(s: State, c: Option<Client>): State
    requires s.socket != []
  {
    if c.None? then s.(phase := Crashed) else s.(client := c.value, socket := s.socket[1..])
  }

  /* ---- The invariant ---- */

  // Same availability, and every attribute value of a known cluster the server holds.
  ghost predicate Reflects(known: Known, m: ClientNode, d: NodeData) {
    && m.available == d.available
    && forall p :: p in d.attributes ==>
      && p.endpoint in m.endpoints
      && (IsKnown(known, p) ==> p in m.endpoints[p.endpoint] && m.endpoints[p.endpoint][p] == d.attributes[p])
  }

  ghost predicate Agrees(known: Known, s: State, c: Client)
    requires WellFormed(s)
  {
    && c.Keys == s.nodes.Keys
    && forall n :: n in c ==> Reflects(known, c[n], s.heap[s.nodes[n]])
  }

  // Once everything on its way is applied, a listening client agrees with the server.
  ghost predicate Synced(known: Known, s: State) {
    && WellFormed(s)
    && s.phase != Crashed
    && (s.phase == Listening ==>
          var c := Fold(known, s.client, Pending(s));
          c.Some? && Agrees(known, s, c.value))
    && (s.phase == Idle ==> s.loop == [] && forall m :: m in s.socket + s.outbox ==> m == Notice)
    && (s.phase == Closed ==> s.loop == [] && Fold(known, s.client, s.socket).Some?)
  }

  /* ---- Folding ---- */

  lemma FoldOneMore(known: Known, c: Client, msgs: seq<Message>, m: Message)
    ensures Fold(known, c, msgs + [m]) ==
      var before := Fold(known, c, msgs);
      if before.None? then None else Apply(known, before.value, m)
  {
    assert (msgs + [m])[..|msgs|] == msgs;
  }

  lemma {:induction false} FoldFirst(known: Known, c: Client, m: Message, msgs: seq<Message>)
    ensures Fold(known, c, [m] + msgs) ==
      var after := Apply(known, c, m);
      if after.None? then None else Fold(known, after.value, msgs)
  {
    hide Apply;
    if msgs == [] {
      FoldOneMore(known, c, [], m);
      assert [m] + msgs == [] + [m];
    } else {
      var k := |msgs| - 1;
      FoldFirst(known, c, m, msgs[..k]);
      assert ([m] + msgs)[..k + 1] == [m] + msgs[..k];
    }
  }

  lemma {:induction false} FoldNotices(known: Known, c: Client, msgs: seq<Message>)
    requires forall m :: m in msgs ==> m == Notice
    ensures Fold(known, c, msgs) == Some(c)
  {
    if msgs != [] {
      var k := |msgs| - 1;
      assert msgs[k] in msgs && forall m :: m in msgs[..k] ==> m in msgs;
      FoldNotices(known, c, msgs[..k]);
    }
  }

  /* ---- What a change of one object can reach ---- */

  // The part of node n's data that may differ.
  datatype Scope = Whole | OneEndpoint(endpoint: nat) | OnePath(path: Path)

  predicate Hides(scope: Scope, p: Path) {
    match scope
    case Whole => true
    case OneEndpoint(e) => p.endpoint == e
    case OnePath(q) => p == q
  }

  predicate HidesEndpoint(scope: Scope, e: nat) {
    scope == Whole || scope == OneEndpoint(e)
  }

  ghost predicate ValuesAlike(scope: Scope, a: map<Path, Value>, b: map<Path, Value>) {
    forall p :: !Hides(scope, p) ==> (p in a <==> p in b) && (p in a ==> a[p] == b[p])
  }

  ghost predicate DataAlike(scope: Scope, d: NodeData, d': NodeData) {
    && d.id == d'.id
    && (scope == Whole || d.available == d'.available)
    && (forall e :: !HidesEndpoint(scope, e) ==> (e in Endpoints(d.attributes) <==> e in Endpoints(d'.attributes)))
    && ValuesAlike(scope, d.attributes, d'.attributes)
  }

  ghost predicate NodeAlike(scope: Scope, m: ClientNode, m': ClientNode) {
    && (scope == Whole || m.available == m'.available)
    && (forall e :: !HidesEndpoint(scope, e) ==> (e in m.endpoints <==> e in m'.endpoints))
    && (forall e :: !HidesEndpoint(scope, e) && e in m.endpoints ==>
      ValuesAlike(scope, m.endpoints[e], m'.endpoints[e]))
  }

  ghost predicate ClientsAlike(scope: Scope, n: NodeId, c: Client, c': Client) {
    && c.Keys == c'.Keys
    && forall k :: k in c ==> if k == n then NodeAlike(scope, c[k], c'[k]) else c[k] == c'[k]
  }

  ghost predicate MessageAlike(scope: Scope, n: NodeId, m: Message, m': Message) {
    m == m' || (m.NodeSnapshot? && m'.NodeSnapshot? && m.data.id == m'.data.id == n
      && DataAlike(scope, m.data, m'.data))
  }

  lemma MergeAlike(scope: Scope, a: map<Path, Value>, a': map<Path, Value>, b: map<Path, Value>, b': map<Path, Value>)
    requires ValuesAlike(scope, a, a') && ValuesAlike(scope, b, b')
    ensures ValuesAlike(scope, a + b, a' + b')
  {
  }

  lemma KnownAlike(known: Known, scope: Scope, a: map<Path, Value>, b: map<Path, Value>, e: nat)
    requires ValuesAlike(scope, a, b)
    ensures ValuesAlike(scope, KnownValues(known, a, e), KnownValues(known, b, e))
  {
    hide IsKnown, Hides;
  }

  lemma UpdateAlike(known: Known, scope: Scope, m: ClientNode, m': ClientNode, d: NodeData, d': NodeData)
    requires NodeAlike(scope, m, m') && DataAlike(scope, d, d')
    ensures NodeAlike(scope, Update(known, m, d), Update(known, m', d'))
  {
    hide Endpoints, IsKnown, ValuesAlike, HidesEndpoint, KnownValues;
    var u, u' := Update(known, m, d), Update(known, m', d');
    forall e | !HidesEndpoint(scope, e) && e in u.endpoints
      ensures ValuesAlike(scope, u.endpoints[e], u'.endpoints[e])
    {
      NothingAlike(scope);
      KnownAlike(known, scope, d.attributes, d'.attributes, e);
      MergeAlike(scope, ValuesOf(m, e), ValuesOf(m', e), KnownValues(known, d.attributes, e),
        KnownValues(known, d'.attributes, e));
    }
  }

  lemma NothingAlike(scope: Scope)
    ensures ValuesAlike(scope, map[], map[])
  {
  }

  lemma SameAlike(scope: Scope, d: NodeData)
    ensures DataAlike(scope, d, d)
  {
  }

  lemma SameNodeAlike(scope: Scope, m: ClientNode)
    ensures NodeAlike(scope, m, m)
  {
  }

  lemma SameId(scope: Scope, d: NodeData, d': NodeData)
    requires DataAlike(scope, d, d')
    ensures d.id == d'.id
  {
  }

  lemma EndpointGoneAlike(scope: Scope, m: ClientNode, m': ClientNode, e: nat)
    requires NodeAlike(scope, m, m')
    ensures NodeAlike(scope, m.(endpoints := m.endpoints - {e}), m'.(endpoints := m'.endpoints - {e}))
  {
    hide ValuesAlike, HidesEndpoint;
  }

  lemma SetAttributeAlike(known: Known, scope: Scope, m: ClientNode, m': ClientNode, p: Path, v: Value)
    requires NodeAlike(scope, m, m')
    ensures NodeAlike(scope, SetAttribute(known, m, p, v), SetAttribute(known, m', p, v))
  {
    var e := p.endpoint;
    hide ValuesAlike, HidesEndpoint, IsKnown;
    if !HidesEndpoint(scope, e) && e in m.endpoints {
      SameValues(scope, map[p := v]);
      MergeAlike(scope, m.endpoints[e], m'.endpoints[e], map[p := v], map[p := v]);
      assert m.endpoints[e] + map[p := v] == m.endpoints[e][p := v];
      assert m'.endpoints[e] + map[p := v] == m'.endpoints[e][p := v];
    }
  }

  lemma SameValues(scope: Scope, a: map<Path, Value>)
    ensures ValuesAlike(scope, a, a)
  {
  }

  // One node of the client is replaced by a like one.
  lemma PutAlike(scope: Scope, n: NodeId, c: Client, c': Client, k: NodeId, m: ClientNode, m': ClientNode)
    requires ClientsAlike(scope, n, c, c') && (if k == n then NodeAlike(scope, m, m') else m == m')
    ensures ClientsAlike(scope, n, c[k := m], c'[k := m'])
  {
    hide NodeAlike;
  }

  lemma ApplyAlike(known: Known, scope: Scope, n: NodeId, c: Client, c': Client, m: Message, m': Message)
    requires ClientsAlike(scope, n, c, c') && MessageAlike(scope, n, m, m')
    ensures Apply(known, c, m).Some? <==> Apply(known, c', m').Some?
    ensures Apply(known, c, m).Some? ==> ClientsAlike(scope, n, Apply(known, c, m).value, Apply(known, c', m').value)
  {
    hide Update, DataAlike, NodeAlike, SetAttribute;
    match m
    case Dump(nodes) => DumpAlike(known, scope, n, nodes);
    case NodeSnapshot(d) =>
      var before, before' := if d.id in c then c[d.id] else EMPTY, if d.id in c' then c'[d.id] else EMPTY;
      SameAlike(scope, d);
      if d.id == n {
        SameNodeAlike(scope, EMPTY);
        UpdateAlike(known, scope, before, before', d, m'.data);
      }
      PutAlike(scope, n, c, c', d.id, Update(known, before, d), Update(known, before', m'.data));
    case NodeGone(_) =>
    case EndpointGone(k, e) =>
      if k in c {
        if k == n { EndpointGoneAlike(scope, c[k], c'[k], e); }
        PutAlike(scope, n, c, c', k, c[k].(endpoints := c[k].endpoints - {e}),
          c'[k].(endpoints := c'[k].endpoints - {e}));
      }
    case AttributeUpdate(k, p, v) =>
      if k in c {
        if k == n { SetAttributeAlike(known, scope, c[k], c'[k], p, v); }
        PutAlike(scope, n, c, c', k, SetAttribute(known, c[k], p, v), SetAttribute(known, c'[k], p, v));
      }
    case Notice =>
  }

  lemma DumpAlike(known: Known, scope: Scope, n: NodeId, nodes: map<NodeId, NodeData>)
    ensures var c: Client := map k | k in nodes :: Update(known, EMPTY, nodes[k]);
      ClientsAlike(scope, n, c, c)
  {
    hide NodeAlike, Update;
    if n in nodes { SameNodeAlike(scope, Update(known, EMPTY, nodes[n])); }
  }

  lemma {:induction false} FoldAlike(known: Known, scope: Scope, n: NodeId, c: Client, msgs: seq<Message>,
                                     msgs': seq<Message>)
    requires |msgs| == |msgs'| && forall i :: 0 <= i < |msgs| ==> MessageAlike(scope, n, msgs[i], msgs'[i])
    ensures Fold(known, c, msgs).Some? <==> Fold(known, c, msgs').Some?
    ensures Fold(known, c, msgs).Some? ==>
      ClientsAlike(scope, n, Fold(known, c, msgs).value, Fold(known, c, msgs').value)
  {
    hide Apply, MessageAlike, NodeAlike;
    if msgs == [] {
      forall k | k in c ensures NodeAlike(scope, c[k], c[k]) { SameNodeAlike(scope, c[k]); }
    } else {
      var k := |msgs| - 1;
      FoldAlike(known, scope, n, c, msgs[..k], msgs'[..k]);
      var a, b := Fold(known, c, msgs[..k]), Fold(known, c, msgs'[..k]);
      if a.Some? { ApplyAlike(known, scope, n, a.value, b.value, msgs[k], msgs'[k]); }
    }
  }

  /** Changing one object inside `scope` changes what the queued events will tell the client inside
      `scope` of that node only. */
  lemma PendingAlike(known: Known, s: State, n: NodeId, d: NodeData, scope: Scope)
    requires WellFormed(s) && n in s.nodes && DataAlike(scope, s.heap[s.nodes[n]], d)
    ensures var s' := s.(heap := s.heap[s.nodes[n] := d]);
      && WellFormed(s')
      && var a, b := Fold(known, s.client, Pending(s)), Fold(known, s.client, Pending(s'));
      && (a.Some? <==> b.Some?)
      && (a.Some? ==> ClientsAlike(scope, n, a.value, b.value))
  {
    hide DataAlike, Fold, ClientsAlike;
    var s' := s.(heap := s.heap[s.nodes[n] := d]);
    SameId(scope, s.heap[s.nodes[n]], d);
    assert WellFormed(s');
    var msgs, msgs' := Pending(s), Pending(s');
    forall i | 0 <= i < |msgs| ensures MessageAlike(scope, n, msgs[i], msgs'[i]) {
      var k := i - |s.socket + s.outbox|;
      if k >= 0 { assert s.loop[k] in s.loop; }
    }
    FoldAlike(known, scope, n, s.client, msgs, msgs');
  }
}
