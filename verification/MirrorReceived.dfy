/** The client's nodes told from the messages it received. */
module MirrorReceived {
  import opened Wrappers
  import opened Mirror

  // The client has the node: the dump or a snapshot had it, and it was not removed since.
  predicate Shown(start: Client, msgs: seq<Message>, n: NodeId)
    decreases |msgs|
  {
    if msgs == [] then n in start
    else
      var before, last := msgs[..|msgs| - 1], msgs[|msgs| - 1];
      if last.Dump? then n in last.nodes
      else (last.NodeSnapshot? && last.data.id == n) || (Shown(start, before, n) && last != NodeGone(n))
  }

  // As the last snapshot of the node says.
  predicate ShownAvailable(start: Client, msgs: seq<Message>, n: NodeId)
    decreases |msgs|
  {
    if msgs == [] then n in start && start[n].available
    else
      var before, last := msgs[..|msgs| - 1], msgs[|msgs| - 1];
      if last.Dump? then n in last.nodes && last.nodes[n].available
      else if last.NodeSnapshot? && last.data.id == n then last.data.available
      else ShownAvailable(start, before, n) && last != NodeGone(n)
  }

  // Some snapshot since the dump had an attribute there, and neither endpoint nor node was removed since.
  predicate ShownEndpoint(start: Client, msgs: seq<Message>, n: NodeId, e: nat)
    decreases |msgs|
  {
    if msgs == [] then n in start && e in start[n].endpoints
    else
      var before, last := msgs[..|msgs| - 1], msgs[|msgs| - 1];
      if last.Dump? then n in last.nodes && HasEndpoint(last.nodes[n], e)
      else
        || (last.NodeSnapshot? && last.data.id == n && HasEndpoint(last.data, e))
        || (ShownEndpoint(start, before, n, e) && last != NodeGone(n) && last != EndpointGone(n, e))
  }

  predicate HasEndpoint(d: NodeData, e: nat) {
    exists p :: p in d.attributes && p.endpoint == e
  }

  // The value last sent of an attribute the client knows.
  function ShownValue(known: Known, start: Client, msgs: seq<Message>, n: NodeId, p: Path): Option<Value>
    decreases |msgs|
  {
    if msgs == [] then
      if n in start && p.endpoint in start[n].endpoints then ValueIn(start[n].endpoints[p.endpoint], p) else None
    else
      var before, last := msgs[..|msgs| - 1], msgs[|msgs| - 1];
      if last.Dump? then
        if n in last.nodes && (p.cluster, p.attribute) in known then ValueIn(last.nodes[n].attributes, p) else None
      else if last == NodeGone(n) || last == EndpointGone(n, p.endpoint) then None
      else if last.NodeSnapshot? && last.data.id == n && p in last.data.attributes && (p.cluster, p.attribute) in known
      then Some(last.data.attributes[p])
      else if last.AttributeUpdate? && last.id == n && last.path == p && (p.cluster, p.attribute) in known
              && ShownEndpoint(start, before, n, p.endpoint)
      then Some(last.value)
      else ShownValue(known, start, before, n, p)
  }

  function ValueIn(values: map<Path, Value>, p: Path): Option<Value> {
    if p in values then Some(values[p]) else None
  }

  // Node n, and of it the endpoint and the value of p, are as the messages tell.
  ghost predicate Shows(known: Known, start: Client, msgs: seq<Message>, c: Client, n: NodeId, p: Path) {
    && (n in c <==> Shown(start, msgs, n))
    && (ShownAvailable(start, msgs, n) <==> n in c && c[n].available)
    && (ShownEndpoint(start, msgs, n, p.endpoint) <==> n in c && p.endpoint in c[n].endpoints)
    && ShownValue(known, start, msgs, n, p) == ClientValue(c, n, p)
  }

  function ClientValue(c: Client, n: NodeId, p: Path): Option<Value> {
    if n in c && p.endpoint in c[n].endpoints then ValueIn(c[n].endpoints[p.endpoint], p) else None
  }

  lemma UpdateShows(known: Known, m: ClientNode, d: NodeData, p: Path)
    ensures var u := Update(known, m, d);
      && u.available == d.available
      && (p.endpoint in u.endpoints <==> p.endpoint in m.endpoints || HasEndpoint(d, p.endpoint))
      && (p.endpoint in u.endpoints ==>
            ValueIn(u.endpoints[p.endpoint], p) ==
              if p in d.attributes && (p.cluster, p.attribute) in known then Some(d.attributes[p])
              else if p.endpoint in m.endpoints then ValueIn(m.endpoints[p.endpoint], p) else None)
      && (p in d.attributes ==> p.endpoint in u.endpoints)
  {
    if p in d.attributes { assert p.endpoint in Endpoints(d.attributes); }
  }

  lemma MessageShows(known: Known, start: Client, before: seq<Message>, m: Message, c: Client, n: NodeId, p: Path)
    requires Shows(known, start, before, c, n, p)
    ensures Apply(known, c, m).None? <==> m.AttributeUpdate? && m.id !in c
    ensures Apply(known, c, m).Some? ==> Shows(known, start, before + [m], Apply(known, c, m).value, n, p)
  {
    hide Update, HasEndpoint, Shows;
    match m
    case Dump(_) => DumpShows(known, start, before, m, c, n, p);
    case NodeSnapshot(_) => SnapshotShows(known, start, before, m, c, n, p);
    case AttributeUpdate(_, _, _) => AttributeShows(known, start, before, m, c, n, p);
    case _ => GoneShows(known, start, before, m, c, n, p);
  }

  lemma DumpShows(known: Known, start: Client, before: seq<Message>, m: Message, c: Client, n: NodeId, p: Path)
    requires m.Dump?
    ensures Apply(known, c, m).Some? && Shows(known, start, before + [m], Apply(known, c, m).value, n, p)
  {
    hide Update, HasEndpoint;
    assert (before + [m])[..|before|] == before;
    if n in m.nodes { UpdateShows(known, EMPTY, m.nodes[n], p); }
  }

  lemma SnapshotShows(known: Known, start: Client, before: seq<Message>, m: Message, c: Client, n: NodeId, p: Path)
    requires Shows(known, start, before, c, n, p) && m.NodeSnapshot?
    ensures Apply(known, c, m).Some? && Shows(known, start, before + [m], Apply(known, c, m).value, n, p)
  {
    hide Update, HasEndpoint;
    assert (before + [m])[..|before|] == before;
    UpdateShows(known, if m.data.id in c then c[m.data.id] else EMPTY, m.data, p);
  }

  lemma AttributeShows(known: Known, start: Client, before: seq<Message>, m: Message, c: Client, n: NodeId, p: Path)
    requires Shows(known, start, before, c, n, p) && m.AttributeUpdate?
    ensures Apply(known, c, m).None? <==> m.id !in c
    ensures Apply(known, c, m).Some? ==> Shows(known, start, before + [m], Apply(known, c, m).value, n, p)
  {
    assert (before + [m])[..|before|] == before;
  }

  lemma GoneShows(known: Known, start: Client, before: seq<Message>, m: Message, c: Client, n: NodeId, p: Path)
    requires Shows(known, start, before, c, n, p) && (m.NodeGone? || m.EndpointGone? || m.Notice?)
    ensures Apply(known, c, m).Some? && Shows(known, start, before + [m], Apply(known, c, m).value, n, p)
  {
    assert (before + [m])[..|before|] == before;
  }

  // No message is an attribute of a node the client does not have then.
  predicate NoStrangers(start: Client, msgs: seq<Message>)
    decreases |msgs|
  {
    msgs != [] ==>
      var before, last := msgs[..|msgs| - 1], msgs[|msgs| - 1];
      NoStrangers(start, before) && (last.AttributeUpdate? ==> Shown(start, before, last.id))
  }

  /** Receiving any messages fails exactly if one is an attribute of a node the client does not have then.
      Otherwise the client has the nodes, the endpoints and the values the messages tell: removed endpoints
      are gone with their values, and an attribute of an endpoint it does not have leaves no trace. */
  lemma {:induction false} FoldShows(known: Known, start: Client, msgs: seq<Message>, n: NodeId, p: Path)
    ensures Fold(known, start, msgs).Some? <==> NoStrangers(start, msgs)
    ensures Fold(known, start, msgs).Some? ==> Shows(known, start, msgs, Fold(known, start, msgs).value, n, p)
    decreases |msgs|
  {
    hide Apply;
    if msgs != [] {
      var before, last := msgs[..|msgs| - 1], msgs[|msgs| - 1];
      assert before + [last] == msgs;
      FoldShows(known, start, before, n, p);
      var r := Fold(known, start, before);
      if r.Some? {
        MessageShows(known, start, before, last, r.value, n, p);
        if last.AttributeUpdate? { FoldShows(known, start, before, last.id, p); }
      }
    }
  }
}
