/** `MatterNode` and `MatterClient` as the objects they are, proved to do what `Mirror` says. */
module MirrorClient {
  import opened Wrappers
  import opened Mirror

  /* ---- One more iteration ---- */

  function AtEndpoint(attributes: map<Path, Value>, e: nat): map<Path, Value> {
    map p | p in attributes && p.endpoint == e :: attributes[p]
  }

  function Sorted(attributes: map<Path, Value>): map<nat, map<Path, Value>> {
    map e | e in Endpoints(attributes) :: AtEndpoint(attributes, e)
  }

  lemma SortedAt(attributes: map<Path, Value>)
    ensures Sorted(attributes).Keys == Endpoints(attributes)
    ensures forall e :: e in Endpoints(attributes) ==> Sorted(attributes)[e] == AtEndpoint(attributes, e)
    ensures forall e, p :: e in Endpoints(attributes) && p in Sorted(attributes)[e] ==> p.endpoint == e
  {
    hide Endpoints;
  }

  lemma SortedNone(attributes: map<Path, Value>)
    ensures Sorted(attributes - attributes.Keys) == map[]
  {
  }

  lemma SortedMore(attributes: map<Path, Value>, todo: set<Path>, p: Path)
    requires p in attributes && p in todo
    ensures var before := Sorted(attributes - todo);
      Sorted(attributes - (todo - {p}))
        == before[p.endpoint := (if p.endpoint in before then before[p.endpoint] else map[])[p := attributes[p]]]
  {
    var some, more := attributes - todo, attributes - (todo - {p});
    assert more == some[p := attributes[p]];
    EndpointsMore(some, p, attributes[p]);
    if p.endpoint !in Endpoints(some) { NothingThere(some, p.endpoint); }
    forall e | e in Endpoints(more)
      ensures AtEndpoint(more, e) == if e == p.endpoint then AtEndpoint(some, e)[p := attributes[p]]
        else AtEndpoint(some, e)
    {
    }
  }

  lemma EndpointsMore(attributes: map<Path, Value>, p: Path, v: Value)
    ensures Endpoints(attributes[p := v]) == Endpoints(attributes) + {p.endpoint}
  {
    assert p in attributes[p := v];
    forall q | q in attributes ensures q.endpoint in Endpoints(attributes[p := v]) { assert q in attributes[p := v]; }
  }

  lemma NothingThere(attributes: map<Path, Value>, e: nat)
    requires e !in Endpoints(attributes)
    ensures AtEndpoint(attributes, e) == map[]
  {
    forall q | q in attributes ensures q.endpoint != e { assert q.endpoint in Endpoints(attributes); }
  }

  lemma KnownAtEndpoint(known: Known, attributes: map<Path, Value>, e: nat)
    ensures KnownValues(known, AtEndpoint(attributes, e), e) == KnownValues(known, attributes, e)
  {
  }

  lemma KnownNone(known: Known, attributes: map<Path, Value>, e: nat, values: map<Path, Value>)
    ensures values + KnownValues(known, attributes - attributes.Keys, e) == values
  {
  }

  lemma KnownMore(known: Known, attributes: map<Path, Value>, todo: set<Path>, p: Path, values: map<Path, Value>)
    requires p in attributes && p in todo
    ensures values + KnownValues(known, attributes - (todo - {p}), p.endpoint) ==
      var before := values + KnownValues(known, attributes - todo, p.endpoint);
      if IsKnown(known, p) then before[p := attributes[p]] else before
  {
    hide IsKnown;
    var more := KnownValues(known, attributes - (todo - {p}), p.endpoint);
    var before := KnownValues(known, attributes - todo, p.endpoint);
    assert more == if IsKnown(known, p) then before[p := attributes[p]] else before;
  }

  // The endpoints once those in `done` are updated.
  ghost function UpdatedSome(known: Known, m: ClientNode, attributes: map<Path, Value>,
                             done: set<nat>): map<nat, map<Path, Value>> {
    map e | e in m.endpoints.Keys + done :: if e in done then ValuesOf(m, e) + KnownValues(known, attributes, e)
      else ValuesOf(m, e)
  }

  lemma UpdatedNone(known: Known, m: ClientNode, attributes: map<Path, Value>)
    ensures forall s: set<nat> :: UpdatedSome(known, m, attributes, s - s) == m.endpoints
  {
    forall s: set<nat> ensures UpdatedSome(known, m, attributes, s - s) == m.endpoints {
      assert s - s == {};
    }
  }

  lemma UpdatedStep(known: Known, m: ClientNode, attributes: map<Path, Value>, done: set<nat>, e: nat)
    requires e !in done
    ensures var some := UpdatedSome(known, m, attributes, done);
      && (if e in some then some[e] else map[]) == ValuesOf(m, e)
      && UpdatedSome(known, m, attributes, done + {e}) == some[e := ValuesOf(m, e) + KnownValues(known, attributes, e)]
  {
    hide KnownValues;
  }

  // The availability does not matter.
  lemma UpdatedFrom(known: Known, m: ClientNode, m': ClientNode, attributes: map<Path, Value>)
    requires m'.endpoints == m.endpoints
    ensures UpdatedSome(known, m', attributes, Endpoints(attributes))
      == UpdatedSome(known, m, attributes, Endpoints(attributes))
  {
    hide KnownValues, Endpoints;
    forall e ensures ValuesOf(m', e) == ValuesOf(m, e) {}
  }

  lemma UpdatedAll(known: Known, m: ClientNode, d: NodeData)
    ensures ClientNode(d.available, UpdatedSome(known, m, d.attributes, Endpoints(d.attributes)))
      == Mirror.Update(known, m, d)
  {
    var some, all := UpdatedSome(known, m, d.attributes, Endpoints(d.attributes)), Mirror.Update(known, m, d).endpoints;
    assert some.Keys == all.Keys;
    forall e | e in some ensures some[e] == all[e] {
      if e !in Endpoints(d.attributes) {
        assert KnownValues(known, d.attributes, e) == map[] by {
          assert forall p :: p in d.attributes ==> p.endpoint in Endpoints(d.attributes);
        }
      }
    }
  }

  lemma DumpApplied(known: Known, dump: map<NodeId, NodeData>, c': Client)
    requires c'.Keys == dump.Keys && forall n :: n in dump ==> c'[n] == Mirror.Update(known, EMPTY, dump[n])
    ensures forall c: Client :: Apply(known, c, Dump(dump)) == Some(c')
  {
    hide Mirror.Update;
    forall c: Client ensures Apply(known, c, Dump(dump)) == Some(c') {
      assert Apply(known, c, Dump(dump)).value == c';
    }
  }

  class MatterNode {
    const known: Known
    const id: NodeId
    var available: bool
    var endpoints: map<nat, map<Path, Value>>

    function View(): ClientNode
      reads this
    {
      ClientNode(available, endpoints)
    }

    constructor (known: Known, d: NodeData)
      ensures this.known == known && id == d.id && View() == Mirror.Update(known, EMPTY, d)
    {
      this.known, id := known, d.id;
      available, endpoints := false, map[];
      new;
      Update(d);
    }

    // Attributes are first sorted by endpoint, then each endpoint takes its own.
    method Update(d: NodeData)
      modifies this
      ensures View() == Mirror.Update(known, old(View()), d)
    {
      hide Sorted, UpdatedSome, Mirror.Update;
      ghost var m := View();
      available := d.available;
      var endpointData := SortByEndpoint(d.attributes);
      UpdateEndpoints(endpointData, d.attributes);
      UpdatedFrom(known, m, ClientNode(d.available, m.endpoints), d.attributes);
      UpdatedAll(known, m, d);
    }

    // The second loop.
    method UpdateEndpoints(endpointData: map<nat, map<Path, Value>>, ghost attributes: map<Path, Value>)
      requires endpointData == Sorted(attributes)
      modifies this`endpoints
      ensures endpoints == UpdatedSome(known, old(View()), attributes, Endpoints(attributes))
    {
      hide KnownValues, Endpoints, UpdatedSome, Sorted, AtEndpoint;
      ghost var m := View();
      var todo := endpointData.Keys;
      SortedAt(attributes);
      UpdatedNone(known, m, attributes);
      while todo != {}
        invariant todo <= endpointData.Keys
        invariant endpoints == UpdatedSome(known, m, attributes, endpointData.Keys - todo)
      {
        var e :| e in todo;
        ghost var done := endpointData.Keys - todo;
        UpdatedStep(known, m, attributes, done, e);
        if e !in endpoints {
          endpoints := endpoints[e := map[]];
        }
        KnownAtEndpoint(known, attributes, e);
        UpdateEndpoint(e, endpointData[e]);
        todo := todo - {e};
        assert endpointData.Keys - todo == done + {e};
      }
      assert endpointData.Keys - todo == Endpoints(attributes);
    }

    method SortByEndpoint(attributes: map<Path, Value>) returns (endpointData: map<nat, map<Path, Value>>)
      ensures endpointData == Sorted(attributes)
    {
      hide Sorted;
      endpointData := map[];
      var todo := attributes.Keys;
      SortedNone(attributes);
      while todo != {}
        invariant todo <= attributes.Keys
        invariant endpointData == Sorted(attributes - todo)
      {
        var p :| p in todo;
        SortedMore(attributes, todo, p);
        if p.endpoint !in endpointData {
          endpointData := endpointData[p.endpoint := map[]];
        }
        endpointData := endpointData[p.endpoint := endpointData[p.endpoint][p := attributes[p]]];
        todo := todo - {p};
      }
      assert attributes - {} == attributes;
    }

    // `MatterEndpoint.update`
    method UpdateEndpoint(e: nat, attributes: map<Path, Value>)
      requires e in endpoints && forall p :: p in attributes ==> p.endpoint == e
      modifies this`endpoints
      ensures endpoints == old(endpoints)[e := old(endpoints)[e] + KnownValues(known, attributes, e)]
    {
      hide KnownValues;
      var todo := attributes.Keys;
      KnownNone(known, attributes, e, old(endpoints)[e]);
      while todo != {}
        invariant todo <= attributes.Keys
        invariant endpoints.Keys == old(endpoints).Keys
        invariant forall x :: x in endpoints && x != e ==> endpoints[x] == old(endpoints)[x]
        invariant endpoints[e] == old(endpoints)[e] + KnownValues(known, attributes - todo, e)
      {
        var p :| p in todo;
        KnownMore(known, attributes, todo, p, old(endpoints)[e]);
        SetAttributeValue(p, attributes[p]);
        todo := todo - {p};
      }
      assert attributes - {} == attributes;
    }

    // `MatterEndpoint.set_attribute_value`
    method SetAttributeValue(p: Path, v: Value)
      requires p.endpoint in endpoints
      modifies this`endpoints
      ensures View() == SetAttribute(known, old(View()), p, v)
    {
      if !IsKnown(known, p) {
        return;
      }
      endpoints := endpoints[p.endpoint := endpoints[p.endpoint][p := v]];
    }

    method UpdateAttribute(p: Path, v: Value)
      modifies this`endpoints
      ensures View() == SetAttribute(known, old(View()), p, v)
    {
      if p.endpoint !in endpoints {
        return;
      }
      SetAttributeValue(p, v);
    }

    method DropEndpoint(e: nat)
      modifies this`endpoints
      ensures View() == old(View()).(endpoints := old(endpoints) - {e})
    {
      endpoints := endpoints - {e};
    }
  }

  class MatterClient {
    const known: Known
    var nodes: map<NodeId, MatterNode>

    ghost predicate Valid()
      reads this, nodes.Values
    {
      forall n :: n in nodes ==> nodes[n].known == known && nodes[n].id == n
    }

    ghost function View(): Client
      reads this, nodes.Values
    {
      map n | n in nodes :: nodes[n].View()
    }

    constructor (known: Known)
      ensures this.known == known && Valid() && View() == map[]
    {
      this.known := known;
      nodes := map[];
    }

    // The answer to start_listening replaces all nodes; the dump is keyed by node_id.
    method StartListening(dump: map<NodeId, NodeData>)
      requires forall n :: n in dump ==> dump[n].id == n
      modifies this
      ensures Valid() && fresh(nodes.Values)
      ensures forall c: Client :: Apply(known, c, Dump(dump)) == Some(View())
    {
      hide Mirror.Update, Apply;
      nodes := map[];
      var todo := dump.Keys;
      while todo != {}
        invariant todo <= dump.Keys && nodes.Keys == dump.Keys - todo
        invariant Valid() && fresh(nodes.Values)
        invariant forall n :: n in nodes ==> nodes[n].View() == Mirror.Update(known, EMPTY, dump[n])
      {
        var n :| n in todo;
        AddNode(dump[n]);
        todo := todo - {n};
      }
      DumpApplied(known, dump, View());
    }

    // A node the client did not have.
    method AddNode(d: NodeData)
      requires Valid() && d.id !in nodes
      modifies this
      ensures Valid() && fresh(nodes.Values - old(nodes.Values))
      ensures nodes.Keys == old(nodes).Keys + {d.id} && forall n :: n in old(nodes) ==> nodes[n] == old(nodes)[n]
      ensures nodes[d.id].View() == Mirror.Update(known, EMPTY, d) && fresh(nodes[d.id])
    {
      hide Mirror.Update;
      var node := new MatterNode(known, d);
      nodes := nodes[d.id := node];
    }

    // `_handle_event_message`; false stands for the KeyError.
    method HandleEventMessage(msg: Message) returns (handled: bool)
      requires Valid() && !msg.Dump?
      modifies this, nodes.Values
      ensures Valid() && fresh(nodes.Values - old(nodes.Values))
      ensures handled == Apply(known, old(View()), msg).Some?
      ensures handled ==> Some(View()) == Apply(known, old(View()), msg)
      ensures !handled ==> View() == old(View())
    {
      hide Mirror.Update, SetAttribute;
      match msg {
        case NodeSnapshot(d) => ApplySnapshot(d);
        case NodeGone(n) =>
          ghost var before := View();
          nodes := nodes - {n};
          assert View() == before - {n};
        case EndpointGone(n, e) =>
          if n in nodes {
            ghost var before := View();
            nodes[n].DropEndpoint(e);
            assert forall m :: m in nodes && m != n ==> nodes[m].View() == before[m];
            assert View() == before[n := before[n].(endpoints := before[n].endpoints - {e})];
          }
        case AttributeUpdate(n, p, v) =>
          if n !in nodes {
            return false;
          }
          ghost var before := View();
          nodes[n].UpdateAttribute(p, v);
          assert forall m :: m in nodes && m != n ==> nodes[m].View() == before[m];
          assert View() == before[n := SetAttribute(known, before[n], p, v)];
        case Notice =>
      }
      return true;
    }

    // NODE_ADDED and NODE_UPDATED.
    method ApplySnapshot(d: NodeData)
      requires Valid()
      modifies this, nodes.Values
      ensures Valid() && fresh(nodes.Values - old(nodes.Values))
      ensures var before := old(View());
        View() == before[d.id := Mirror.Update(known, if d.id in before then before[d.id] else EMPTY, d)]
    {
      hide Mirror.Update;
      ghost var before := View();
      if d.id !in nodes {
        AddNode(d);
        assert View() == before[d.id := Mirror.Update(known, EMPTY, d)];
      } else {
        nodes[d.id].Update(d);
        assert forall m :: m in nodes && m != d.id ==> nodes[m].View() == before[m];
        assert View() == before[d.id := Mirror.Update(known, before[d.id], d)];
      }
    }
  }
}
