/** The client mirrors the server: over every run in which attribute changes concern endpoints the
    server already stores, what is on its way to a listening client brings it to exactly the server's
    nodes and availability, and to all the values the server holds. */
module MirrorSync {
  import opened Wrappers
  import opened Mirror

  lemma UpdateReflects(known: Known, m: ClientNode, d: NodeData)
    ensures Reflects(known, Update(known, m, d), d)
  {
    hide IsKnown;
    var u := Update(known, m, d);
    forall p | p in d.attributes
      ensures p.endpoint in u.endpoints
      ensures IsKnown(known, p) ==> p in u.endpoints[p.endpoint] && u.endpoints[p.endpoint][p] == d.attributes[p]
    {
      assert p.endpoint in Endpoints(d.attributes);
      if IsKnown(known, p) { assert p in KnownValues(known, d.attributes, p.endpoint); }
    }
  }

  lemma SignalPending(s: State, e: LoopEvent)
    requires WellFormed(s) && s.phase == Listening && (e.SnapshotOf? ==> e.node in s.heap)
    ensures WellFormed(Signal(s, e)) && Pending(Signal(s, e)) == Pending(s) + [Serialize(s.heap, e)]
  {
    var s' := Signal(s, e);
    assert Queueable(s'.heap, s'.loop);
    assert SerializeAll(s'.heap, s'.loop) == SerializeAll(s.heap, s.loop) + [Serialize(s.heap, e)];
  }

  /** An event is queued for a state all of whose earlier events fold to `c`. */
  lemma SignalSynced(known: Known, s: State, e: LoopEvent, c: Client, c': Client)
    requires WellFormed(s) && s.phase == Listening && (e.SnapshotOf? ==> e.node in s.heap)
    requires Fold(known, s.client, Pending(s)) == Some(c)
    requires Apply(known, c, Serialize(s.heap, e)) == Some(c') && Agrees(known, s, c')
    ensures Synced(known, Signal(s, e))
  {
    hide Fold, Apply, Reflects;
    SignalPending(s, e);
    FoldOneMore(known, s.client, Pending(s), Serialize(s.heap, e));
    assert Agrees(known, Signal(s, e), c');
  }

  // Where no client listens, a change of the server needs no event.
  lemma QuietSynced(known: Known, s: State, s': State, e: LoopEvent)
    requires Synced(known, s) && s.phase != Listening
    requires s' == s.(heap := s'.heap, nodes := s'.nodes)
    requires forall n :: n in s'.nodes ==> s'.nodes[n] in s'.heap && s'.heap[s'.nodes[n]].id == n
    ensures Synced(known, Signal(s', e))
  {
  }

  /* ---- The device controller's steps ---- */

  lemma StoreSynced(known: Known, s: State, node: MatterNodeData, d: NodeData)
    requires Synced(known, s) && node !in s.heap
    ensures Synced(known, StoreNode(s, node, d))
  {
    hide Fold, Reflects, Update;
    var s1 := s.(heap := s.heap[node := d], nodes := s.nodes[d.id := node]);
    if s.phase != Listening {
      QuietSynced(known, s, s1, SnapshotOf(node));
    } else {
      var c := Fold(known, s.client, Pending(s)).value;
      assert Pending(s1) == Pending(s) by { SameSerialized(s.heap, s1.heap, s.loop); }
      var m := Update(known, if d.id in c then c[d.id] else EMPTY, d);
      UpdateReflects(known, if d.id in c then c[d.id] else EMPTY, d);
      SignalSynced(known, s1, SnapshotOf(node), c, c[d.id := m]);
    }
  }

  lemma SameSerialized(heap: map<MatterNodeData, NodeData>, heap': map<MatterNodeData, NodeData>, loop: seq<LoopEvent>)
    requires Queueable(heap, loop) && forall x :: x in heap ==> x in heap' && heap'[x] == heap[x]
    ensures Queueable(heap', loop) && SerializeAll(heap', loop) == SerializeAll(heap, loop)
  {
    assert Queueable(heap', loop);
    forall i | 0 <= i < |loop| ensures SerializeAll(heap', loop)[i] == SerializeAll(heap, loop)[i] {
      assert loop[i] in loop;
    }
  }

  lemma AnnounceSynced(known: Known, s: State, n: NodeId)
    requires Synced(known, s) && n in s.nodes
    ensures Synced(known, Signal(s, SnapshotOf(s.nodes[n])))
  {
    hide Fold, Reflects, Update;
    if s.phase == Listening {
      var c := Fold(known, s.client, Pending(s)).value;
      var d := s.heap[s.nodes[n]];
      UpdateReflects(known, c[n], d);
      SignalSynced(known, s, SnapshotOf(s.nodes[n]), c, c[n := Update(known, c[n], d)]);
    }
  }

  // What the events queued so far lead to once the object of n has changed inside `scope`.
  lemma MutatedFold(known: Known, s: State, n: NodeId, d: NodeData, scope: Scope)
    returns (before: Client, after: Client)
    requires Synced(known, s) && s.phase == Listening && n in s.nodes && DataAlike(scope, s.heap[s.nodes[n]], d)
    ensures var s1 := s.(heap := s.heap[s.nodes[n] := d]);
      && WellFormed(s1)
      && Fold(known, s1.client, Pending(s1)) == Some(after)
      && after.Keys == s.nodes.Keys == before.Keys
      && (forall k :: k in after && k != n ==> Reflects(known, after[k], s1.heap[s1.nodes[k]]))
      && Reflects(known, before[n], s.heap[s.nodes[n]]) && NodeAlike(scope, before[n], after[n])
  {
    hide Fold, Reflects, DataAlike, NodeAlike;
    var s1 := s.(heap := s.heap[s.nodes[n] := d]);
    PendingAlike(known, s, n, d, scope);
    before, after := Fold(known, s.client, Pending(s)).value, Fold(known, s1.client, Pending(s1)).value;
    forall k | k in after && k != n ensures Reflects(known, after[k], s1.heap[s1.nodes[k]]) {
      assert s.nodes[k] != s.nodes[n];
    }
  }

  // A change of any kind followed by a NODE_UPDATED event.
  lemma RefreshSynced(known: Known, s: State, n: NodeId, d: NodeData)
    requires Synced(known, s) && n in s.nodes && d.id == n
    ensures Synced(known, Mutate(s, n, d, SnapshotOf(s.nodes[n])))
  {
    hide Fold, Reflects, Update, NodeAlike;
    var s1 := s.(heap := s.heap[s.nodes[n] := d]);
    if s.phase != Listening {
      SameObjects(s, n, d);
      QuietSynced(known, s, s1, SnapshotOf(s.nodes[n]));
    } else {
      var _, c := MutatedFold(known, s, n, d, Whole);
      UpdateReflects(known, c[n], d);
      SignalSynced(known, s1, SnapshotOf(s.nodes[n]), c, c[n := Update(known, c[n], d)]);
    }
  }

  lemma SameObjects(s: State, n: NodeId, d: NodeData)
    requires WellFormed(s) && n in s.nodes && d.id == n
    ensures WellFormed(s.(heap := s.heap[s.nodes[n] := d]))
  {
  }

  function WithAttribute(d: NodeData, p: Path, v: Value): NodeData {
    d.(attributes := d.attributes[p := v])
  }

  /** The client stores the endpoint of `p` once it has handled everything queued before the change. */
  ghost predicate EndpointExpected(known: Known, s: State, n: NodeId, p: Path, v: Value)
    requires WellFormed(s) && n in s.nodes
  {
    SameObjects(s, n, WithAttribute(s.heap[s.nodes[n]], p, v));
    var s1 := s.(heap := s.heap[s.nodes[n] := WithAttribute(s.heap[s.nodes[n]], p, v)]);
    var c := Fold(known, s.client, Pending(s1));
    c.Some? && n in c.value && p.endpoint in c.value[n].endpoints
  }

  lemma AttributeAlike(d: NodeData, p: Path, v: Value)
    ensures DataAlike(if p.endpoint in Endpoints(d.attributes) then OnePath(p) else OneEndpoint(p.endpoint),
                      d, WithAttribute(d, p, v))
  {
    var d' := WithAttribute(d, p, v);
    forall e | e != p.endpoint || e in Endpoints(d.attributes)
      ensures e in Endpoints(d.attributes) <==> e in Endpoints(d'.attributes)
    {
      if e in Endpoints(d.attributes) {
        var q :| q in d.attributes && q.endpoint == e;
        assert q in d'.attributes;
      }
    }
  }

  // The event carries the value over exactly when the endpoint is there to take it.
  lemma SetReflectsIff(known: Known, before: ClientNode, after: ClientNode, d: NodeData, p: Path, v: Value,
                       scope: Scope)
    requires Reflects(known, before, d) && NodeAlike(scope, before, after)
    requires scope == (if p.endpoint in Endpoints(d.attributes) then OnePath(p) else OneEndpoint(p.endpoint))
    ensures Reflects(known, SetAttribute(known, after, p, v), WithAttribute(d, p, v)) <==> p.endpoint in after.endpoints
    ensures p.endpoint in Endpoints(d.attributes) ==> p.endpoint in after.endpoints
  {
    hide IsKnown;
    var m, d' := SetAttribute(known, after, p, v), WithAttribute(d, p, v);
    assert p in d'.attributes;
    if p.endpoint in Endpoints(d.attributes) {
      var q :| q in d.attributes && q.endpoint == p.endpoint;
      assert q.endpoint in before.endpoints;
    }
    if p.endpoint in after.endpoints {
      forall q | q in d'.attributes
        ensures q.endpoint in m.endpoints
        ensures IsKnown(known, q) ==> q in m.endpoints[q.endpoint] && m.endpoints[q.endpoint][q] == d'.attributes[q]
      {
        if q != p { KeptValue(known, before, after, d, q, scope); }
      }
    }
  }

  lemma KeptValue(known: Known, before: ClientNode, after: ClientNode, d: NodeData, q: Path, scope: Scope)
    requires Reflects(known, before, d) && NodeAlike(scope, before, after)
    requires q in d.attributes && !Hides(scope, q) && !HidesEndpoint(scope, q.endpoint)
    ensures q.endpoint in after.endpoints
    ensures IsKnown(known, q) ==> q in after.endpoints[q.endpoint] && after.endpoints[q.endpoint][q] == d.attributes[q]
  {
    assert ValuesAlike(scope, before.endpoints[q.endpoint], after.endpoints[q.endpoint]);
  }

  /** An attribute change keeps a listening client in step exactly when the client will know the
      endpoint; it will if the server stored the endpoint before. */
  lemma AttributeSyncedIff(known: Known, s: State, n: NodeId, p: Path, v: Value)
    requires Synced(known, s) && n in s.nodes && s.phase == Listening
    ensures Synced(known, Next(known, s, AttributeChanged(n, p, v))) <==> EndpointExpected(known, s, n, p, v)
    ensures p.endpoint in Endpoints(s.heap[s.nodes[n]].attributes) ==> EndpointExpected(known, s, n, p, v)
  {
    hide Fold, Reflects, NodeAlike, DataAlike, SetAttribute, Endpoints;
    var d := s.heap[s.nodes[n]];
    var d' := WithAttribute(d, p, v);
    var s1 := s.(heap := s.heap[s.nodes[n] := d']);
    var scope := if p.endpoint in Endpoints(d.attributes) then OnePath(p) else OneEndpoint(p.endpoint);
    AttributeAlike(d, p, v);
    var before, c := MutatedFold(known, s, n, d', scope);
    SetReflectsIff(known, before[n], c[n], d, p, v, scope);
    var m := SetAttribute(known, c[n], p, v);
    var e := Plain(AttributeUpdate(n, p, v));
    SignalPending(s1, e);
    FoldOneMore(known, s.client, Pending(s1), AttributeUpdate(n, p, v));
    if p.endpoint in c[n].endpoints {
      SignalSynced(known, s1, e, c, c[n := m]);
    } else {
      assert Fold(known, s.client, Pending(Signal(s1, e))) == Some(c[n := m]);
      assert !Agrees(known, Signal(s1, e), c[n := m]);
    }
  }

  lemma AttributeSynced(known: Known, s: State, n: NodeId, p: Path, v: Value)
    requires Synced(known, s) && n in s.nodes
    requires p.endpoint in Endpoints(s.heap[s.nodes[n]].attributes)
    ensures Synced(known, Next(known, s, AttributeChanged(n, p, v)))
  {
    hide Fold, Endpoints;
    if s.phase == Listening {
      AttributeSyncedIff(known, s, n, p, v);
    } else {
      var d' := WithAttribute(s.heap[s.nodes[n]], p, v);
      SameObjects(s, n, d');
      QuietSynced(known, s, s.(heap := s.heap[s.nodes[n] := d']), Plain(AttributeUpdate(n, p, v)));
    }
  }

  lemma EndpointAlike(d: NodeData, e: nat)
    ensures DataAlike(OneEndpoint(e), d, d.(attributes := WithoutEndpoint(d.attributes, e)))
  {
    var d' := d.(attributes := WithoutEndpoint(d.attributes, e));
    forall x | x != e ensures x in Endpoints(d.attributes) <==> x in Endpoints(d'.attributes) {
      if x in Endpoints(d.attributes) {
        var q :| q in d.attributes && q.endpoint == x;
        assert q in d'.attributes;
      }
    }
  }

  lemma EndpointGoneReflects(known: Known, before: ClientNode, after: ClientNode, d: NodeData, e: nat)
    requires Reflects(known, before, d) && NodeAlike(OneEndpoint(e), before, after)
    ensures Reflects(known, after.(endpoints := after.endpoints - {e}),
      d.(attributes := WithoutEndpoint(d.attributes, e)))
  {
    hide IsKnown;
    var m, kept := after.(endpoints := after.endpoints - {e}), WithoutEndpoint(d.attributes, e);
    forall q | q in kept
      ensures q.endpoint in m.endpoints
      ensures IsKnown(known, q) ==> q in m.endpoints[q.endpoint] && m.endpoints[q.endpoint][q] == kept[q]
    {
      KeptValue(known, before, after, d, q, OneEndpoint(e));
    }
  }

  lemma EndpointSynced(known: Known, s: State, n: NodeId, e: nat)
    requires Synced(known, s) && n in s.nodes
    ensures Synced(known, Next(known, s, EndpointRemoved(n, e)))
  {
    hide Fold, Reflects, NodeAlike, DataAlike, WithoutEndpoint;
    var d := s.heap[s.nodes[n]];
    var d' := d.(attributes := WithoutEndpoint(d.attributes, e));
    var s1 := s.(heap := s.heap[s.nodes[n] := d']);
    if s.phase != Listening {
      SameObjects(s, n, d');
      QuietSynced(known, s, s1, Plain(EndpointGone(n, e)));
    } else {
      EndpointAlike(d, e);
      var before, c := MutatedFold(known, s, n, d', OneEndpoint(e));
      EndpointGoneReflects(known, before[n], c[n], d, e);
      SignalSynced(known, s1, Plain(EndpointGone(n, e)), c, c[n := c[n].(endpoints := c[n].endpoints - {e})]);
    }
  }

  lemma RemovalSynced(known: Known, s: State, n: NodeId)
    requires Synced(known, s)
    ensures Synced(known, Signal(s.(nodes := s.nodes - {n}), Plain(NodeGone(n))))
  {
    hide Fold, Reflects;
    var s1 := s.(nodes := s.nodes - {n});
    if s.phase != Listening {
      QuietSynced(known, s, s1, Plain(NodeGone(n)));
    } else {
      var c := Fold(known, s.client, Pending(s)).value;
      assert Pending(s1) == Pending(s);
      SignalSynced(known, s1, Plain(NodeGone(n)), c, c - {n});
    }
  }

  /* ---- The connection's steps ---- */

  // Moving a message along changes nothing the client will see.
  lemma SamePending(known: Known, s: State, s': State)
    requires Synced(known, s) && s.phase == Listening
    requires s' == s.(loop := s'.loop, outbox := s'.outbox, socket := s'.socket)
    requires Queueable(s.heap, s'.loop)
    requires s'.socket + s'.outbox + SerializeAll(s.heap, s'.loop) == Pending(s)
    ensures Synced(known, s')
  {
    hide Fold, Reflects;
    assert WellFormed(s');
  }

  lemma {:induction false} PrefixFolds(known: Known, c: Client, a: seq<Message>, b: seq<Message>)
    requires Fold(known, c, a + b).Some?
    ensures Fold(known, c, a).Some?
  {
    hide Apply;
    if b == [] {
      assert a + b == a;
    } else {
      assert a + b == (a + b[..|b| - 1]) + [b[|b| - 1]];
      FoldOneMore(known, c, a + b[..|b| - 1], b[|b| - 1]);
      PrefixFolds(known, c, a, b[..|b| - 1]);
    }
  }

  // What was already written can still be read and applied.
  lemma CloseSynced(known: Known, s: State, s': State)
    requires Synced(known, s) && (s.phase == Idle || s.phase == Listening)
    requires s' == s.(phase := Closed, loop := [])
    ensures Synced(known, s')
  {
    hide Fold, Reflects;
    if s.phase == Listening {
      assert Pending(s) == s.socket + (s.outbox + SerializeAll(s.heap, s.loop));
      PrefixFolds(known, s.client, s.socket, s.outbox + SerializeAll(s.heap, s.loop));
    } else {
      assert forall m :: m in s.socket ==> m in s.socket + s.outbox;
      FoldNotices(known, s.client, s.socket);
    }
  }

  lemma RunCallbackSynced(known: Known, s: State)
    requires Synced(known, s)
    ensures Synced(known, Next(known, s, RunCallback))
  {
    hide Fold, Reflects;
    var s' := Next(known, s, RunCallback);
    if s.loop != [] && |s.outbox| >= MAX_PENDING_MSG {
      CloseSynced(known, s, s');
    } else if s.loop != [] {
      assert Queueable(s.heap, s'.loop);
      assert s.loop == [s.loop[0]] + s.loop[1..];
      assert SerializeAll(s.heap, s.loop) == [Serialize(s.heap, s.loop[0])] + SerializeAll(s.heap, s.loop[1..]);
      assert s'.socket + s'.outbox + SerializeAll(s.heap, s'.loop) == Pending(s);
      SamePending(known, s, s');
    }
  }

  lemma WriteSynced(known: Known, s: State)
    requires Synced(known, s)
    ensures Synced(known, Next(known, s, WriteMessage))
  {
    hide Fold, Reflects;
    if s.outbox != [] {
      var s' := Next(known, s, WriteMessage);
      assert s.outbox == [s.outbox[0]] + s.outbox[1..];
      assert s'.socket + s'.outbox == s.socket + s.outbox;
      if s.phase == Listening { SamePending(known, s, s'); }
    }
  }

  lemma ReceiveSynced(known: Known, s: State)
    requires Synced(known, s)
    ensures Synced(known, Next(known, s, Receive))
  {
    hide Fold, Reflects, Apply;
    if s.socket != [] {
      var s' := Next(known, s, Receive);
      assert s.socket == [s.socket[0]] + s.socket[1..];
      if s.phase == Listening {
        var rest := s.socket[1..] + s.outbox + SerializeAll(s.heap, s.loop);
        assert Pending(s) == [s.socket[0]] + rest;
        FoldFirst(known, s.client, s.socket[0], rest);
        assert Pending(s') == rest;
      } else if s.phase == Closed {
        FoldFirst(known, s.client, s.socket[0], s.socket[1..]);
      } else {
        assert s.socket[0] in s.socket + s.outbox;
        NoticeApplied(known, s.client);
        assert forall m :: m in s'.socket + s'.outbox ==> m in s.socket + s.outbox;
      }
    }
  }

  lemma NoticeApplied(known: Known, c: Client)
    ensures Apply(known, c, Notice) == Some(c)
  {
  }

  lemma ResultSynced(known: Known, s: State)
    requires Synced(known, s)
    ensures Synced(known, Next(known, s, CommandResult))
  {
    hide Reflects, Fold;
    var s' := Next(known, s, CommandResult);
    if |s.outbox| >= MAX_PENDING_MSG {
      if s.phase == Idle || s.phase == Listening { CloseSynced(known, s, s'); }
    } else if s.phase == Idle {
      assert forall m :: m in s'.socket + s'.outbox ==> m in s.socket + s.outbox || m == Notice;
    } else if s.phase == Listening {
      NoticeInside(known, s.client, s.socket + s.outbox, SerializeAll(s.heap, s.loop));
      assert Pending(s') == s.socket + s.outbox + [Notice] + SerializeAll(s.heap, s.loop);
    }
  }

  lemma {:induction false} NoticeInside(known: Known, c: Client, before: seq<Message>, after: seq<Message>)
    ensures Fold(known, c, before + [Notice] + after) == Fold(known, c, before + after)
  {
    hide Apply;
    if after == [] {
      FoldOneMore(known, c, before, Notice);
      assert before + [Notice] + after == before + [Notice] && before + after == before;
      if Fold(known, c, before).Some? { NoticeApplied(known, Fold(known, c, before).value); }
    } else {
      var k := |after| - 1;
      NoticeInside(known, c, before, after[..k]);
      assert before + [Notice] + after == (before + [Notice] + after[..k]) + [after[k]];
      assert before + after == (before + after[..k]) + [after[k]];
      FoldOneMore(known, c, before + [Notice] + after[..k], after[k]);
      FoldOneMore(known, c, before + after[..k], after[k]);
    }
  }

  lemma StartSynced(known: Known, s: State)
    requires Synced(known, s)
    ensures Synced(known, Next(known, s, StartListening))
  {
    hide Reflects, Update, Fold, Apply;
    var s' := Next(known, s, StartListening);
    if s.phase == Idle && |s.outbox| >= MAX_PENDING_MSG {
      CloseSynced(known, s, s');
    } else if s.phase == Idle {
      var dump := map n | n in s.nodes :: s.heap[s.nodes[n]];
      assert Pending(s') == (s.socket + s.outbox) + [Dump(dump)];
      FoldNotices(known, s.client, s.socket + s.outbox);
      FoldOneMore(known, s.client, s.socket + s.outbox, Dump(dump));
      var c := DumpAgrees(known, s, dump);
      assert Agrees(known, s', c);
    }
  }

  lemma DumpAgrees(known: Known, s: State, dump: map<NodeId, NodeData>) returns (c: Client)
    requires WellFormed(s) && dump == map n | n in s.nodes :: s.heap[s.nodes[n]]
    ensures forall before: Client :: Apply(known, before, Dump(dump)) == Some(c)
    ensures Agrees(known, s, c)
  {
    hide Reflects, Update;
    c := map n | n in dump :: Update(known, EMPTY, dump[n]);
    forall n | n in c ensures Reflects(known, c[n], s.heap[s.nodes[n]]) {
      UpdateReflects(known, EMPTY, dump[n]);
    }
  }

  /* ---- Runs ---- */

  // A change of an attribute concerns an endpoint the server stores.
  ghost predicate Orderly(s: State, step: Step)
    requires WellFormed(s)
  {
    && Enabled(s, step)
    && (step.AttributeChanged? && step.id in s.nodes ==>
      step.path.endpoint in Endpoints(s.heap[s.nodes[step.id]].attributes))
  }

  lemma NextSynced(known: Known, s: State, step: Step)
    requires Synced(known, s) && Orderly(s, step)
    ensures Synced(known, Next(known, s, step))
  {
    hide Fold, Reflects, Endpoints, Apply;
    match step
    case Interview(node, n, attributes) =>
      StoreSynced(known, s, node, NodeData(n, n in s.nodes && s.heap[s.nodes[n]].available, attributes));
    case ImportNode(node, data) => StoreSynced(known, s, node, data);
    case Announce(n) => if n in s.nodes { AnnounceSynced(known, s, n); }
    case Subscribed(n, attributes) =>
      if n in s.nodes {
        var d := s.heap[s.nodes[n]];
        RefreshSynced(known, s, n, d.(available := true, attributes := d.attributes + attributes));
      }
    case Unavailable(n) => if n in s.nodes { RefreshSynced(known, s, n, s.heap[s.nodes[n]].(available := false)); }
    case Resubscribed(n) => if n in s.nodes { RefreshSynced(known, s, n, s.heap[s.nodes[n]].(available := true)); }
    case AttributeChanged(n, p, v) => if n in s.nodes { AttributeSynced(known, s, n, p, v); }
    case EndpointRemoved(n, e) => if n in s.nodes { EndpointSynced(known, s, n, e); }
    case NodeRemoved(n) => RemovalSynced(known, s, n);
    case OtherEvent =>
      if s.phase == Listening {
        var c := Fold(known, s.client, Pending(s)).value;
        NoticeApplied(known, c);
        SignalSynced(known, s, Plain(Notice), c, c);
      }
    case StartListening => StartSynced(known, s);
    case CommandResult => ResultSynced(known, s);
    case RunCallback => RunCallbackSynced(known, s);
    case WriteMessage => WriteSynced(known, s);
    case Receive => ReceiveSynced(known, s);
    case Reconnect => ReconnectSynced(known, s);
  }

  lemma ReconnectSynced(known: Known, s: State)
    requires Synced(known, s)
    ensures Synced(known, Next(known, s, Reconnect))
  {
  }

  ghost predicate IsRun(known: Known, states: seq<State>, steps: seq<Step>) {
    && |states| == |steps| + 1
    && forall i :: 0 <= i < |steps| ==>
         WellFormed(states[i]) && Orderly(states[i], steps[i]) && states[i + 1] == Next(known, states[i], steps[i])
  }

  /** Over every run, interviews, subscriptions, lost and regained devices, attribute changes on stored
      endpoints, removed endpoints and nodes, reconnections and every interleaving of the event loop,
      the writer and the reader: the client never meets an event for an unknown node, and what is on its
      way makes a listening client agree with the server. */
  lemma {:induction false} RunSynced(known: Known, states: seq<State>, steps: seq<Step>)
    requires IsRun(known, states, steps) && Synced(known, states[0])
    ensures Synced(known, states[|steps|])
  {
    hide Synced, Next, Orderly, WellFormed;
    if steps != [] {
      var k := |steps| - 1;
      RunSynced(known, states[..k + 1], steps[..k]);
      var a, b, step := states[k], states[k + 1], steps[k];
      assert states[..k + 1][k] == a;
      NextSynced(known, a, step);
    }
  }

  /** With nothing left on its way, the client has exactly the server's nodes and their availability,
      and every value of a known cluster the server holds. */
  lemma QuietAgrees(known: Known, s: State)
    requires Synced(known, s) && Quiet(s)
    ensures s.client.Keys == s.nodes.Keys
    ensures forall n :: n in s.nodes ==> Reflects(known, s.client[n], s.heap[s.nodes[n]])
  {
    assert Pending(s) == [];
  }

  /* ---- Exactly when the client has nothing more ---- */

  // Every endpoint and value the client has is one the server's data gives.
  ghost predicate NothingStale(known: Known, m: ClientNode, d: NodeData) {
    forall e :: e in m.endpoints ==>
      e in Endpoints(d.attributes) && m.endpoints[e].Keys <= KnownValues(known, d.attributes, e).Keys
  }

  // A client node that reflects the data is the one a new client would build, unless it has more.
  lemma ReflectsExactIff(known: Known, m: ClientNode, d: NodeData)
    requires Reflects(known, m, d)
    ensures m == Update(known, EMPTY, d) <==> NothingStale(known, m, d)
  {
    var anew := Update(known, EMPTY, d);
    FreshValues(known, d);
    if NothingStale(known, m, d) {
      forall e | e in m.endpoints ensures e in anew.endpoints && m.endpoints[e] == anew.endpoints[e] {
        assert m.endpoints[e].Keys <= KnownValues(known, d.attributes, e).Keys;
        EndpointExact(known, m, d, e);
      }
      assert m.endpoints == anew.endpoints by {
        forall e | e in anew.endpoints ensures e in m.endpoints {
          var p :| p in d.attributes && p.endpoint == e;
        }
      }
    }
  }

  lemma FreshValues(known: Known, d: NodeData)
    ensures var anew := Update(known, EMPTY, d);
      && anew.endpoints.Keys == Endpoints(d.attributes)
      && forall e :: e in anew.endpoints ==> anew.endpoints[e] == KnownValues(known, d.attributes, e)
  {
    assert EMPTY.endpoints == map[];
    forall e ensures map[] + KnownValues(known, d.attributes, e) == KnownValues(known, d.attributes, e) { }
  }

  lemma EndpointExact(known: Known, m: ClientNode, d: NodeData, e: nat)
    requires Reflects(known, m, d) && e in m.endpoints
      && m.endpoints[e].Keys <= KnownValues(known, d.attributes, e).Keys
    ensures m.endpoints[e] == KnownValues(known, d.attributes, e)
  {
    var values := KnownValues(known, d.attributes, e);
    forall p | p in values ensures p in m.endpoints[e] && m.endpoints[e][p] == values[p] { assert p in d.attributes; }
  }

  /** Applying a snapshot gives what a client that had nothing before would build if and only if the
      client had no endpoint and no value that the snapshot does not report. */
  lemma UpdateExactIff(known: Known, m: ClientNode, d: NodeData)
    ensures Update(known, m, d) == Update(known, EMPTY, d) <==> NothingStale(known, m, d)
  {
    var u := Update(known, m, d);
    UpdateReflects(known, m, d);
    ReflectsExactIff(known, u, d);
    if NothingStale(known, m, d) {
      forall e | e in u.endpoints
        ensures e in Endpoints(d.attributes) && u.endpoints[e].Keys <= KnownValues(known, d.attributes, e).Keys
      {
        assert ValuesOf(m, e).Keys <= KnownValues(known, d.attributes, e).Keys;
      }
    }
    if NothingStale(known, u, d) {
      forall e | e in m.endpoints
        ensures e in Endpoints(d.attributes) && m.endpoints[e].Keys <= KnownValues(known, d.attributes, e).Keys
      {
        assert e in u.endpoints && m.endpoints[e].Keys <= u.endpoints[e].Keys;
      }
    }
  }

  // Nothing on its way.
  ghost predicate Quiet(s: State) {
    s.phase == Listening && s.loop == [] && s.outbox == [] && s.socket == []
  }

  /** With nothing left on its way, the client holds exactly what a client that connects now would be
      given if and only if it holds no endpoint and no value the server has dropped. */
  lemma QuietExactIff(known: Known, s: State)
    requires Synced(known, s) && Quiet(s)
    ensures s.client.Keys == s.nodes.Keys
    ensures Apply(known, s.client, Dump(map n | n in s.nodes :: s.heap[s.nodes[n]])) == Some(s.client)
      <==> forall n :: n in s.nodes ==> NothingStale(known, s.client[n], s.heap[s.nodes[n]])
  {
    hide Reflects, Update, NothingStale;
    QuietAgrees(known, s);
    var dump := map n | n in s.nodes :: s.heap[s.nodes[n]];
    var anew := map n | n in dump :: Update(known, EMPTY, dump[n]);
    assert Apply(known, s.client, Dump(dump)) == Some(anew);
    forall n | n in s.nodes ensures s.client[n] == anew[n] <==> NothingStale(known, s.client[n], s.heap[s.nodes[n]]) {
      ReflectsExactIff(known, s.client[n], s.heap[s.nodes[n]]);
    }
    assert anew == s.client <==> forall n :: n in s.nodes ==> s.client[n] == anew[n];
  }

  /** A new interview of a node, once it has reached the client, gives exactly the new data if and only if
      it reports all the endpoints and values the client had. */
  lemma InterviewExactIff(known: Known, s: State, node: MatterNodeData, n: NodeId, attributes: map<Path, Value>)
    requires Synced(known, s) && Quiet(s) && n in s.nodes && node !in s.heap
    ensures n in s.client && WellFormed(Next(known, s, Interview(node, n, attributes)))
    ensures var s1 := Next(known, s, Interview(node, n, attributes));
      var d, c := s1.heap[s1.nodes[n]], Fold(known, s1.client, Pending(s1));
      && c.Some? && n in c.value
      && (c.value[n] == Update(known, EMPTY, d) <==> NothingStale(known, s.client[n], d))
  {
    hide Reflects, Update, NothingStale, Fold;
    QuietAgrees(known, s);
    var d := NodeData(n, s.heap[s.nodes[n]].available, attributes);
    var s1 := Next(known, s, Interview(node, n, attributes));
    assert s1 == StoreNode(s, node, d);
    assert Queueable(s1.heap, s1.loop);
    assert Pending(s1) == [] + [NodeSnapshot(d)];
    FoldOneMore(known, s.client, [], NodeSnapshot(d));
    FoldNone(known, s.client);
    UpdateExactIff(known, s.client[n], d);
  }

  lemma FoldNone(known: Known, c: Client)
    ensures Fold(known, c, []) == Some(c)
  {
  }

  /* ---- Why containment, and why stored endpoints ---- */

  function Settled(node: MatterNodeData, d: NodeData, m: ClientNode): State {
    State(map[node := d], map[d.id := node], [], [], [], map[d.id := m], Listening)
  }

  /** An interview that no longer reports an attribute leaves its value on the client. */
  lemma ClientKeepsOldValues(node: MatterNodeData, again: MatterNodeData, p: Path, v: Value)
    requires node != again
    ensures var known: Known := {(p.cluster, p.attribute)};
      var d := NodeData(1, true, map[p := v]);
      var s := Settled(node, d, Update(known, EMPTY, d));
      && Synced(known, s)
      && WellFormed(Next(known, s, Interview(again, 1, map[])))
      && var s1 := Next(known, s, Interview(again, 1, map[]));
      var c := Fold(known, s1.client, Pending(s1));
      && Synced(known, s1)
      && s1.heap[s1.nodes[1]].attributes == map[]
      && c.Some? && ValuesOf(c.value[1], p.endpoint) == map[p := v]
  {
    hide Fold, Apply, Update, Synced;
    var known: Known := {(p.cluster, p.attribute)};
    var d, d' := NodeData(1, true, map[p := v]), NodeData(1, true, map[]);
    var s := Settled(node, d, Update(known, EMPTY, d));
    SettledSynced(known, node, d);
    StoreSynced(known, s, again, d');
    var s1 := Next(known, s, Interview(again, 1, map[]));
    assert s1 == StoreNode(s, again, d');
    assert Queueable(s1.heap, s1.loop);
    assert Pending(s1) == [NodeSnapshot(d')];
    FoldSnapshot(known, 1, Update(known, EMPTY, d), d');
    OneEndpointLeft(known, p, v);
  }

  lemma SettledSynced(known: Known, node: MatterNodeData, d: NodeData)
    ensures Synced(known, Settled(node, d, Update(known, EMPTY, d)))
  {
    hide Update, Reflects;
    UpdateReflects(known, EMPTY, d);
    assert Pending(Settled(node, d, Update(known, EMPTY, d))) == [];
  }

  lemma FoldSnapshot(known: Known, n: NodeId, m: ClientNode, d: NodeData)
    requires d.id == n
    ensures Fold(known, map[n := m], [NodeSnapshot(d)]) == Some(map[n := Update(known, m, d)])
  {
    hide Update;
    FoldOneMore(known, map[n := m], [], NodeSnapshot(d));
    assert [] + [NodeSnapshot(d)] == [NodeSnapshot(d)];
    assert map[n := m][n := Update(known, m, d)] == map[n := Update(known, m, d)];
  }

  lemma OneEndpointLeft(known: Known, p: Path, v: Value)
    requires IsKnown(known, p)
    ensures var d := NodeData(1, true, map[p := v]);
      ValuesOf(Update(known, Update(known, EMPTY, d), NodeData(1, true, map[])), p.endpoint) == map[p := v]
  {
    var d := NodeData(1, true, map[p := v]);
    assert p in d.attributes && p.endpoint in Endpoints(d.attributes);
    var m := Update(known, EMPTY, d);
    assert KnownValues(known, d.attributes, p.endpoint) == map[p := v];
    assert m.endpoints[p.endpoint] == map[p := v];
  }

  /** With nothing queued, a change reaches the client if and only if the client has the endpoint: a change
      on an endpoint neither side stores never does. */
  lemma NewEndpointSyncedIff(known: Known, s: State, n: NodeId, p: Path, v: Value)
    requires Synced(known, s) && Quiet(s) && n in s.nodes
    ensures Synced(known, Next(known, s, AttributeChanged(n, p, v))) <==> p.endpoint in s.client[n].endpoints
  {
    hide Reflects;
    AttributeSyncedIff(known, s, n, p, v);
    SameObjects(s, n, WithAttribute(s.heap[s.nodes[n]], p, v));
    var s1 := s.(heap := s.heap[s.nodes[n] := WithAttribute(s.heap[s.nodes[n]], p, v)]);
    assert Pending(s1) == [];
    assert Pending(s) == [];
  }

  /** For instance the first attribute of a node that had none: the server has it, the client never will
      from the events on their way. */
  lemma FirstAttributeIsMissed(known: Known, node: MatterNodeData, p: Path, v: Value)
    ensures var d := NodeData(1, true, map[]);
      var s := Settled(node, d, Update(known, EMPTY, d));
      && Synced(known, s) && Quiet(s)
      && !Synced(known, Next(known, s, AttributeChanged(1, p, v)))
  {
    hide Synced;
    var d := NodeData(1, true, map[]);
    SettledSynced(known, node, d);
    NewEndpointSyncedIff(known, Settled(node, d, Update(known, EMPTY, d)), 1, p, v);
  }
}
