/** The server's nodes told from the steps of the device controller alone, and what a client shows of them. */
module MirrorHistory {
  import opened Wrappers
  import opened Mirror
  import opened MirrorSync

  type Nodes = map<NodeId, NodeData>

  // The server has the node: it was interviewed or imported, and not removed since.
  predicate IsNode(start: Nodes, steps: seq<Step>, n: NodeId)
    decreases |steps|
  {
    if steps == [] then n in start
    else
      var before, last := steps[..|steps| - 1], steps[|steps| - 1];
      || (last.Interview? && last.id == n)
      || (last.ImportNode? && last.data.id == n)
      || (IsNode(start, before, n) && last != NodeRemoved(n))
  }

  // Its last subscription, resubscription, loss or import says so. An interview changes nothing about it.
  predicate IsAvailable(start: Nodes, steps: seq<Step>, n: NodeId)
    decreases |steps|
  {
    if steps == [] then n in start && start[n].available
    else
      var before, last := steps[..|steps| - 1], steps[|steps| - 1];
      if (last.Subscribed? || last.Resubscribed?) && last.id == n then IsNode(start, before, n)
      else if (last.Unavailable? || last.NodeRemoved?) && last.id == n then false
      else if last.ImportNode? && last.data.id == n then last.data.available
      else IsAvailable(start, before, n)
  }

  // The value last read in an interview or a subscription or reported, unless its endpoint went since.
  function ValueOf(start: Nodes, steps: seq<Step>, n: NodeId, p: Path): Option<Value>
    decreases |steps|
  {
    if steps == [] then if n in start then ValueIn(start[n].attributes, p) else None
    else
      var before, last := steps[..|steps| - 1], steps[|steps| - 1];
      if last.Interview? && last.id == n then ValueIn(last.attributes, p)
      else if last.ImportNode? && last.data.id == n then ValueIn(last.data.attributes, p)
      else if last == NodeRemoved(n) || last == EndpointRemoved(n, p.endpoint) then None
      else if last.Subscribed? && last.id == n && p in last.attributes && IsNode(start, before, n) then
        Some(last.attributes[p])
      else if last.AttributeChanged? && last.id == n && last.path == p && IsNode(start, before, n) then Some(last.value)
      else ValueOf(start, before, n, p)
  }

  function ValueIn(attributes: map<Path, Value>, p: Path): Option<Value> {
    if p in attributes then Some(attributes[p]) else None
  }

  ghost function NodesOf(s: State): Nodes
    requires WellFormed(s)
  {
    map n | n in s.nodes :: s.heap[s.nodes[n]]
  }

  // The node is there if the steps say so, with the availability and the attributes they tell.
  ghost predicate Tells(start: Nodes, steps: seq<Step>, nodes: Nodes, n: NodeId) {
    && (n in nodes <==> IsNode(start, steps, n))
    && (n in nodes ==> forall p :: ValueIn(nodes[n].attributes, p) == ValueOf(start, steps, n, p))
    && (IsAvailable(start, steps, n) <==> n in nodes && nodes[n].available)
  }

  ghost predicate Happens(known: Known, states: seq<State>, steps: seq<Step>) {
    && |states| == |steps| + 1 && WellFormed(states[0])
    && forall i :: 0 <= i < |steps| ==>
      WellFormed(states[i]) && Enabled(states[i], steps[i]) && states[i + 1] == Next(known, states[i], steps[i])
  }

  // A step that leaves the server's nodes alone.
  predicate OfConnection(step: Step) {
    step.Announce? || step.OtherEvent? || step.StartListening? || step.CommandResult? || step.RunCallback?
    || step.WriteMessage? || step.Receive? || step.Reconnect?
  }

  lemma ConnectionKeeps(known: Known, s: State, step: Step)
    requires WellFormed(s) && OfConnection(step)
    ensures var s' := Next(known, s, step);
      && s'.nodes == s.nodes && s'.heap == s.heap
      && forall e :: e in s'.loop && e.SnapshotOf? ==> e.node in s.heap
  {
    hide Apply, Serialize, Send;
    SendKeeps(s, Notice);
    SendKeeps(s, Dump(NodesOf(s)));
    if step.RunCallback? && s.loop != [] {
      assert forall e :: e in s.loop[1..] ==> e in s.loop;
      SendKeeps(s.(loop := s.loop[1..]), Serialize(s.heap, s.loop[0]));
    }
  }

  lemma SendKeeps(s: State, msg: Message)
    ensures Send(s, msg).nodes == s.nodes && Send(s, msg).heap == s.heap
    ensures Send(s, msg).loop == [] || Send(s, msg).loop == s.loop
  {
  }

  // A new object for a node.
  lemma StoreKeeps(s: State, node: MatterNodeData, d: NodeData)
    requires WellFormed(s) && node !in s.heap
    ensures WellFormed(StoreNode(s, node, d)) && NodesOf(StoreNode(s, node, d)) == NodesOf(s)[d.id := d]
  {
    hide Signal;
    var s1 := s.(heap := s.heap[node := d], nodes := s.nodes[d.id := node]);
    assert forall n :: n in s1.nodes && n != d.id ==> s1.heap[s1.nodes[n]] == s.heap[s.nodes[n]];
    SignalKeeps(s1, SnapshotOf(node));
  }

  lemma SignalKeeps(s: State, e: LoopEvent)
    requires WellFormed(s) && (e.SnapshotOf? ==> e.node in s.heap)
    ensures WellFormed(Signal(s, e)) && Signal(s, e).nodes == s.nodes && Signal(s, e).heap == s.heap
  {
  }

  // An object changed in place: no two nodes share one.
  lemma MutateKeeps(s: State, n: NodeId, d: NodeData, e: LoopEvent)
    requires WellFormed(s) && n in s.nodes && d.id == n && (e.SnapshotOf? ==> e.node in s.heap)
    ensures WellFormed(Mutate(s, n, d, e)) && NodesOf(Mutate(s, n, d, e)) == NodesOf(s)[n := d]
  {
    hide Signal;
    var s1 := s.(heap := s.heap[s.nodes[n] := d]);
    assert forall m :: m in s.nodes && m != n ==> s.nodes[m] != s.nodes[n];
    SignalKeeps(s1, e);
  }

  // What each step makes of the nodes.
  function After(nodes: Nodes, step: Step): Nodes {
    if OfConnection(step) then nodes
    else if step.ImportNode? then nodes[step.data.id := step.data]
    else if step.NodeRemoved? then nodes - {step.id}
    else if step.Interview? then
      nodes[step.id := NodeData(step.id, step.id in nodes && nodes[step.id].available, step.attributes)]
    else if step.id in nodes then nodes[step.id := Changed(nodes[step.id], step)]
    else nodes
  }

  function Changed(d: NodeData, step: Step): NodeData
    requires !OfConnection(step)
  {
    if step.Subscribed? then NodeData(d.id, true, d.attributes + step.attributes)
    else if step.Unavailable? then NodeData(d.id, false, d.attributes)
    else if step.Resubscribed? then NodeData(d.id, true, d.attributes)
    else if step.AttributeChanged? then NodeData(d.id, d.available, d.attributes[step.path := step.value])
    else if step.EndpointRemoved? then
      NodeData(d.id, d.available, map p | p in d.attributes && p.endpoint != step.endpoint :: d.attributes[p])
    else d
  }

  lemma NextNodes(known: Known, s: State, step: Step)
    requires WellFormed(s) && Enabled(s, step)
    ensures WellFormed(Next(known, s, step))
    ensures NodesOf(Next(known, s, step)) == After(NodesOf(s), step)
  {
    hide Apply, StoreNode, Mutate;
    if OfConnection(step) {
      ConnectionKeeps(known, s, step);
    } else if step.Interview? {
      StoreKeeps(s, step.node, NodeData(step.id, step.id in s.nodes && s.heap[s.nodes[step.id]].available,
        step.attributes));
    } else if step.ImportNode? {
      StoreKeeps(s, step.node, step.data);
    } else if step.NodeRemoved? {
      RemovalKeeps(s, step.id);
    } else if step.id in s.nodes {
      ChangeKeeps(known, s, step);
    }
  }

  lemma RemovalKeeps(s: State, n: NodeId)
    requires WellFormed(s)
    ensures var s' := Signal(s.(nodes := s.nodes - {n}), Plain(NodeGone(n)));
      WellFormed(s') && NodesOf(s') == NodesOf(s) - {n} && (n !in s.nodes ==> NodesOf(s) - {n} == NodesOf(s))
  {
  }

  lemma ChangeKeeps(known: Known, s: State, step: Step)
    requires WellFormed(s) && !OfConnection(step)
    requires !step.Interview? && !step.ImportNode? && !step.NodeRemoved? && step.id in s.nodes
    ensures WellFormed(Next(known, s, step))
    ensures NodesOf(Next(known, s, step)) == NodesOf(s)[step.id := Changed(NodesOf(s)[step.id], step)]
  {
    hide Mutate;
    var n, d := step.id, s.heap[s.nodes[step.id]];
    MutateKeeps(s, n, Changed(d, step), SnapshotOf(s.nodes[n]));
    if step.AttributeChanged? {
      MutateKeeps(s, n, Changed(d, step), Plain(AttributeUpdate(n, step.path, step.value)));
    } else if step.EndpointRemoved? {
      MutateKeeps(s, n, Changed(d, step), Plain(EndpointGone(n, step.endpoint)));
    }
    assert NodesOf(s) == NodesOf(s)[n := d];
  }

  lemma StepTells(start: Nodes, before: seq<Step>, step: Step, nodes: Nodes, n: NodeId)
    requires Tells(start, before, nodes, n) && forall m :: m in nodes ==> nodes[m].id == m
    ensures Tells(start, before + [step], After(nodes, step), n)
  {
    assert (before + [step])[..|before|] == before;
  }

  /** Over every run the server's nodes are those its steps tell: there from the first interview to the
      removal, available as the last subscription, resubscription, loss or import says, through any number of
      interviews, and with the values last read or reported. */
  lemma {:induction false} RunTells(known: Known, states: seq<State>, steps: seq<Step>, n: NodeId)
    requires Happens(known, states, steps)
    ensures WellFormed(states[|steps|]) && Tells(NodesOf(states[0]), steps, NodesOf(states[|steps|]), n)
    decreases |steps|
  {
    hide Next, After, Enabled;
    if steps != [] {
      var k := |steps| - 1;
      assert states[..k + 1][0] == states[0] && states[..k + 1][k] == states[k];
      RunTells(known, states[..k + 1], steps[..k], n);
      NextNodes(known, states[k], steps[k]);
      assert steps[..k] + [steps[k]] == steps;
      StepTells(NodesOf(states[0]), steps[..k], steps[k], NodesOf(states[k]), n);
    }
  }

  /** With nothing left on its way after an orderly run, this is what the client shows: the same nodes, just
      as available, and the same values of all attributes it knows. */
  lemma QuietTells(known: Known, states: seq<State>, steps: seq<Step>, n: NodeId)
    requires IsRun(known, states, steps) && Synced(known, states[0]) && Quiet(states[|steps|])
    ensures WellFormed(states[0])
    ensures var start, c := NodesOf(states[0]), states[|steps|].client;
      && (n in c <==> IsNode(start, steps, n))
      && (n in c ==>
            && (c[n].available <==> IsAvailable(start, steps, n))
            && forall p :: ValueOf(start, steps, n, p).Some? && IsKnown(known, p) ==>
                 p.endpoint in c[n].endpoints
                 && ValueIn(c[n].endpoints[p.endpoint], p) == ValueOf(start, steps, n, p))
  {
    hide Next, IsNode, IsAvailable, ValueOf, IsKnown, Fold;
    RunSynced(known, states, steps);
    RunTells(known, states, steps, n);
    QuietAgrees(known, states[|steps|]);
  }

  /* ---- What is announced ---- */

  predicate OfController(step: Step) {
    !OfConnection(step) || step.Announce? || step.OtherEvent?
  }

  function IdOf(step: Step): NodeId
    requires OfController(step) && !step.OtherEvent?
  {
    if step.ImportNode? then step.data.id else step.id
  }

  // Whether a step that follows `before` is worth an event: lost and regained devices once each.
  predicate Newsworthy(start: Nodes, before: seq<Step>, step: Step)
    requires OfController(step)
  {
    if step.Interview? || step.ImportNode? || step.OtherEvent? then true
    else if step.Unavailable? then IsAvailable(start, before, step.id)
    else if step.Resubscribed? then IsNode(start, before, step.id) && !IsAvailable(start, before, step.id)
    else IsNode(start, before, step.id)
  }

  // The event: a change of attributes is told by itself, what is gone by its id, all else by the live object.
  ghost predicate Tidings(step: Step, s': State, e: LoopEvent)
    requires OfController(step)
  {
    if step.AttributeChanged? then e == Plain(AttributeUpdate(step.id, step.path, step.value))
    else if step.EndpointRemoved? then e == Plain(EndpointGone(step.id, step.endpoint))
    else if step.NodeRemoved? then e == Plain(NodeGone(step.id))
    else if step.OtherEvent? then e == Plain(Notice)
    else IdOf(step) in s'.nodes && e == SnapshotOf(s'.nodes[IdOf(step)])
  }

  /** Each step of the controller queues one event for a listening client, after all others, or none, as what
      happened before decides; messages already on their way are not touched. */
  lemma RunAnnounces(known: Known, states: seq<State>, steps: seq<Step>)
    requires Happens(known, states, steps) && steps != [] && OfController(steps[|steps| - 1])
    requires states[|steps| - 1].phase == Listening
    ensures WellFormed(states[0])
    ensures var k := |steps| - 1;
      var s, s', step := states[k], states[k + 1], steps[k];
      && s'.outbox == s.outbox && s'.socket == s.socket && s'.client == s.client && s'.phase == Listening
      && if Newsworthy(NodesOf(states[0]), steps[..k], step)
         then |s'.loop| == |s.loop| + 1 && s'.loop[..|s.loop|] == s.loop && Tidings(step, s', s'.loop[|s.loop|])
         else s'.loop == s.loop
  {
    hide IsNode, IsAvailable, Next, Newsworthy, Tidings;
    var k := |steps| - 1;
    assert states[..k + 1][0] == states[0] && states[..k + 1][k] == states[k];
    if !steps[k].OtherEvent? {
      RunTells(known, states[..k + 1], steps[..k], IdOf(steps[k]));
    }
    StepAnnounces(known, NodesOf(states[0]), steps[..k], states[k], steps[k]);
  }

  lemma StepAnnounces(known: Known, start: Nodes, before: seq<Step>, s: State, step: Step)
    requires WellFormed(s) && OfController(step) && s.phase == Listening
    requires step.OtherEvent? || Tells(start, before, NodesOf(s), IdOf(step))
    ensures var s' := Next(known, s, step);
      && s'.outbox == s.outbox && s'.socket == s.socket && s'.client == s.client && s'.phase == Listening
      && if Newsworthy(start, before, step)
         then |s'.loop| == |s.loop| + 1 && s'.loop[..|s.loop|] == s.loop && Tidings(step, s', s'.loop[|s.loop|])
         else s'.loop == s.loop
  {
    hide IsNode, IsAvailable, ValueOf;
  }
}
