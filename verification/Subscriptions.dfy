/** The client's subscription index: callbacks filed under one joined key per combination of filters,
    looked up by key when an event arrives, against a linear scan of the live registrations. */
module Subscriptions {
  import opened Wrappers
  import opened Decimal
  import opened AttributePath

  const WILDCARD: string := "*"

  // Compared only for equality, as list.remove does.
  type Callback = nat

  datatype EventType =
    | NodeAdded | NodeUpdated | NodeRemoved | NodeEvent | AttributeUpdated | ServerShutdown
    | ServerInfoUpdated | EndpointAdded | EndpointRemoved | DiscoveryUpdated | CommissioningProgress

  function EventValue(e: EventType): string {
    match e
    case NodeAdded => "node_added"
    case NodeUpdated => "node_updated"
    case NodeRemoved => "node_removed"
    case NodeEvent => "node_event"
    case AttributeUpdated => "attribute_updated"
    case ServerShutdown => "server_shutdown"
    case ServerInfoUpdated => "server_info_updated"
    case EndpointAdded => "endpoint_added"
    case EndpointRemoved => "endpoint_removed"
    case DiscoveryUpdated => "discovery_updated"
    case CommissioningProgress => "commissioning_progress"
  }

  // The filters of one registration; a path filter of "*" is the same as none.
  datatype Filter = Filter(event: Option<EventType>, node: Option<nat>, path: Option<string>)
  datatype Registration = Registration(callback: Callback, filter: Filter)

  function Normal(f: Filter): Filter {
    if f.path == Some(WILDCARD) then f.(path := None) else f
  }

  function EventKey(e: Option<EventType>): string {
    if e.Some? then EventValue(e.value) else WILDCARD
  }

  function NodeKey(n: Option<nat>): string {
    if n.Some? then Str(n.value) else WILDCARD
  }

  function PathKey(p: Option<string>): string {
    if p.Some? then p.value else WILDCARD
  }

  function Joined(event: string, node: string, path: string): string {
    event + [SEPARATOR] + node + [SEPARATOR] + path
  }

  function Key(f: Filter): string {
    Joined(EventKey(f.event), NodeKey(f.node), PathKey(f.path))
  }

  /* ---- The joined key is injective ---- */

  lemma {:induction false} CutsAtFirst(a: string, x: string, b: string, y: string)
    requires SEPARATOR !in a && SEPARATOR !in b
    requires a + [SEPARATOR] + x == b + [SEPARATOR] + y
    ensures a == b && x == y
  {
    var s, t := a + [SEPARATOR] + x, b + [SEPARATOR] + y;
    if a == [] || b == [] {
      assert s[0] == t[0];
      assert a == b == [];
      assert s[1..] == x && t[1..] == y;
    } else {
      assert s[0] == a[0] && t[0] == b[0];
      assert s[1..] == a[1..] + [SEPARATOR] + x && t[1..] == b[1..] + [SEPARATOR] + y;
      CutsAtFirst(a[1..], x, b[1..], y);
      assert a == [a[0]] + a[1..] && b == [b[0]] + b[1..];
    }
  }

  // The joined key determines its three parts although the last may hold separators.
  lemma JoinedInjective(e: string, n: string, p: string, e': string, n': string, p': string)
    requires SEPARATOR !in e && SEPARATOR !in n && SEPARATOR !in e' && SEPARATOR !in n'
    requires Joined(e, n, p) == Joined(e', n', p')
    ensures e == e' && n == n' && p == p'
  {
    assert Joined(e, n, p) == e + [SEPARATOR] + (n + [SEPARATOR] + p);
    assert Joined(e', n', p') == e' + [SEPARATOR] + (n' + [SEPARATOR] + p');
    CutsAtFirst(e, n + [SEPARATOR] + p, e', n' + [SEPARATOR] + p');
    CutsAtFirst(n, p, n', p');
  }

  // Tells event values apart.
  function Decode(s: string): Option<EventType> {
    if s == "node_added" then Some(NodeAdded)
    else if s == "node_updated" then Some(NodeUpdated)
    else if s == "node_removed" then Some(NodeRemoved)
    else if s == "node_event" then Some(NodeEvent)
    else if s == "attribute_updated" then Some(AttributeUpdated)
    else if s == "server_shutdown" then Some(ServerShutdown)
    else if s == "server_info_updated" then Some(ServerInfoUpdated)
    else if s == "endpoint_added" then Some(EndpointAdded)
    else if s == "endpoint_removed" then Some(EndpointRemoved)
    else if s == "discovery_updated" then Some(DiscoveryUpdated)
    else if s == "commissioning_progress" then Some(CommissioningProgress)
    else None
  }

  lemma EventKeyInjective(e: Option<EventType>, e': Option<EventType>)
    requires EventKey(e) == EventKey(e')
    ensures e == e'
  {
    DecodeValue(e);
    DecodeValue(e');
  }

  lemma DecodeValue(e: Option<EventType>)
    ensures SEPARATOR !in EventKey(e) && Decode(EventKey(e)) == e
  {
    match e
    case None => assert |WILDCARD| == 1;
    case Some(NodeUpdated) => assert "node_updated"[5] != "node_removed"[5];
    case Some(NodeRemoved) => assert "node_updated"[5] != "node_removed"[5];
    case Some(NodeAdded) => assert "node_added"[5] != "node_event"[5];
    case Some(NodeEvent) => assert "node_added"[5] != "node_event"[5];
    case Some(AttributeUpdated) => assert "attribute_updated"[0] != "discovery_updated"[0];
    case Some(DiscoveryUpdated) => assert "attribute_updated"[0] != "discovery_updated"[0];
    case _ =>
  }

  lemma NodeKeyInjective(n: Option<nat>, n': Option<nat>)
    ensures SEPARATOR !in NodeKey(n)
    ensures NodeKey(n) == NodeKey(n') ==> n == n'
  {
    if n.Some? && n'.Some? && NodeKey(n) == NodeKey(n') { StrInjective(n.value, n'.value); }
    assert !IsDigit(WILDCARD[0]);
  }

  /** Two registrations share a list exactly when their filters mean the same. */
  lemma KeyInjective(f: Filter, g: Filter)
    ensures Key(f) == Key(g) <==> Normal(f) == Normal(g)
  {
    hide EventKey, NodeKey;
    DecodeValue(f.event);
    DecodeValue(g.event);
    NodeKeyInjective(f.node, g.node);
    NodeKeyInjective(g.node, f.node);
    if Key(f) == Key(g) {
      JoinedInjective(EventKey(f.event), NodeKey(f.node), PathKey(f.path), EventKey(g.event), NodeKey(g.node),
        PathKey(g.path));
      EventKeyInjective(f.event, g.event);
    }
  }

  /* ---- Index and linear scan ---- */

  type Index = map<string, seq<Callback>>

  function Under(index: Index, key: string): seq<Callback> {
    if key in index then index[key] else []
  }

  function RemoveFirst<T(==)>(s: seq<T>, x: T): seq<T> {
    if s == [] then []
    else if s[0] == x then s[1..]
    else [s[0]] + RemoveFirst(s[1..], x)
  }

  datatype Operation = Subscribing(registration: Registration) | Unsubscribing(registration: Registration)

  // Unsubscribing twice raises ValueError and changes nothing.
  function Filed(index: Index, op: Operation): Index {
    var key := Key(op.registration.filter);
    match op
    case Subscribing(r) => index[key := Under(index, key) + [r.callback]]
    case Unsubscribing(r) => if r.callback in Under(index, key) then index[key := RemoveFirst(index[key], r.callback)]
      else index
  }

  function NormalRegistration(r: Registration): Registration {
    r.(filter := Normal(r.filter))
  }

  // The reference: a list of registrations.
  function Listed(regs: seq<Registration>, op: Operation): seq<Registration> {
    match op
    case Subscribing(r) => regs + [NormalRegistration(r)]
    case Unsubscribing(r) => RemoveFirst(regs, NormalRegistration(r))
  }

  function IndexAfter(history: seq<Operation>): Index {
    if history == [] then map[] else Filed(IndexAfter(history[..|history| - 1]), history[|history| - 1])
  }

  function LiveAfter(history: seq<Operation>): seq<Registration> {
    if history == [] then [] else Listed(LiveAfter(history[..|history| - 1]), history[|history| - 1])
  }

  datatype Event = Event(event: EventType, node: Option<nat>, path: Option<string>)

  // Each filter absent or equal.
  predicate Matches(f: Filter, e: Event) {
    && (f.event.None? || f.event.value == e.event)
    && (f.node.None? || f.node == e.node)
    && (f.path.None? || f.path == e.path)
  }

  // The linear scan an index stands in for.
  function Scan(regs: seq<Registration>, e: Event): seq<Callback> {
    if regs == [] then []
    else (if Matches(regs[0].filter, e) then [regs[0].callback] else []) + Scan(regs[1..], e)
  }

  /* ---- Lookup order ---- */

  function Last<T>(s: seq<T>): T
    requires s != []
  {
    s[|s| - 1]
  }

  function Init<T>(s: seq<T>): seq<T>
    requires s != []
  {
    s[..|s| - 1]
  }

  // The three loops of `_signal_event`, each skipping a part the event does not have.
  function PathFilters(e: Option<EventType>, n: Option<nat>, path: Option<string>): seq<Filter> {
    (if path.Some? then [Filter(e, n, path)] else []) + [Filter(e, n, None)]
  }

  function NodeFilters(e: Option<EventType>, node: Option<nat>, path: Option<string>): seq<Filter> {
    (if node.Some? then PathFilters(e, node, path) else []) + PathFilters(e, None, path)
  }

  function FiltersOf(e: Event): seq<Filter> {
    NodeFilters(Some(e.event), e.node, e.path) + NodeFilters(None, e.node, e.path)
  }

  function Dispatch(index: Index, filters: seq<Filter>): seq<Callback> {
    if filters == [] then [] else Dispatch(index, Init(filters)) + Under(index, Key(Last(filters)))
  }

  lemma NothingLookedUp(index: Index)
    ensures Dispatch(index, []) == []
  {
  }

  lemma DispatchOneMore(index: Index, filters: seq<Filter>, f: Filter)
    ensures Dispatch(index, filters + [f]) == Dispatch(index, filters) + Under(index, Key(f))
  {
    hide Key, Under;
    assert Init(filters + [f]) == filters;
  }

  lemma {:induction false} DispatchAppend(index: Index, a: seq<Filter>, b: seq<Filter>)
    ensures Dispatch(index, a + b) == Dispatch(index, a) + Dispatch(index, b)
  {
    hide Key, Under;
    if b == [] {
      assert a + b == a;
    } else {
      DispatchAppend(index, a, Init(b));
      assert a + b == (a + Init(b)) + [Last(b)];
      DispatchOneMore(index, a + Init(b), Last(b));
    }
  }

  /** `MatterClient`, as far as subscriptions are concerned. */
  class EventSubscriptions {
    var subscribers: Index

    constructor ()
      ensures subscribers == map[]
    {
      subscribers := map[];
    }

    // `subscribe_events`; the key is what the returned function closes over.
    method SubscribeEvents(r: Registration) returns (key: string)
      modifies this
      ensures key == Key(r.filter)
      ensures subscribers == Filed(old(subscribers), Subscribing(r))
    {
      var event := if r.filter.event.None? then WILDCARD else EventValue(r.filter.event.value);
      var node := if r.filter.node.None? then WILDCARD else Str(r.filter.node.value);
      var path := if r.filter.path.None? then WILDCARD else r.filter.path.value;
      key := Joined(event, node, path);
      if key !in subscribers {
        subscribers := subscribers[key := []];
      }
      subscribers := subscribers[key := subscribers[key] + [r.callback]];
    }

    // The returned function; false stands for ValueError. The key is one SubscribeEvents returned.
    method Unsubscribe(ghost r: Registration, key: string, callback: Callback) returns (found: bool)
      requires key == Key(r.filter) && callback == r.callback && key in subscribers
      modifies this
      ensures found == (callback in old(subscribers)[key])
      ensures subscribers == Filed(old(subscribers), Unsubscribing(r))
    {
      found := callback in subscribers[key];
      if found {
        subscribers := subscribers[key := RemoveFirst(subscribers[key], callback)];
      }
    }

    // `_signal_event`: the callbacks in the order they are run.
    method SignalEvent(e: Event) returns (ran: seq<Callback>)
      ensures ran == Dispatch(subscribers, FiltersOf(e))
    {
      hide PathFilters, Dispatch;
      ran := [];
      ghost var looked: seq<Filter> := [];
      NothingLookedUp(subscribers);
      for i := 0 to 2
        invariant ran == Dispatch(subscribers, looked)
        invariant looked == if i == 0 then [] else if i == 1 then NodeFilters(Some(e.event), e.node, e.path)
          else FiltersOf(e)
      {
        var event := if i == 0 then Some(e.event) else None;
        ghost var before := looked;
        for j := 0 to 2
          invariant ran == Dispatch(subscribers, looked)
          invariant looked == before + if j == 0 || (j == 1 && e.node.None?) then []
            else if j == 1 then PathFilters(event, e.node, e.path) else NodeFilters(event, e.node, e.path)
        {
          var node := if j == 0 then e.node else None;
          if j == 0 && e.node.None? {
            continue;
          }
          var more := SignalPaths(event, node, e.path);
          DispatchAppend(subscribers, looked, PathFilters(event, node, e.path));
          ran := ran + more;
          looked := looked + PathFilters(event, node, e.path);
        }
      }
    }

    // The innermost loops.
    method SignalPaths(event: Option<EventType>, node: Option<nat>, path: Option<string>) returns (ran: seq<Callback>)
      ensures ran == Dispatch(subscribers, PathFilters(event, node, path))
    {
      hide Key, Dispatch, Under;
      ran := [];
      ghost var looked: seq<Filter> := [];
      NothingLookedUp(subscribers);
      for k := 0 to 2
        invariant ran == Dispatch(subscribers, looked)
        invariant looked == if k == 0 || (k == 1 && path.None?) then []
          else if k == 1 then [Filter(event, node, path)] else PathFilters(event, node, path)
      {
        var part := if k == 0 then path else None;
        if k == 0 && path.None? {
          continue;
        }
        var callbacks := Under(subscribers, Key(Filter(event, node, part)));
        ghost var before := ran;
        for c := 0 to |callbacks|
          invariant ran == before + callbacks[..c]
        {
          ran := ran + [callbacks[c]];
        }
        DispatchOneMore(subscribers, looked, Filter(event, node, part));
        looked := looked + [Filter(event, node, part)];
      }
    }
  }

  /* ---- The index holds the live registrations, filter by filter ---- */

  // The callbacks registered under one filter, in order.
  function CallbacksOf(regs: seq<Registration>, f: Filter): (cs: seq<Callback>)
    ensures |cs| <= |regs|
  {
    if regs == [] then []
    else (if regs[0].filter == f then [regs[0].callback] else []) + CallbacksOf(regs[1..], f)
  }

  lemma {:induction false} CallbacksAppend(regs: seq<Registration>, r: Registration, f: Filter)
    ensures CallbacksOf(regs + [r], f) == CallbacksOf(regs, f) + (if r.filter == f then [r.callback] else [])
  {
    if regs == [] {
      assert regs + [r] == [r];
    } else {
      CallbacksAppend(regs[1..], r, f);
      assert (regs + [r])[1..] == regs[1..] + [r];
    }
  }

  lemma {:induction false} CallbacksRemove(regs: seq<Registration>, r: Registration, f: Filter)
    ensures r in regs <==> r.callback in CallbacksOf(regs, r.filter)
    ensures CallbacksOf(RemoveFirst(regs, r), f) ==
      if r.filter == f then RemoveFirst(CallbacksOf(regs, f), r.callback) else CallbacksOf(regs, f)
  {
    if regs != [] {
      var head, tail := regs[0], regs[1..];
      CallbacksRemove(tail, r, f);
      assert regs == [head] + tail;
      PrependCallback(head, tail, f);
      PrependCallback(head, tail, r.filter);
      if head == r {
        assert RemoveFirst(regs, r) == tail;
        if r.filter == f { PrependRemoved(r.callback, CallbacksOf(tail, f), r.callback); }
      } else {
        PrependCallback(head, RemoveFirst(tail, r), f);
        if head.filter == f { PrependRemoved(head.callback, CallbacksOf(tail, f), r.callback); }
      }
    }
  }

  lemma PrependRemoved(c: Callback, cs: seq<Callback>, gone: Callback)
    ensures RemoveFirst([c] + cs, gone) == if c == gone then cs else [c] + RemoveFirst(cs, gone)
  {
    assert ([c] + cs)[1..] == cs;
  }

  lemma PrependCallback(head: Registration, tail: seq<Registration>, f: Filter)
    ensures CallbacksOf([head] + tail, f) == if head.filter == f then [head.callback] + CallbacksOf(tail, f)
      else CallbacksOf(tail, f)
  {
    assert ([head] + tail)[1..] == tail;
  }

  lemma {:induction false} RemoveAbsent<T>(s: seq<T>, x: T)
    requires x !in s
    ensures RemoveFirst(s, x) == s
  {
    if s != [] {
      RemoveAbsent(s[1..], x);
      assert [s[0]] + s[1..] == s;
    }
  }

  /** Whatever was subscribed and unsubscribed, the list under a filter's key is exactly the live
      registrations with that filter, in order of registration. */
  lemma {:induction false} IndexHoldsLive(history: seq<Operation>, f: Filter)
    ensures Under(IndexAfter(history), Key(f)) == CallbacksOf(LiveAfter(history), Normal(f))
  {
    if history != [] {
      var before, op := history[..|history| - 1], history[|history| - 1];
      var index, regs := IndexAfter(before), LiveAfter(before);
      var r := op.registration;
      IndexHoldsLive(before, f);
      IndexHoldsLive(before, r.filter);
      KeyInjective(f, r.filter);
      match op {
        case Subscribing(_) =>
          CallbacksAppend(regs, NormalRegistration(r), Normal(f));
        case Unsubscribing(_) =>
          CallbacksRemove(regs, NormalRegistration(r), Normal(f));
          if r.callback !in Under(index, Key(r.filter)) {
            RemoveAbsent(CallbacksOf(regs, Normal(r.filter)), r.callback);
          }
      }
    }
  }

  /* ---- Dispatch against the scan ---- */

  // The callbacks of registrations whose filter is one of `filters`.
  function ScanIn(regs: seq<Registration>, filters: set<Filter>): seq<Callback> {
    if regs == [] then []
    else (if regs[0].filter in filters then [regs[0].callback] else []) + ScanIn(regs[1..], filters)
  }

  lemma {:induction false} ScanSplits(regs: seq<Registration>, filters: set<Filter>, f: Filter)
    requires f !in filters
    ensures multiset(ScanIn(regs, filters + {f})) == multiset(ScanIn(regs, filters)) + multiset(CallbacksOf(regs, f))
  {
    if regs != [] {
      ScanSplits(regs[1..], filters, f);
    }
  }

  lemma {:induction false} ScanNothing(regs: seq<Registration>)
    ensures ScanIn(regs, {}) == []
  {
    if regs != [] { ScanNothing(regs[1..]); }
  }

  predicate Distinct<T(==)>(s: seq<T>) {
    forall i, j :: 0 <= i < j < |s| ==> s[i] != s[j]
  }

  function Elements<T>(s: seq<T>): set<T> {
    set x | x in s
  }

  lemma {:induction false} DispatchIsScanIn(history: seq<Operation>, filters: seq<Filter>)
    requires Distinct(filters) && forall f :: f in filters ==> Normal(f) == f
    ensures multiset(Dispatch(IndexAfter(history), filters)) == multiset(ScanIn(LiveAfter(history), Elements(filters)))
  {
    hide Key, Under, IndexAfter, LiveAfter;
    if filters == [] {
      ScanNothing(LiveAfter(history));
      NothingLookedUp(IndexAfter(history));
      assert Elements(filters) == {};
    } else {
      var f := Last(filters);
      DispatchIsScanIn(history, Init(filters));
      IndexHoldsLive(history, f);
      assert filters == Init(filters) + [f];
      assert Elements(filters) == Elements(Init(filters)) + {f};
      ScanSplits(LiveAfter(history), Elements(Init(filters)), f);
    }
  }

  lemma {:induction false} ScanInIsScan(regs: seq<Registration>, e: Event, filters: set<Filter>)
    requires forall r :: r in regs ==> (r.filter in filters <==> Matches(r.filter, e))
    ensures ScanIn(regs, filters) == Scan(regs, e)
  {
    if regs != [] { ScanInIsScan(regs[1..], e, filters); }
  }

  lemma {:induction false} LiveIsNormal(history: seq<Operation>, r: Registration)
    requires r in LiveAfter(history)
    ensures Normal(r.filter) == r.filter
  {
    var before, op := history[..|history| - 1], history[|history| - 1];
    if op.Unsubscribing? { RemovedIsSubset(LiveAfter(before), NormalRegistration(op.registration), r); }
    if r in LiveAfter(before) { LiveIsNormal(before, r); }
  }

  lemma {:induction false} RemovedIsSubset<T>(s: seq<T>, x: T, y: T)
    requires y in RemoveFirst(s, x)
    ensures y in s
  {
    if s[0] != x && y != s[0] { RemovedIsSubset(s[1..], x, y); }
  }

  lemma PathLookups(e: Option<EventType>, n: Option<nat>, path: Option<string>, f: Filter)
    ensures f in PathFilters(e, n, path) <==> f.event == e && f.node == n && (f.path.None? || f.path == path)
  {
  }

  // The lookups are the matching filters, each once.
  lemma LookupsMatch(e: Event)
    ensures Distinct(FiltersOf(e))
    ensures forall f :: f in FiltersOf(e) <==> Matches(f, e)
  {
    forall f ensures f in FiltersOf(e) <==> Matches(f, e) {
      hide PathFilters;
      PathLookups(Some(e.event), e.node, e.path, f);
      PathLookups(Some(e.event), None, e.path, f);
      PathLookups(None, e.node, e.path, f);
      PathLookups(None, None, e.path, f);
    }
  }

  /** For every history of subscribing and unsubscribing and every event whose path is not "*", the
      callbacks run are exactly the live registrations that match, each once. */
  lemma IndexRefinesScan(history: seq<Operation>, e: Event)
    requires e.path != Some(WILDCARD)
    ensures multiset(Dispatch(IndexAfter(history), FiltersOf(e))) == multiset(Scan(LiveAfter(history), e))
  {
    hide FiltersOf, LiveAfter;
    LookupsMatch(e);
    DispatchIsScanIn(history, FiltersOf(e));
    ScanInIsScan(LiveAfter(history), e, Elements(FiltersOf(e)));
  }

  /** An event whose path is "*" is looked up twice under every key: the index is then right exactly
      when nothing matches. */
  lemma WildcardPathRunsTwice(history: seq<Operation>, event: EventType, node: Option<nat>)
    ensures var e := Event(event, node, Some(WILDCARD));
      var ran, live := Dispatch(IndexAfter(history), FiltersOf(e)), Scan(LiveAfter(history), e);
      multiset(ran) == multiset(live) + multiset(live) && (multiset(ran) == multiset(live) <==> live == [])
  {
    hide FiltersOf;
    var e, plain := Event(event, node, Some(WILDCARD)), Event(event, node, None);
    TwicePlain(IndexAfter(history), event, node);
    IndexRefinesScan(history, plain);
    forall r | r in LiveAfter(history) ensures Matches(r.filter, e) <==> Matches(r.filter, plain) {
      LiveIsNormal(history, r);
    }
    SameScan(LiveAfter(history), e, plain);
    var live := Scan(LiveAfter(history), e);
    if live != [] { assert live[0] in multiset(live); }
  }

  lemma {:induction false} SameScan(regs: seq<Registration>, e: Event, e': Event)
    requires forall r :: r in regs ==> (Matches(r.filter, e) <==> Matches(r.filter, e'))
    ensures Scan(regs, e) == Scan(regs, e')
  {
    if regs != [] { SameScan(regs[1..], e, e'); }
  }

  lemma {:induction false} TwiceEach(index: Index, filters: seq<Filter>, doubled: seq<Filter>)
    requires |doubled| == 2 * |filters|
    requires forall i :: 0 <= i < |filters| ==>
      Key(doubled[2 * i]) == Key(filters[i]) && Key(doubled[2 * i + 1]) == Key(filters[i])
    ensures multiset(Dispatch(index, doubled))
      == multiset(Dispatch(index, filters)) + multiset(Dispatch(index, filters))
  {
    hide Key, Under;
    if filters != [] {
      hide Dispatch;
      var n := |filters| - 1;
      var shorter := doubled[..2 * n];
      TwiceEach(index, filters[..n], shorter);
      assert filters == filters[..n] + [filters[n]];
      assert doubled == (shorter + [doubled[2 * n]]) + [doubled[2 * n + 1]];
      DispatchOneMore(index, filters[..n], filters[n]);
      DispatchOneMore(index, shorter, doubled[2 * n]);
      DispatchOneMore(index, shorter + [doubled[2 * n]], doubled[2 * n + 1]);
    }
  }

  lemma TwicePlain(index: Index, event: EventType, node: Option<nat>)
    ensures multiset(Dispatch(index, FiltersOf(Event(event, node, Some(WILDCARD)))))
      == multiset(Dispatch(index, FiltersOf(Event(event, node, None))))
        + multiset(Dispatch(index, FiltersOf(Event(event, node, None))))
  {
    hide Key, Dispatch;
    var e, plain := Event(event, node, Some(WILDCARD)), Event(event, node, None);
    forall v: Option<EventType>, n: Option<nat> ensures Key(Filter(v, n, Some(WILDCARD))) == Key(Filter(v, n, None)) {
      KeyInjective(Filter(v, n, Some(WILDCARD)), Filter(v, n, None));
    }
    TwiceEach(index, FiltersOf(plain), FiltersOf(e));
  }
}
