/** Runs that lose a wake-up: a List call fails, and a listener stays stale with nothing on its way. */
module LostWakeups {
  import opened Kube
  import opened ServiceMerge
  import R = ServiceRuns
  import opened Status
  import opened Reconcile
  import opened Convergence

  /** A ClusterIP Service whose class prefers host names, as it is once reconciled. */
  lemma SettledExample(decl: ListenerDecl, before: ListenerClass) returns (svc: Service, status: ListenerStatus)
    requires decl.spec.ports == [PortSpec("http", "TCP", 80)]
    requires before.serviceType == Some(ClusterIP) && before.preferred == Hostname
    ensures CreateService(Some(svc), decl, before) == Ok(NoChange)
    ensures ComputeStatus(decl.key.name, svc, Hostname, map[], []) == Ok(status)
    ensures forall list :: ComputeStatus(decl.key.name, svc, IP, map[], list) != Ok(status)
  {
    var d := Desire(decl, before).value;
    svc := Merge(NewService(decl.key, d), d, Owner(decl)).value.(clusterIPs := ["10.0.0.1"]);
    status := ComputeStatus(decl.key.name, svc, Hostname, map[], []).value;
    assert status.ingressAddresses[0].addressType == Hostname;
    forall list
      ensures ComputeStatus(decl.key.name, svc, IP, map[], list) != Ok(status)
    {
      assert Entries(AsIPs(svc.clusterIPs), IP, AllPorts(svc))[0].addressType == IP;
    }
  }

  /** The same for a NodePort Service without endpoints; any endpoint that names a node changes the status. */
  lemma BareExample(decl: ListenerDecl, cls: ListenerClass, nodes: Nodes) returns (svc: Service, status: ListenerStatus)
    requires decl.spec.ports == [PortSpec("http", "TCP", 80)]
    requires cls.serviceType == Some(NodePort) && cls.policy.Cluster? && cls.preferred == IP
    ensures CreateService(Some(svc), decl, cls) == Ok(NoChange)
    ensures ComputeStatus(decl.key.name, svc, IP, nodes, []) == Ok(status)
    ensures forall list :: NodeNames(list) != [] ==> ComputeStatus(decl.key.name, svc, IP, nodes, list) != Ok(status)
  {
    var d := Desire(decl, cls).value;
    var written := Merge(NewService(decl.key, d), d, Owner(decl)).value;
    OnePort(decl.spec.ports[0]);
    svc := written.(ports := [written.ports[0].(nodePort := 30080)], clusterIPs := ["10.0.0.1"]);
    R.OneWriteConverges(None, decl, cls, written, svc);
    status := ComputeStatus(decl.key.name, svc, IP, nodes, []).value;
    forall list | NodeNames(list) != []
      ensures ComputeStatus(decl.key.name, svc, IP, nodes, list) != Ok(status)
    {
      NodesAddressesExact(NodeNames(list), nodes);
    }
  }

  lemma Extend(worlds: seq<World>, actions: seq<Action>, a: Action, w': World)
    requires IsRun(worlds, actions) && Next(worlds[|actions|], a, w')
    ensures IsRun(worlds + [w'], actions + [a])
  {
  }

  predicate Lone(w: World, k: Key) {
    && w.listeners.Keys == {k} && w.listeners[k].listener.decl.key == k && w.listeners[k].version <= w.clock
    && w.queue == {} && w.inFlight == map[] && w.events == {}
  }

  lemma FirstPassStarts(w: World, k: Key) returns (worlds: seq<World>, actions: seq<Action>)
    requires Lone(w, k)
    ensures IsRun(worlds, actions) && worlds[|actions|] == At(w, k, Begin)
  {
    var w0, w1 := w.(events := {ListenerEvent(k)}), w.(queue := {k});
    Extend([w0], [], Deliver(ListenerEvent(k), true), w1);
    Extend([w0] + [w1], [] + [Deliver(ListenerEvent(k), true)], Start(k), At(w, k, Begin));
    worlds, actions := [w0] + [w1] + [At(w, k, Begin)], [] + [Deliver(ListenerEvent(k), true)] + [Start(k)];
  }

  /** A lone fresh listener is reached from start-up: its first event is delivered and one pass finds nothing to do. */
  lemma FreshIsReached(w: World, k: Key) returns (worlds: seq<World>, actions: seq<Action>)
    requires Lone(w, k) && Fresh(w, k)
    ensures IsRun(worlds, actions) && worlds[|actions|] == w
  {
    var status := w.listeners[k].listener.status;
    worlds, actions := FirstPassStarts(w, k);
    for n := 0 to 7
      invariant IsRun(worlds, actions) && worlds[|actions|] == Passed(w, k, n, status)
    {
      PassContinues(w, k, n);
      Extend(worlds, actions, Advance(k), Passed(w, k, n + 1, status));
      worlds, actions := worlds + [Passed(w, k, n + 1, status)], actions + [Advance(k)];
    }
    PassEnds(w, k, status, w);
    assert Done(w, k) == w;
    Extend(worlds, actions, Advance(k), w);
    worlds, actions := worlds + [w], actions + [Advance(k)];
  }

  /** From start-up to a fresh listener, a change that makes it stale, and the drop of the event for it. */
  ghost predicate LosesWakeup(worlds: seq<World>, actions: seq<Action>, k: Key, change: Action) {
    && IsRun(worlds, actions) && |actions| >= 2
    && Idle(worlds[|actions| - 2], k) && Fresh(worlds[|actions| - 2], k)
    && actions[|actions| - 2] == change && Drops(worlds[|actions| - 1], actions[|actions| - 1], k)
    && Idle(worlds[|actions|], k) && !Fresh(worlds[|actions|], k)
  }

  lemma DropStrands(w1: World, k: Key, e: Event)
    requires w1.queue == {} && w1.inFlight == map[] && w1.events == {e} && k in w1.listeners
    requires !e.ListenerEvent? && k in Requests(w1, e, true) && !Fresh(w1, k)
    ensures Next(w1, Deliver(e, false), w1.(events := {})) && Drops(w1, Deliver(e, false), k)
    ensures Idle(w1.(events := {}), k) && !Fresh(w1.(events := {}), k)
  {
  }

  lemma ChangeIsLost(w: World, k: Key, change: Action, e: Event, w1: World)
    returns (worlds: seq<World>, actions: seq<Action>)
    requires Lone(w, k) && Fresh(w, k)
    requires Next(w, change, w1) && w1 == w.(classes := w1.classes, slices := w1.slices, events := {e})
    requires !e.ListenerEvent? && k in Requests(w1, e, true) && !Fresh(w1, k)
    ensures LosesWakeup(worlds, actions, k, change)
  {
    worlds, actions := FreshIsReached(w, k);
    Extend(worlds, actions, change, w1);
    DropStrands(w1, k, e);
    Extend(worlds + [w1], actions + [change], Deliver(e, false), w1.(events := {}));
    worlds, actions := worlds + [w1] + [w1.(events := {})], actions + [change] + [Deliver(e, false)];
  }

  /** One listener with its class and Service, and no endpoint yet. */
  function LoneWorld(decl: ListenerDecl, cls: ListenerClass, svc: Service, status: ListenerStatus, nodes: Nodes): World {
    World(map[decl.key := Stored(Listener(decl, status), 0)], map[cls.name := cls], {}, map[decl.key := svc],
          nodes, 0, {}, map[], {})
  }

  lemma LoneIsFresh(decl: ListenerDecl, cls: ListenerClass, svc: Service, status: ListenerStatus, nodes: Nodes)
    requires decl.spec.className == cls.name && Preferred(cls).Ok? && CreateService(Some(svc), decl, cls) == Ok(NoChange)
    requires ComputeStatus(decl.key.name, svc, Preferred(cls).value, nodes, []) == Ok(status)
    ensures var w := LoneWorld(decl, cls, svc, status, nodes);
            Lone(w, decl.key) && Fresh(w, decl.key) && status.serviceName == decl.key.name
  {
    assert IsListing([], LoneWorld(decl, cls, svc, status, nodes).slices, decl.key);
  }

  lemma PreferenceChanges(k: Key, before: ListenerClass, cls: ListenerClass) returns (w: World, w1: World)
    requires before.serviceType == Some(ClusterIP) && before.preferred == Hostname && cls == before.(preferred := IP)
    ensures Lone(w, k) && Fresh(w, k) && k in Requests(w, ClassEvent(cls.name), true)
    ensures w1 == w.(classes := w.classes[cls.name := cls], events := {ClassEvent(cls.name)}) && !Fresh(w1, k)
  {
    var decl := ListenerDecl(k, "u", ListenerSpec(cls.name, [PortSpec("http", "TCP", 80)], map[], None));
    var svc, status := SettledExample(decl, before);
    LoneIsFresh(decl, before, svc, status, map[]);
    w := LoneWorld(decl, before, svc, status, map[]);
    w1 := w.(classes := w.classes[cls.name := cls], events := {ClassEvent(cls.name)});
  }

  /** A class comes to prefer IP addresses, the List fails, and its listener goes on reporting a host name. */
  lemma LostClassChange(k: Key) returns (worlds: seq<World>, actions: seq<Action>, cls: ListenerClass)
    ensures LosesWakeup(worlds, actions, k, PutClass(cls))
  {
    var before := ListenerClass("c", Some(ClusterIP), Unset, Hostname);
    cls := before.(preferred := IP);
    var w, w1 := PreferenceChanges(k, before, cls);
    assert Next(w, PutClass(cls), w1);
    worlds, actions := ChangeIsLost(w, k, PutClass(cls), ClassEvent(cls.name), w1);
  }

  lemma BackingNodeIsListed(list: seq<EndpointSlice>, slice: EndpointSlice, k: Key, node: string)
    requires Backs(slice, k) && Some(node) in slice.endpoints && IsListing(list, {slice}, k)
    ensures NodeNames(list) != []
  {
    assert slice in multiset(Matching({slice}, k));
    NodeNamesExact(list, node);
  }

  lemma EndpointAppears(k: Key, slice: EndpointSlice) returns (w: World, w1: World)
    requires Backs(slice, k) && Some("n") in slice.endpoints
    ensures Lone(w, k) && w.slices == {} && Fresh(w, k) && k in Requests(w, SliceEvent(k), true)
    ensures w1 == w.(slices := {slice}, events := {SliceEvent(k)}) && !Fresh(w1, k)
  {
    var decl := ListenerDecl(k, "u", ListenerSpec("c", [PortSpec("http", "TCP", 80)], map[], None));
    var cls := ListenerClass("c", Some(NodePort), Cluster, IP);
    var nodes := map["n" := [NodeAddress(InternalIP, "10.1.1.1")]];
    var svc, status := BareExample(decl, cls, nodes);
    LoneIsFresh(decl, cls, svc, status, nodes);
    w := LoneWorld(decl, cls, svc, status, nodes);
    w1 := w.(slices := {slice}, events := {SliceEvent(k)});
    forall list | IsListing(list, {slice}, k)
      ensures NodeNames(list) != []
    {
      BackingNodeIsListed(list, slice, k, "n");
    }
  }

  /** The first endpoint of a NodePort listener appears, the List fails, and the listener goes on reporting no address. */
  lemma LostSliceChange(k: Key) returns (worlds: seq<World>, actions: seq<Action>, slice: EndpointSlice)
    ensures LosesWakeup(worlds, actions, k, ChangeSlice({}, {slice}))
  {
    slice := EndpointSlice(k, Some(k.name), [Some("n")]);
    var w, w1 := EndpointAppears(k, slice);
    assert w1 == w.(slices := w.slices - {} + {slice}, events := w.events + SliceEvents({}) + SliceEvents({slice}));
    worlds, actions := ChangeIsLost(w, k, ChangeSlice({}, {slice}), SliceEvent(k), w1);
  }
}
