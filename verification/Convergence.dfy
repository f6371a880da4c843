/** What a reconcile left alone comes to: one undisturbed pass, and two passes from any stored Service. */
module Convergence {
  import opened Kube
  import opened Reconcile
  import opened ServiceRuns
  import opened Status
  import S = ServiceMerge

  // ---------------------------------------------------------------- one undisturbed pass

  predicate HasClass(w: World, k: Key) {
    k in w.listeners && w.listeners[k].listener.decl.spec.className in w.classes
  }

  function ClassOf(w: World, k: Key): ListenerClass
    requires HasClass(w, k)
  {
    w.classes[w.listeners[k].listener.decl.spec.className]
  }

  /**
   * What a status needs of the store: a preference that resolves; for NodePort, that every node named by a backing
   * slice has an address that can be picked; for LoadBalancer, an ingress, and no IP where host names are preferred.
   */
  ghost predicate Describable(w: World, k: Key) {
    && HasClass(w, k) && ClassOf(w, k).serviceType.Some? && Preferred(ClassOf(w, k)).Ok?
    && var preferred := Preferred(ClassOf(w, k)).value;
    match ClassOf(w, k).serviceType.value
    case ClusterIP => true
    case NodePort =>
      forall s, n :: s in w.slices && s.serviceName == Some(k.name) && s.key.namespace == k.namespace && Some(n) in s.endpoints ==>
        Usable(preferred, n, w.nodes)
    case LoadBalancer =>
      && k in w.services && w.services[k].ingress != []
      && (preferred.IP? || forall x :: x in w.services[k].ingress ==> x.ip == "")
    case ExternalName => false
  }

  /** The Service has the type that its class asks for. */
  predicate Typed(w: World, k: Key) {
    HasClass(w, k) && k in w.services && ClassOf(w, k).serviceType == Some(w.services[k].svcType)
  }

  lemma SettledIsTyped(w: World, k: Key)
    requires Settled(w, k)
    ensures Typed(w, k)
  {
  }

  predicate Usable(preferred: AddressType, node: string, nodes: Nodes) {
    var a := NodeAddressOf(node, nodes);
    a.Ok? && (preferred.IP? || a.value.addressType.Hostname?)
  }

  lemma NodesDescribe(names: seq<string>, nodes: Nodes, preferred: AddressType)
    ensures (forall n :: n in names ==> Usable(preferred, n, nodes)) <==>
            NodesAddresses(names, nodes).Ok? && Pickable(NodesAddresses(names, nodes).value, preferred)
  {
    NodesAddressesExact(names, nodes);
    if NodesAddresses(names, nodes).Ok? {
      var addresses := NodesAddresses(names, nodes).value;
      if Pickable(addresses, preferred) {
        forall n | n in names
          ensures Usable(preferred, n, nodes)
        {
          var i :| 0 <= i < |names| && names[i] == n;
          assert addresses[i] in addresses;
        }
      } else {
        var i :| 0 <= i < |addresses| && !addresses[i].addressType.Hostname?;
        assert !Usable(preferred, names[i], nodes);
      }
    }
  }

  lemma IngressDescribes(ingress: seq<Ingress>, preferred: AddressType)
    ensures Pickable(LbAddresses(ingress), preferred) <==> preferred.IP? || forall x :: x in ingress ==> x.ip == ""
  {
  }

  lemma ListedNames(list: seq<EndpointSlice>, slices: set<EndpointSlice>, k: Key)
    requires IsListing(list, slices, k)
    ensures forall n :: n in NodeNames(list) <==> exists s :: s in Matching(slices, k) && Some(n) in s.endpoints
  {
    forall s
      ensures s in list <==> s in Matching(slices, k)
    {
      assert s in multiset(list) <==> s in multiset(Matching(slices, k));
    }
    forall n
      ensures n in NodeNames(list) <==> exists s :: s in Matching(slices, k) && Some(n) in s.endpoints
    {
      NodeNamesExact(list, n);
    }
  }

  /** Over a Service of the class's type, whether a status is computed does not depend on the order of the slices. */
  lemma DescribesExactly(w: World, k: Key, list: seq<EndpointSlice>)
    requires Typed(w, k) && Preferred(ClassOf(w, k)).Ok? && IsListing(list, w.slices, k)
    ensures var preferred := Preferred(ClassOf(w, k)).value;
            ComputeStatus(k.name, w.services[k], preferred, w.nodes, list).Ok? <==> Describable(w, k)
  {
    var preferred := Preferred(ClassOf(w, k)).value;
    var svc := w.services[k];
    match svc.svcType
    case NodePort =>
      ListedNames(list, w.slices, k);
      NodesDescribe(NodeNames(list), w.nodes, preferred);
    case LoadBalancer => IngressDescribes(svc.ingress, preferred);
    case _ =>
  }

  /** What a fresh status needs, and exactly that. */
  lemma FreshIsDescribable(w: World, k: Key)
    requires Fresh(w, k)
    ensures Describable(w, k)
  {
    SettledIsTyped(w, k);
    var list :| IsListing(list, w.slices, k) &&
      ComputeStatus(k.name, w.services[k], Preferred(ClassOf(w, k)).value, w.nodes, list) ==
      Ok(w.listeners[k].listener.status);
    DescribesExactly(w, k, list);
  }

  /** Nobody else interferes: the reconcile takes its next step, or has ended and nothing happens. */
  ghost predicate Proceeds(w: World, k: Key, w': World) {
    if k in w.inFlight then Advances(w, k, w') else w' == w
  }

  /** What a pass over a settled listener has read after `n` undisturbed steps; the last two hold a computed status. */
  function StageOf(w: World, k: Key, n: nat, status: ListenerStatus): Stage
    requires HasClass(w, k) && k in w.services && (n == 5 ==> Preferred(ClassOf(w, k)).Ok?)
  {
    var decl := w.listeners[k].listener.decl;
    match n
    case 0 => Begin
    case 1 => GotListener(decl)
    case 2 => GotClass(decl, ClassOf(w, k))
    case 3 => Serviced(decl)
    case 4 => Described(decl, w.services[k])
    case 5 => Resolved(decl, w.services[k], Preferred(ClassOf(w, k)).value)
    case 6 => Built(decl, status)
    case _ => Fetched(decl, status, w.listeners[k].version)
  }

  function Passed(w: World, k: Key, n: nat, status: ListenerStatus): World
    requires HasClass(w, k) && k in w.services && (n == 5 ==> Preferred(ClassOf(w, k)).Ok?)
  {
    At(w, k, StageOf(w, k, n, status))
  }

  lemma MovesAgain(w: World, k: Key, stage: Stage)
    ensures forall next :: At(At(w, k, stage), k, next) == At(w, k, next)
    ensures Requeued(At(w, k, stage), k) == Requeued(w, k)
    ensures Done(At(w, k, stage), k) == Done(w, k)
  {
  }

  lemma PassReads(w: World, k: Key, n: nat, status: ListenerStatus, w': World)
    requires Settled(w, k) && (n < 4 || n == 6)
    ensures Advances(Passed(w, k, n, status), k, w') <==> w' == Passed(w, k, n + 1, status)
  {
    MovesAgain(w, k, StageOf(w, k, n, status));
  }

  lemma PassResolves(w: World, k: Key, status: ListenerStatus, w': World)
    requires Settled(w, k)
    ensures Advances(Passed(w, k, 4, status), k, w') <==>
            w' == if Preferred(ClassOf(w, k)).Ok? then Passed(w, k, 5, status) else Requeued(w, k)
  {
    MovesAgain(w, k, StageOf(w, k, 4, status));
  }

  /** The one step with a choice: which order the slices are listed in. */
  lemma PassLists(w: World, k: Key, stage: Stage, decl: ListenerDecl, svc: Service, preferred: AddressType, w': World)
    returns (list: seq<EndpointSlice>)
    requires Computes(At(w, k, stage), k, decl, svc, preferred, w')
    ensures IsListing(list, w.slices, k)
    ensures var computed := ComputeStatus(k.name, svc, preferred, w.nodes, list);
            w' == if computed.Ok? then At(w, k, Built(decl, computed.value)) else Requeued(w, k)
  {
    MovesAgain(w, k, stage);
    list :| IsListing(list, w.slices, k) &&
      w' == (match ComputeStatus(k.name, svc, preferred, w.nodes, list)
             case Ok(s) => At(At(w, k, stage), k, Built(decl, s))
             case Err(_) => Requeued(At(w, k, stage), k));
  }

  lemma PassComputes(w: World, k: Key, w': World)
    requires Typed(w, k) && Preferred(ClassOf(w, k)).Ok? && Advances(Passed(w, k, 5, EMPTY_STATUS), k, w')
    ensures if Describable(w, k) then exists s :: Current(w, k, s) && w' == Passed(w, k, 6, s) else w' == Requeued(w, k)
  {
    var stage := StageOf(w, k, 5, EMPTY_STATUS);
    var list := PassLists(w, k, stage, stage.decl, stage.svc, stage.preferred, w');
    DescribesExactly(w, k, list);
    var computed := ComputeStatus(k.name, stage.svc, stage.preferred, w.nodes, list);
    if computed.Ok? {
      assert Current(w, k, computed.value);
    }
  }

  lemma CurrentIsComputed(w: World, k: Key, status: ListenerStatus)
    requires HasClass(w, k) && k in w.services && Current(w, k, status)
    ensures Advances(Passed(w, k, 5, status), k, Passed(w, k, 6, status))
  {
    var now := Passed(w, k, 5, status);
    MovesAgain(w, k, now.inFlight[k]);
    var list :| IsListing(list, w.slices, k) &&
      ComputeStatus(k.name, w.services[k], Preferred(ClassOf(w, k)).value, w.nodes, list) == Ok(status);
    assert IsListing(list, now.slices, k);
  }

  lemma WritesThenEnds(w: World, k: Key, stage: Stage, status: ListenerStatus)
    requires k in w.listeners
    ensures Done(StatusWritten(At(w, k, stage), k, status), k) == Done(StatusWritten(w, k, status), k)
  {
    MovesAgain(w, k, stage);
  }

  lemma PassEnds(w: World, k: Key, status: ListenerStatus, w': World)
    requires HasClass(w, k) && k in w.services
    ensures Advances(Passed(w, k, 7, status), k, w') <==> w' == Done(StatusWritten(w, k, status), k)
  {
    WritesThenEnds(w, k, StageOf(w, k, 7, status), status);
  }

  /** A pass over a fresh listener can always take its next step. */
  lemma PassContinues(w: World, k: Key, n: nat)
    requires Fresh(w, k) && n < 7
    ensures var status := w.listeners[k].listener.status;
            Advances(Passed(w, k, n, status), k, Passed(w, k, n + 1, status))
  {
    var status := w.listeners[k].listener.status;
    if n == 4 {
      PassResolves(w, k, status, Passed(w, k, 5, status));
    } else if n == 5 {
      CurrentIsComputed(w, k, status);
    } else {
      PassReads(w, k, n, status, Passed(w, k, n + 1, status));
    }
  }

  lemma StatusWrittenIsFresh(w: World, k: Key, status: ListenerStatus)
    requires Settled(w, k) && Current(w, k, status)
    ensures Fresh(Done(StatusWritten(w, k, status), k), k)
  {
  }

  /** The first half of a pass: five steps that read, after which it has resolved the preference or given up. */
  lemma PassReadsAll(worlds: seq<World>, k: Key)
    requires |worlds| == 9
    requires k in worlds[0].inFlight && worlds[0].inFlight[k] == Begin && Settled(worlds[0], k)
    requires forall i :: 0 <= i < 8 ==> Proceeds(worlds[i], k, worlds[i + 1])
    ensures worlds[5] == if Preferred(ClassOf(worlds[0], k)).Ok? then Passed(worlds[0], k, 5, EMPTY_STATUS)
                         else Requeued(worlds[0], k)
  {
    for n := 0 to 4
      invariant worlds[n] == Passed(worlds[0], k, n, EMPTY_STATUS)
    {
      assert Proceeds(worlds[n], k, worlds[n + 1]);
      PassReads(worlds[0], k, n, EMPTY_STATUS, worlds[n + 1]);
    }
    assert Proceeds(worlds[4], k, worlds[4 + 1]);
    PassResolves(worlds[0], k, EMPTY_STATUS, worlds[5]);
  }

  /**
   * A reconcile that nobody disturbs, once the Service is settled, has ended after eight steps. The listener is
   * then fresh exactly when the store can be described; otherwise the key is queued again and nothing is changed.
   * If it finds the status already right it writes nothing and makes no event, so it does not wake itself.
   */
  lemma UndisturbedPass(worlds: seq<World>, k: Key)
    requires |worlds| == 9
    requires k in worlds[0].inFlight && worlds[0].inFlight[k] == Begin && Settled(worlds[0], k)
    requires forall i :: 0 <= i < 8 ==> Proceeds(worlds[i], k, worlds[i + 1])
    ensures k !in worlds[8].inFlight && worlds[8].services == worlds[0].services
    ensures if Describable(worlds[0], k) then Fresh(worlds[8], k) && worlds[8].queue == worlds[0].queue
            else !Fresh(worlds[8], k) && worlds[8] == Requeued(worlds[0], k)
    ensures worlds[8].listeners[k].listener.status == worlds[0].listeners[k].listener.status ==>
              worlds[8].listeners == worlds[0].listeners && worlds[8].events == worlds[0].events
  {
    var w := worlds[0];
    SettledIsTyped(w, k);
    PassReadsAll(worlds, k);
    assert Proceeds(worlds[5], k, worlds[5 + 1]) && Proceeds(worlds[6], k, worlds[6 + 1]);
    assert Proceeds(worlds[7], k, worlds[7 + 1]);
    if Preferred(ClassOf(w, k)).Ok? {
      PassComputes(w, k, worlds[6]);
    }
    if Describable(w, k) {
      var status :| Current(w, k, status) && worlds[6] == Passed(w, k, 6, status);
      PassReads(w, k, 6, status, worlds[7]);
      PassEnds(w, k, status, worlds[8]);
      StatusWrittenIsFresh(w, k, status);
    } else if Fresh(worlds[8], k) {
      FreshIsDescribable(worlds[8], k);
    }
  }

  // ---------------------------------------------------------------- from any stored Service

  /** `createService` in the store as it is. */
  function OperationNow(w: World, k: Key): Result<S.Operation>
    requires HasClass(w, k)
  {
    S.CreateService(if k in w.services then Some(w.services[k]) else None, w.listeners[k].listener.decl, ClassOf(w, k))
  }

  ghost predicate MustWrite(w: World, k: Key) {
    HasClass(w, k) && OperationNow(w, k).Ok? && OperationNow(w, k).value.Write?
  }

  /** One write of the Service is enough. */
  ghost predicate WriteSettles(w: World, k: Key)
    requires MustWrite(w, k)
  {
    && Acceptable(OperationNow(w, k).value.service) && PolicySettled(ClassOf(w, k))
    && (WantsNodePorts(OperationNow(w, k).value.service) ==>
          S.UniqueIdentities(S.DesiredPorts(w.listeners[k].listener.decl.spec.ports)))
  }

  /** The Service was written and stored, or refused, and nothing else but the queue has changed. */
  ghost predicate Rewritten(w: World, k: Key, w': World)
    requires MustWrite(w, k)
  {
    var written := OperationNow(w, k).value.service;
    if Acceptable(written) then
      && k in w'.services && Accepts(written, w'.services[k])
      && w' == Requeued(w, k).(services := w.services[k := w'.services[k]])
    else w' == Requeued(w, k)
  }

  /** A pass that has to write the Service ends there, after three steps. */
  lemma WritingPass(worlds: seq<World>, k: Key)
    requires |worlds| >= 4 && k in worlds[0].inFlight && worlds[0].inFlight[k] == Begin && MustWrite(worlds[0], k)
    requires forall i :: 0 <= i < 3 ==> Proceeds(worlds[i], k, worlds[i + 1])
    ensures Rewritten(worlds[0], k, worlds[3])
  {
    var decl := worlds[0].listeners[k].listener.decl;
    var cls := worlds[0].classes[decl.spec.className];
    assert Proceeds(worlds[0], k, worlds[0 + 1]) && Proceeds(worlds[1], k, worlds[1 + 1]);
    assert Proceeds(worlds[2], k, worlds[2 + 1]);
    assert worlds[1] == At(worlds[0], k, GotListener(decl));
    assert worlds[2] == At(worlds[0], k, GotClass(decl, cls));
    assert CreatesService(worlds[2], k, decl, cls, worlds[3]);
    assert worlds[2].inFlight - {k} == worlds[0].inFlight - {k};
  }

  lemma RewrittenSettles(w: World, k: Key, w': World)
    requires MustWrite(w, k) && Rewritten(w, k, w')
    ensures Settled(w', k) <==> WriteSettles(w, k)
  {
    if Acceptable(OperationNow(w, k).value.service) {
      ConvergesExactly(if k in w.services then Some(w.services[k]) else None, w.listeners[k].listener.decl, ClassOf(w, k),
                       OperationNow(w, k).value.service, w'.services[k]);
    }
  }

  lemma RewrittenKeepsIngress(w: World, k: Key, w': World)
    requires MustWrite(w, k) && Rewritten(w, k, w')
    ensures Describable(w', k) <==> Describable(w, k)
  {
  }

  /** What one write did not settle, the next does not settle either. */
  lemma NextWriteSettlesNoMore(w: World, k: Key, w': World)
    requires MustWrite(w, k) && Rewritten(w, k, w') && !WriteSettles(w, k)
    ensures MustWrite(w', k) && !WriteSettles(w', k)
  {
    RewrittenSettles(w, k, w');
    var written := OperationNow(w, k).value.service;
    if WantsNodePorts(written) && Acceptable(written) && PolicySettled(ClassOf(w, k)) {
      RepeatsAreRefused(if k in w.services then Some(w.services[k]) else None, w.listeners[k].listener.decl, ClassOf(w, k),
                        written, w'.services[k]);
    }
  }

  lemma EndedStays(worlds: seq<World>, k: Key, n: nat)
    requires n < |worlds| && k !in worlds[n].inFlight
    requires forall i :: 0 <= i < |worlds| - 1 ==> Proceeds(worlds[i], k, worlds[i + 1])
    ensures worlds[|worlds| - 1] == worlds[n]
  {
    for m := n to |worlds| - 1
      invariant worlds[m] == worlds[n]
    {
      assert Proceeds(worlds[m], k, worlds[m + 1]);
    }
  }

  /**
   * Left alone, the controller converges in two passes from any stored Service that has to be written, exactly when
   * one write settles it and the store as it was before the first pass can be described. A write that is refused, at
   * first or because repeated identities come to share a node port, leaves the key queued.
   */
  lemma TwoPassesConverge(first: seq<World>, second: seq<World>, k: Key)
    requires |first| == 4 && |second| == 9
    requires k in first[0].inFlight && first[0].inFlight[k] == Begin && MustWrite(first[0], k)
    requires forall i :: 0 <= i < 3 ==> Proceeds(first[i], k, first[i + 1])
    requires Next(first[3], Start(k), second[0])
    requires forall i :: 0 <= i < 8 ==> Proceeds(second[i], k, second[i + 1])
    ensures Fresh(second[8], k) <==> WriteSettles(first[0], k) && Describable(first[0], k)
    ensures Fresh(second[8], k) <==> k !in second[8].queue
    ensures k !in second[8].inFlight
  {
    WritingPass(first, k);
    RewrittenSettles(first[0], k, first[3]);
    RewrittenKeepsIngress(first[0], k, first[3]);
    if WriteSettles(first[0], k) {
      UndisturbedPass(second, k);
    } else {
      NextWriteSettlesNoMore(first[0], k, first[3]);
      WritingPass(second, k);
      RewrittenSettles(second[0], k, second[3]);
      EndedStays(second, k, 3);
    }
  }
}
