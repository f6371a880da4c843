/** The stored Service over whole runs: reconciles, API-server allocation and configuration changes. */
module ServiceRuns {
  import opened Kube
  import opened ServiceMerge

  // ---------------------------------------------------------------- the API server

  predicate WantsNodePorts(s: Service) {
    s.svcType.NodePort? || (s.svcType.LoadBalancer? && s.allocateNodePorts != Some(false))
  }

  predicate PortFilled(wants: bool, written: ServicePort, after: ServicePort) {
    && after == written.(nodePort := after.nodePort)
    && (if written.nodePort != 0 then after.nodePort == written.nodePort else (after.nodePort != 0 <==> wants))
  }

  /**
   * The API server stores a written Service after filling fields that are zero or unset; which values it
   * picks is left open. Node ports are allocated once per protocol.
   */
  ghost predicate Accepts(written: Service, after: Service) {
    && after == written.(ports := after.ports, policy := after.policy, allocateNodePorts := after.allocateNodePorts,
                         healthCheckNodePort := after.healthCheckNodePort, clusterIPs := after.clusterIPs,
                         unowned := after.unowned)
    && after.policy == (if Exposed(written.svcType) && written.policy.Unset? then Cluster else written.policy)
    && after.allocateNodePorts ==
       (if written.svcType.LoadBalancer? && written.allocateNodePorts.None? then Some(true) else written.allocateNodePorts)
    && |after.ports| == |written.ports|
    && (forall i :: 0 <= i < |after.ports| ==> PortFilled(WantsNodePorts(written), written.ports[i], after.ports[i]))
    && DistinctNodePorts(after.ports)
    && (if written.healthCheckNodePort != 0 then after.healthCheckNodePort == written.healthCheckNodePort
        else after.healthCheckNodePort != 0 <==> written.svcType.LoadBalancer? && after.policy.Local?)
    && (if written.clusterIPs != [] then after.clusterIPs == written.clusterIPs
        else after.clusterIPs != [] <==> !written.svcType.ExternalName?)
    && (forall f :: f in written.unowned ==> f in after.unowned && after.unowned[f] == written.unowned[f])
  }

  /** The server refuses a write that gives one node port to two ports of a protocol. */
  predicate Acceptable(written: Service) {
    DistinctNodePorts(written.ports)
  }

  lemma NodePortBound(ports: seq<ServicePort>) returns (bound: nat)
    ensures forall p :: p in ports ==> p.nodePort <= bound
  {
    bound := 0;
    for i := 0 to |ports|
      invariant forall j :: 0 <= j < i ==> ports[j].nodePort <= bound
    {
      if ports[i].nodePort > bound {
        bound := ports[i].nodePort;
      }
    }
  }

  /** Nothing else is refused: the server has an answer to every acceptable write, and to no other. */
  lemma ServerAnswers(written: Service)
    ensures Acceptable(written) <==> exists after :: Accepts(written, after)
  {
    if Acceptable(written) {
      var bound := NodePortBound(written.ports);
      var ports := seq(|written.ports|, i requires 0 <= i < |written.ports| =>
        if written.ports[i].nodePort == 0 && WantsNodePorts(written)
        then written.ports[i].(nodePort := bound + 1 + i) else written.ports[i]);
      assert forall i :: 0 <= i < |ports| ==> written.ports[i] in written.ports;
      var policy := if Exposed(written.svcType) && written.policy.Unset? then Cluster else written.policy;
      var after := written.(
        ports := ports, policy := policy,
        allocateNodePorts := if written.svcType.LoadBalancer? && written.allocateNodePorts.None? then Some(true)
                             else written.allocateNodePorts,
        healthCheckNodePort := if written.healthCheckNodePort == 0 && written.svcType.LoadBalancer? && policy.Local? then 1
                               else written.healthCheckNodePort,
        clusterIPs := if written.clusterIPs == [] && !written.svcType.ExternalName? then ["10.0.0.1"] else written.clusterIPs);
      assert Accepts(written, after);
    }
  }

  // ---------------------------------------------------------------- convergence

  /** Merging into ports that the server has filled changes nothing when identities are unique. */
  lemma FilledPortsAreKept(desired: seq<ServicePort>, existing: seq<ServicePort>, after: seq<ServicePort>, wants: bool)
    requires UniqueIdentities(desired)
    requires |after| == |desired|
    requires forall i :: 0 <= i < |after| ==> PortFilled(wants, Inherit(desired[i], existing), after[i])
    ensures KeepNodePorts(desired, after) == after
  {
    forall i | 0 <= i < |after|
      ensures KeepNodePorts(desired, after)[i] == after[i]
    {
      assert forall j :: 0 <= j < i ==> !SameIdentity(desired[j], desired[i]);
      FirstNodePortExact(after, desired[i].name, desired[i].protocol, i);
    }
  }

  /** The traffic policy that the operator writes is one the server does not default. */
  predicate PolicySettled(cls: ListenerClass) {
    cls.serviceType.Some? && (Exposed(cls.serviceType.value) ==> !cls.policy.Unset?)
  }

  /** Where no node port is allocated, the written ports are stored, and merging into them again changes nothing. */
  lemma UnfilledPortsAreKept(desired: seq<ServicePort>, existing: seq<ServicePort>, after: seq<ServicePort>)
    requires forall p :: p in desired ==> p.nodePort == 0
    requires |after| == |desired|
    requires forall i :: 0 <= i < |after| ==> PortFilled(false, Inherit(desired[i], existing), after[i])
    ensures KeepNodePorts(desired, after) == after
  {
    assert after == KeepNodePorts(desired, existing);
    RemergeIsIdentity(desired, existing);
  }

  /** After a write only the policy and the ports can differ from what is desired. */
  lemma OnlyPolicyAndPorts(stored: Option<Service>, l: ListenerDecl, cls: ListenerClass, written: Service, after: Service)
    requires CreateService(stored, l, cls) == Ok(Write(written))
    requires Accepts(written, after)
    ensures CreateService(Some(after), l, cls) == Ok(NoChange) <==>
            && PolicySettled(cls)
            && (Exposed(written.svcType) ==> KeepNodePorts(DesiredPorts(l.spec.ports), after.ports) == after.ports)
  {
  }

  /** Two ports of one identity inherit the node port of the first stored one. */
  lemma RepeatShares(desired: seq<ServicePort>, existing: seq<ServicePort>, after: seq<ServicePort>)
    requires |after| == |desired| && !UniqueIdentities(desired)
    requires forall i :: 0 <= i < |after| ==> PortFilled(true, Inherit(desired[i], existing), after[i])
    ensures !DistinctNodePorts(KeepNodePorts(desired, after))
  {
    var i, j :| 0 <= i < j < |desired| && SameIdentity(desired[i], desired[j]);
    FirstNodePortNone(after, desired[i].name, desired[i].protocol);
    var first := FirstNodePortAt(after, desired[i].name, desired[i].protocol);
    var kept := KeepNodePorts(desired, after);
    assert kept[i].protocol == kept[j].protocol && kept[i].nodePort == kept[j].nodePort == after[first].nodePort != 0;
  }

  /** Merging into the ports that the server stored changes nothing, exactly when those it filled have unique identities. */
  lemma PortsKeptExactly(desired: seq<ServicePort>, existing: seq<ServicePort>, after: seq<ServicePort>, wants: bool)
    requires forall p :: p in desired ==> p.nodePort == 0
    requires |after| == |desired| && DistinctNodePorts(after)
    requires forall i :: 0 <= i < |after| ==> PortFilled(wants, Inherit(desired[i], existing), after[i])
    ensures KeepNodePorts(desired, after) == after <==> (wants ==> UniqueIdentities(desired))
  {
    if !wants {
      UnfilledPortsAreKept(desired, existing, after);
    } else if UniqueIdentities(desired) {
      FilledPortsAreKept(desired, existing, after, true);
    } else {
      RepeatShares(desired, existing, after);
    }
  }

  /** One write is enough exactly when the policy is not left to the server and allocated ports have unique identities. */
  lemma ConvergesExactly(stored: Option<Service>, l: ListenerDecl, cls: ListenerClass, written: Service, after: Service)
    requires CreateService(stored, l, cls) == Ok(Write(written))
    requires Accepts(written, after)
    ensures CreateService(Some(after), l, cls) == Ok(NoChange) <==>
            PolicySettled(cls) && (WantsNodePorts(written) ==> UniqueIdentities(DesiredPorts(l.spec.ports)))
  {
    OnlyPolicyAndPorts(stored, l, cls, written, after);
    if Exposed(written.svcType) {
      var ports := DesiredPorts(l.spec.ports);
      DesiredPortsExact(l.spec.ports);
      PortsKeptExactly(ports, if stored.Some? then stored.value.ports else ports, after.ports, WantsNodePorts(written));
    }
  }

  /** One write is enough: the next `createService` finds nothing to do. */
  lemma OneWriteConverges(stored: Option<Service>, l: ListenerDecl, cls: ListenerClass, written: Service, after: Service)
    requires CreateService(stored, l, cls) == Ok(Write(written))
    requires Accepts(written, after)
    requires PolicySettled(cls) && UniqueIdentities(DesiredPorts(l.spec.ports))
    ensures CreateService(Some(after), l, cls) == Ok(NoChange)
  {
    ConvergesExactly(stored, l, cls, written, after);
  }

  lemma MergesAgain(stored: Option<Service>, l: ListenerDecl, cls: ListenerClass, written: Service, after: Service)
    requires CreateService(stored, l, cls) == Ok(Write(written)) && Accepts(written, after) && Exposed(written.svcType)
    ensures var next := CreateService(Some(after), l, cls);
            && next.Ok?
            && (next.value.Write? ==> next.value.service.ports == KeepNodePorts(DesiredPorts(l.spec.ports), after.ports))
  {
  }

  /** After one accepted write, repeated identities are given one node port between them, which the server refuses. */
  lemma RepeatsAreRefused(stored: Option<Service>, l: ListenerDecl, cls: ListenerClass, written: Service, after: Service)
    requires CreateService(stored, l, cls) == Ok(Write(written)) && Accepts(written, after)
    requires WantsNodePorts(written) && !UniqueIdentities(DesiredPorts(l.spec.ports))
    ensures var next := CreateService(Some(after), l, cls);
            next.Ok? && next.value.Write? && !Acceptable(next.value.service)
  {
    ConvergesExactly(stored, l, cls, written, after);
    MergesAgain(stored, l, cls, written, after);
    var ports := DesiredPorts(l.spec.ports);
    RepeatShares(ports, if stored.Some? then stored.value.ports else ports, after.ports);
  }

  // ---------------------------------------------------------------- runs

  datatype Config = Config(listener: ListenerDecl, cls: ListenerClass)
  datatype State = State(config: Config, service: Option<Service>)

  /** One `createService` call; on an error, which a refused write is too, nothing is stored. */
  ghost predicate Reconciles(s: State, t: State) {
    && t.config == s.config
    && match CreateService(s.service, s.config.listener, s.config.cls)
       case Err(_) => t.service == s.service
       case Ok(NoChange) => t.service == s.service
       case Ok(Write(w)) =>
         if Acceptable(w) then t.service.Some? && Accepts(w, t.service.value) else t.service == s.service
  }

  predicate Succeeds(s: State) {
    var op := CreateService(s.service, s.config.listener, s.config.cls);
    op.Ok? && (op.value.Write? ==> Acceptable(op.value.service))
  }

  /** Either a reconcile, or anyone changes the listener or its class in any way. */
  ghost predicate Step(s: State, t: State) {
    Reconciles(s, t) || t.service == s.service
  }

  /** A run is any number of steps; every prefix of a run is a run. */
  ghost predicate IsRun(run: seq<State>) {
    run != [] && (|run| > 1 ==> IsRun(run[..|run| - 1]) && Step(run[|run| - 2], run[|run| - 1]))
  }

  function Last(run: seq<State>): State
    requires run != []
  {
    run[|run| - 1]
  }

  // Node ports that never move.

  predicate Exposes(c: Config, name: string, protocol: string) {
    && c.cls.serviceType.Some? && Exposed(c.cls.serviceType.value)
    && exists p :: p in DesiredPorts(c.listener.spec.ports) && p.name == name && p.protocol == protocol
  }

  predicate Holds(s: State, name: string, protocol: string, nodePort: int) {
    s.service.Some? && FirstNodePort(s.service.value.ports, name, protocol) == Some(nodePort)
  }

  lemma FilledPortKeepsNodePort(desired: seq<ServicePort>, existing: seq<ServicePort>, after: seq<ServicePort>, wants: bool,
                                p: ServicePort, nodePort: int)
    requires p in desired
    requires |after| == |desired|
    requires forall i :: 0 <= i < |after| ==> PortFilled(wants, Inherit(desired[i], existing), after[i])
    requires FirstNodePort(existing, p.name, p.protocol) == Some(nodePort) && nodePort != 0
    ensures FirstNodePort(after, p.name, p.protocol) == Some(nodePort)
  {
    var k :| 0 <= k < |desired| && desired[k] == p;
    assert after[k].name == p.name && after[k].protocol == p.protocol;
    FirstNodePortNone(after, p.name, p.protocol);
    var j := FirstNodePortAt(after, p.name, p.protocol);
    assert PortFilled(wants, Inherit(desired[j], existing), after[j]);
  }

  lemma StepKeepsNodePort(s: State, t: State, name: string, protocol: string, nodePort: int)
    requires Step(s, t)
    requires Exposes(s.config, name, protocol) && Holds(s, name, protocol, nodePort) && nodePort != 0
    ensures Holds(t, name, protocol, nodePort)
  {
    var l, cls := s.config.listener, s.config.cls;
    if t.service != s.service {
      var w := CreateService(s.service, l, cls).value.service;
      var p :| p in DesiredPorts(l.spec.ports) && p.name == name && p.protocol == protocol;
      FilledPortKeepsNodePort(DesiredPorts(l.spec.ports), s.service.value.ports, t.service.value.ports,
                              WantsNodePorts(w), p, nodePort);
    }
  }

  /**
   * While a port stays listed and the class stays NodePort or LoadBalancer, its allocated node port never
   * changes, whatever else happens to the listener, its other ports and the class.
   */
  lemma {:induction false} NodePortNeverMoves(run: seq<State>, name: string, protocol: string, nodePort: int)
    requires IsRun(run)
    requires forall i :: 0 <= i < |run| ==> Exposes(run[i].config, name, protocol)
    requires Holds(run[0], name, protocol, nodePort) && nodePort != 0
    ensures Holds(Last(run), name, protocol, nodePort)
  {
    if |run| > 1 {
      NodePortNeverMoves(run[..|run| - 1], name, protocol, nodePort);
      StepKeepsNodePort(run[|run| - 2], Last(run), name, protocol, nodePort);
    }
  }

  // Type-legal Services.

  predicate TypeLegal(s: Service) {
    && ((exists p :: p in s.ports && p.nodePort != 0) ==> Exposed(s.svcType))
    && (s.healthCheckNodePort != 0 ==> s.svcType.LoadBalancer? && s.policy.Local?)
    && (s.allocateNodePorts.Some? || s.lbClass.Some? ==> s.svcType.LoadBalancer?)
    && (!s.policy.Unset? ==> Exposed(s.svcType))
  }

  /** Cluster IPs once given, the fields outside the operator's control and the load balancer's report survive. */
  predicate Preserves(s: Service, t: Service) {
    && t.key == s.key && t.ingress == s.ingress
    && (s.clusterIPs != [] ==> t.clusterIPs == s.clusterIPs)
    && (forall f :: f in s.unowned ==> f in t.unowned && t.unowned[f] == s.unowned[f])
  }

  lemma MergeIsLegal(stored: Service, l: ListenerDecl, cls: ListenerClass)
    requires Desire(l, cls).Ok? && Merge(stored, Desire(l, cls).value, Owner(l)).Ok?
    ensures var merged := Merge(stored, Desire(l, cls).value, Owner(l)).value;
            TypeLegal(merged) && Preserves(stored, merged) && merged.svcType == cls.serviceType.value
  {
    DesiredPortsExact(l.spec.ports);
  }

  lemma AcceptedIsLegal(written: Service, after: Service)
    requires TypeLegal(written) && Accepts(written, after)
    ensures TypeLegal(after) && Preserves(written, after) && after.svcType == written.svcType
  {
  }

  lemma ReconcileIsLegal(s: State, t: State)
    requires Reconciles(s, t) && Succeeds(s)
    ensures t.service.Some? && TypeLegal(t.service.value)
    ensures t.service.value.svcType == s.config.cls.serviceType.value
    ensures s.service.Some? ==> Preserves(s.service.value, t.service.value)
  {
    var l, cls := s.config.listener, s.config.cls;
    var base := if s.service.Some? then s.service.value else NewService(l.key, Desire(l, cls).value);
    MergeIsLegal(base, l, cls);
    var op := CreateService(s.service, l, cls).value;
    if op.Write? {
      AcceptedIsLegal(op.service, t.service.value);
    }
  }

  /** The part of a Service that the operator decides, as the operator states it: without node ports. */
  function Shown(s: Service): Desired {
    Desired(seq(|s.ports|, i requires 0 <= i < |s.ports| => s.ports[i].(nodePort := 0)),
            s.selector, s.svcType, s.publishNotReady, s.policy)
  }

  /** Whatever was stored, the merge shows what is desired. */
  lemma MergeShowsDesired(stored: Service, d: Desired, owner: OwnerRef)
    requires forall p :: p in d.ports ==> p.nodePort == 0
    ensures Merge(stored, d, owner).Ok? <==> MayControl(stored.controller, owner)
    ensures Merge(stored, d, owner).Ok? ==>
              Shown(Merge(stored, d, owner).value) == d && Merge(stored, d, owner).value.controller == Some(owner)
  {
  }

  /**
   * A reconcile that does not fail leaves a Service that says what the listener and its class say: every named
   * port in order and no other, readiness published unless it was declined, and the class's traffic policy.
   */
  lemma ReconcileEstablishes(s: State, t: State)
    requires Reconciles(s, t) && Succeeds(s)
    ensures t.service.Some?
    ensures var l, cls, svc := s.config.listener, s.config.cls, t.service.value;
            && svc.controller == Some(OwnerRef("Listener", l.key.name, l.uid)) && svc.selector == SelectorLabels(l)
            && Some(svc.svcType) == cls.serviceType
            && (svc.publishNotReady <==> l.spec.publishNotReady != Some(false))
            && Shown(svc).ports == DesiredPorts(l.spec.ports)
            && (Exposed(svc.svcType) && !cls.policy.Unset? ==> svc.policy == cls.policy)
            && (!Exposed(svc.svcType) ==> svc.policy.Unset?)
  {
    var l, cls := s.config.listener, s.config.cls;
    var d := Desire(l, cls).value;
    var base := if s.service.Some? then s.service.value else NewService(l.key, d);
    DesiredPortsExact(l.spec.ports);
    MergeShowsDesired(base, d, Owner(l));
    var merged := Merge(base, d, Owner(l)).value;
    if CreateService(s.service, l, cls).value.Write? {
      assert Shown(t.service.value).ports == Shown(merged).ports;
    }
  }

  lemma StepStaysLegal(s: State, t: State)
    requires Step(s, t) && s.service.Some?
    ensures t.service.Some? && Preserves(s.service.value, t.service.value)
    ensures TypeLegal(s.service.value) ==> TypeLegal(t.service.value)
  {
    if Reconciles(s, t) && Succeeds(s) {
      ReconcileIsLegal(s, t);
    }
  }

  /**
   * From any stored Service: once a reconcile has not failed, the Service is legal for its type in every later
   * state, and cluster IPs and unowned fields are what they were before that reconcile.
   */
  lemma {:induction false} LegalEverAfter(before: State, run: seq<State>)
    requires IsRun(run) && Reconciles(before, run[0]) && Succeeds(before)
    ensures Last(run).service.Some? && TypeLegal(Last(run).service.value)
    ensures before.service.Some? ==> Preserves(before.service.value, Last(run).service.value)
  {
    if |run| == 1 {
      ReconcileIsLegal(before, run[0]);
    } else {
      LegalEverAfter(before, run[..|run| - 1]);
      StepStaysLegal(run[|run| - 2], Last(run));
    }
  }

  /**
   * `createService` succeeds exactly when the listener has a named port, its class has a type, and the stored Service,
   * if there is one, is controlled by nobody or by a Listener of the same name.
   */
  lemma CreateServiceSucceedsExactly(stored: Option<Service>, l: ListenerDecl, cls: ListenerClass)
    ensures CreateService(stored, l, cls).Ok? <==>
            && (exists p :: p in l.spec.ports && p.name != "") && cls.serviceType.Some?
            && (stored.Some? && stored.value.controller.Some? ==>
                  var owner := stored.value.controller.value;
                  owner.kind == "Listener" && owner.name == l.key.name)
  {
    DesiredPortsExact(l.spec.ports);
    var desired := DesiredPorts(l.spec.ports);
    if desired != [] {
      assert desired[0] in desired;
    }
    if p :| p in l.spec.ports && p.name != "" {
      NamedPortIsDesired(l.spec.ports, p);
    }
  }

  /** A Service that somebody else controls is never touched, whatever becomes of listener and class. */
  lemma {:induction false} ForeignServiceStays(run: seq<State>, owner: OwnerRef)
    requires IsRun(run) && run[0].service.Some? && run[0].service.value.controller == Some(owner)
    requires forall s :: s in run ==> owner.kind != "Listener" || owner.name != s.config.listener.key.name
    ensures Last(run).service == run[0].service
  {
    if |run| > 1 {
      ForeignServiceStays(run[..|run| - 1], owner);
      var s := run[|run| - 2];
      assert s in run;
      CreateServiceSucceedsExactly(s.service, s.config.listener, s.config.cls);
    }
  }

  // Load balancers.

  /** What others have set on a load balancer's Service and the operator must not disturb. */
  predicate KeepsBalancer(s: Service, t: Service, localPolicy: bool) {
    && t.lbClass == s.lbClass
    && (s.allocateNodePorts.Some? ==> t.allocateNodePorts == s.allocateNodePorts)
    && (localPolicy && s.healthCheckNodePort != 0 ==> t.healthCheckNodePort == s.healthCheckNodePort)
  }

  lemma StepKeepsBalancer(s: State, t: State)
    requires Step(s, t) && s.service.Some? && s.config.cls.serviceType == Some(LoadBalancer)
    ensures t.service.Some? && KeepsBalancer(s.service.value, t.service.value, s.config.cls.policy.Local?)
  {
  }

  /**
   * While the class stays LoadBalancer, the load-balancer class never changes, nor does the allocation flag once it is
   * set, nor the health-check node port once it is allocated and as long as the policy stays Local.
   */
  lemma {:induction false} BalancerFieldsNeverChange(run: seq<State>)
    requires IsRun(run) && run[0].service.Some?
    requires forall s :: s in run ==> s.config.cls.serviceType == Some(LoadBalancer)
    ensures Last(run).service.Some?
    ensures KeepsBalancer(run[0].service.value, Last(run).service.value, forall s :: s in run ==> s.config.cls.policy.Local?)
  {
    if |run| > 1 {
      var front := run[..|run| - 1];
      BalancerFieldsNeverChange(front);
      assert run[|run| - 2] in run;
      StepKeepsBalancer(run[|run| - 2], Last(run));
      assert (forall s :: s in run ==> s.config.cls.policy.Local?) ==> forall s :: s in front ==> s.config.cls.policy.Local?;
    }
  }

  // The class that never settles.

  predicate Writes(s: State) {
    var op := CreateService(s.service, s.config.listener, s.config.cls);
    op.Ok? && op.value.Write?
  }

  ghost predicate IsReconcileRun(run: seq<State>) {
    run != [] && (|run| > 1 ==> IsReconcileRun(run[..|run| - 1]) && Reconciles(run[|run| - 2], run[|run| - 1]))
  }

  /**
   * With an exposed class and no traffic policy every reconcile of a stored Service writes, without end, so none of
   * them gets as far as the listener's status. All it takes is that the server has given the Service a policy.
   */
  lemma {:induction false} UnsetPolicyNeverSettles(run: seq<State>)
    requires IsReconcileRun(run)
    requires CreateService(run[0].service, run[0].config.listener, run[0].config.cls).Ok?
    requires run[0].service.Some? ==> !run[0].service.value.policy.Unset?
    requires Exposed(run[0].config.cls.serviceType.value) && run[0].config.cls.policy.Unset?
    ensures Last(run).config == run[0].config && Writes(Last(run))
  {
    if |run| > 1 {
      UnsetPolicyNeverSettles(run[..|run| - 1]);
    }
  }

  /** A Service that the server stores for a write, and stores again, the same, for the write that follows. */
  lemma FilledAgain(l: ListenerDecl, cls: ListenerClass, p: PortSpec) returns (stored: Service)
    requires l.spec.ports == [p] && p.name != ""
    requires cls.serviceType == Some(NodePort) && cls.policy.Unset?
    ensures var op := CreateService(None, l, cls);
            op.Ok? && op.value.Write? && Accepts(op.value.service, stored)
    ensures var op := CreateService(Some(stored), l, cls);
            op.Ok? && op.value.Write? && Accepts(op.value.service, stored)
  {
    OnePort(p);
    var d := Desire(l, cls).value;
    var written := Merge(NewService(l.key, d), d, Owner(l)).value;
    stored := written.(ports := [written.ports[0].(nodePort := 30080)], policy := Cluster, clusterIPs := ["10.0.0.1"]);
    assert Merge(stored, d, Owner(l)).value == stored.(policy := Unset);
  }

  /** Such a run: nothing is stored at first, and the server fills each write in the same way. */
  lemma NeverSettlesExample() returns (run: seq<State>)
    ensures |run| == 3 && IsReconcileRun(run) && run[0].service.None?
    ensures forall i :: 0 <= i < 3 ==> Writes(run[i])
  {
    var p := PortSpec("http", "TCP", 80);
    var l := ListenerDecl(Key("default", "web"), "u", ListenerSpec("c", [p], map[], None));
    var cls := ListenerClass("c", Some(NodePort), Unset, IP);
    var stored := FilledAgain(l, cls, p);
    var s0, s1 := State(Config(l, cls), None), State(Config(l, cls), Some(stored));
    run := [s0, s1, s1];
    assert run[..2] == [s0, s1] && [s0, s1][..1] == [s0];
    assert Reconciles(s0, s1) && Reconciles(s1, s1);
  }
}
