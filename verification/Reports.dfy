/** Where the statuses in the store come from: every one the controller wrote describes a settled Service. */
module Reports {
  import opened Kube
  import opened ServiceMerge
  import R = ServiceRuns
  import opened Status
  import opened Reconcile

  /** The API server has given every port the node port it needs. */
  predicate Allocated(svc: Service) {
    R.WantsNodePorts(svc) ==> forall p :: p in svc.ports ==> p.nodePort != 0
  }

  /** A version of the listener; `ports` is given where nobody edits them. */
  predicate IsVersion(l: ListenerDecl, k: Key, ports: Option<seq<PortSpec>>) {
    l.key == k && (ports.Some? ==> l.spec.ports == ports.value)
  }

  /** The Service is what some version of the listener asks for, under some class. */
  ghost predicate Backed(k: Key, ports: Option<seq<PortSpec>>, svc: Service) {
    Allocated(svc) && exists l, cls :: IsVersion(l, k, ports) && CreateService(Some(svc), l, cls) == Ok(NoChange)
  }

  ghost predicate Describes(status: ListenerStatus, k: Key, svc: Service) {
    exists preferred, nodes, list :: ComputeStatus(k.name, svc, preferred, nodes, list) == Ok(status)
  }

  ghost predicate Reported(k: Key, ports: Option<seq<PortSpec>>, status: ListenerStatus) {
    exists svc :: Backed(k, ports, svc) && Describes(status, k, svc)
  }

  // ---------------------------------------------------------------- the invariant

  ghost predicate StageReports(w: World, k: Key, ports: Option<seq<PortSpec>>, stage: Stage) {
    match stage
    case Begin => true
    case GotListener(decl) => IsVersion(decl, k, ports)
    case GotClass(decl, _) => IsVersion(decl, k, ports)
    case Serviced(_) => k in w.services && Backed(k, ports, w.services[k])
    case Described(_, svc) => Backed(k, ports, svc)
    case Resolved(_, svc, _) => Backed(k, ports, svc)
    case Built(_, status) => Reported(k, ports, status)
    case Fetched(_, status, _) => Reported(k, ports, status)
  }

  /** `held` is the status from before the run. */
  ghost predicate ReportInv(w: World, k: Key, ports: Option<seq<PortSpec>>, held: ListenerStatus) {
    && (k in w.services ==> Allocated(w.services[k]))
    && (k in w.listeners ==>
          && IsVersion(w.listeners[k].listener.decl, k, ports)
          && var status := w.listeners[k].listener.status;
          status == EMPTY_STATUS || status == held || Reported(k, ports, status))
    && (k in w.inFlight ==> StageReports(w, k, ports, w.inFlight[k]))
  }

  lemma AcceptedIsAllocated(written: Service, after: Service)
    requires R.Accepts(written, after)
    ensures Allocated(after)
  {
    forall p | p in after.ports && R.WantsNodePorts(after)
      ensures p.nodePort != 0
    {
      var i :| 0 <= i < |after.ports| && after.ports[i] == p;
      assert R.PortFilled(R.WantsNodePorts(written), written.ports[i], after.ports[i]);
    }
  }

  /** The load balancer's report is no part of what a listener asks for. */
  lemma BackedWithIngress(k: Key, ports: Option<seq<PortSpec>>, svc: Service, ingress: seq<Ingress>)
    requires Backed(k, ports, svc)
    ensures Backed(k, ports, svc.(ingress := ingress))
  {
    var l, cls :| IsVersion(l, k, ports) && CreateService(Some(svc), l, cls) == Ok(NoChange);
    assert CreateService(Some(svc.(ingress := ingress)), l, cls) == Ok(NoChange);
  }

  predicate SameFor(w: World, w': World, k: Key) {
    && (k in w'.services <==> k in w.services) && (k in w.services ==> w'.services[k] == w.services[k])
    && (k in w'.listeners <==> k in w.listeners)
    && (k in w.listeners ==> w'.listeners[k].listener == w.listeners[k].listener)
    && (k in w'.inFlight <==> k in w.inFlight) && (k in w.inFlight ==> w'.inFlight[k] == w.inFlight[k])
  }

  lemma ServiceStageReports(w: World, k: Key, ports: Option<seq<PortSpec>>, held: ListenerStatus, w': World)
    requires ReportInv(w, k, ports, held) && k in w.inFlight && w.inFlight[k].GotClass? && Advances(w, k, w')
    ensures ReportInv(w', k, ports, held)
  {
    var GotClass(decl, cls) := w.inFlight[k];
    ServiceStageEnds(w, k, decl, cls, w');
    if k in w'.inFlight {
      assert w'.services == w.services;
    } else if w'.services != w.services {
      var written := CreateService(if k in w.services then Some(w.services[k]) else None, decl, cls).value.service;
      AcceptedIsAllocated(written, w'.services[k]);
    }
  }

  lemma ComputeStageEnds(w: World, k: Key, w': World)
    requires k in w.inFlight && w.inFlight[k].Resolved? && Advances(w, k, w')
    ensures w'.services == w.services && w'.listeners == w.listeners
    ensures k in w'.inFlight ==> w'.inFlight[k].Built? && Describes(w'.inFlight[k].status, k, w.inFlight[k].svc)
  {
  }

  lemma ComputeStageReports(w: World, k: Key, ports: Option<seq<PortSpec>>, held: ListenerStatus, w': World)
    requires ReportInv(w, k, ports, held) && k in w.inFlight && w.inFlight[k].Resolved? && Advances(w, k, w')
    ensures ReportInv(w', k, ports, held)
  {
    ComputeStageEnds(w, k, w');
  }

  lemma WriteStageEnds(w: World, k: Key, w': World)
    requires k in w.inFlight && w.inFlight[k].Fetched? && Advances(w, k, w')
    ensures w'.services == w.services && w'.listeners.Keys == w.listeners.Keys
    ensures k in w'.inFlight ==> w'.inFlight[k] == Built(w.inFlight[k].decl, w.inFlight[k].status)
    ensures k in w.listeners ==>
              var l, l' := w.listeners[k].listener, w'.listeners[k].listener;
              l' == l || l' == l.(status := w.inFlight[k].status)
  {
  }

  lemma WriteStageReports(w: World, k: Key, ports: Option<seq<PortSpec>>, held: ListenerStatus, w': World)
    requires ReportInv(w, k, ports, held) && k in w.inFlight && w.inFlight[k].Fetched? && Advances(w, k, w')
    ensures ReportInv(w', k, ports, held)
  {
    WriteStageEnds(w, k, w');
  }

  lemma EarlyStageReports(w: World, k: Key, ports: Option<seq<PortSpec>>, held: ListenerStatus, w': World)
    requires ReportInv(w, k, ports, held) && k in w.inFlight && Advances(w, k, w')
    requires w.inFlight[k].Begin? || w.inFlight[k].GotListener?
    ensures ReportInv(w', k, ports, held)
  {
    assert w'.services == w.services && w'.listeners == w.listeners;
  }

  lemma ReadStageReports(w: World, k: Key, ports: Option<seq<PortSpec>>, held: ListenerStatus, w': World)
    requires ReportInv(w, k, ports, held) && k in w.inFlight && Advances(w, k, w')
    requires w.inFlight[k].Serviced? || w.inFlight[k].Described? || w.inFlight[k].Built?
    ensures ReportInv(w', k, ports, held)
  {
    assert w'.services == w.services && w'.listeners == w.listeners;
  }

  lemma AdvanceReports(w: World, own: Key, w': World, k: Key, ports: Option<seq<PortSpec>>, held: ListenerStatus)
    requires ReportInv(w, k, ports, held) && own in w.inFlight && Advances(w, own, w')
    ensures ReportInv(w', k, ports, held)
  {
    if own != k {
      AdvanceIsOnlyOwn(w, own, w');
      OnlyOwnDisturbsNoOther(w, own, w', k);
      assert SameFor(w, w', k);
    } else if w.inFlight[k].GotClass? {
      ServiceStageReports(w, k, ports, held, w');
    } else if w.inFlight[k].Resolved? {
      ComputeStageReports(w, k, ports, held, w');
    } else if w.inFlight[k].Fetched? {
      WriteStageReports(w, k, ports, held, w');
    } else if w.inFlight[k].Begin? || w.inFlight[k].GotListener? {
      EarlyStageReports(w, k, ports, held, w');
    } else {
      ReadStageReports(w, k, ports, held, w');
    }
  }

  lemma ProvisionReports(w: World, a: Action, w': World, k: Key, ports: Option<seq<PortSpec>>, held: ListenerStatus)
    requires ReportInv(w, k, ports, held) && Next(w, a, w') && a.Provision?
    ensures ReportInv(w', k, ports, held)
  {
    if a.key == k && Backed(k, ports, w.services[k]) {
      BackedWithIngress(k, ports, w.services[k], a.ingress);
    }
  }

  lemma NextReports(w: World, a: Action, w': World, k: Key, ports: Option<seq<PortSpec>>, held: ListenerStatus)
    requires ReportInv(w, k, ports, held) && Next(w, a, w')
    requires a.PutListener? && a.decl.key == k ==> IsVersion(a.decl, k, ports)
    ensures ReportInv(w', k, ports, held)
  {
    if a.Advance? {
      AdvanceReports(w, a.key, w', k, ports, held);
    } else if a.Provision? {
      ProvisionReports(w, a, w', k, ports, held);
    }
  }

  // ---------------------------------------------------------------- whole runs

  predicate StartsAllocated(w: World, k: Key) {
    k in w.services ==> Allocated(w.services[k])
  }

  function StatusAt(w: World, k: Key): ListenerStatus {
    if k in w.listeners then w.listeners[k].listener.status else EMPTY_STATUS
  }

  /**
   * Over any run, a stored status is empty, is the one from before the run, or was computed from a Service that was
   * settled for some version of the listener, with its node ports allocated.
   */
  lemma {:induction false} StatusesAreReports(worlds: seq<World>, actions: seq<Action>, k: Key, ports: Option<seq<PortSpec>>)
    requires IsRun(worlds, actions) && StartsAllocated(worlds[0], k)
    requires k in worlds[0].listeners ==> IsVersion(worlds[0].listeners[k].listener.decl, k, ports)
    requires forall a :: a in actions && a.PutListener? && a.decl.key == k ==> IsVersion(a.decl, k, ports)
    ensures ReportInv(worlds[|actions|], k, ports, StatusAt(worlds[0], k))
    decreases |actions|
  {
    if actions != [] {
      StatusesAreReports(worlds[..|actions|], actions[..|actions| - 1], k, ports);
      NextReports(worlds[|actions| - 1], actions[|actions| - 1], worlds[|actions|], k, ports, StatusAt(worlds[0], k));
    }
  }

  // ---------------------------------------------------------------- one port table

  /** All entries of the status have the one port table, which node ports repeat if there are any. */
  predicate HasTable(status: ListenerStatus, table: map<string, int>) {
    && table != map[] && (status.nodePorts == map[] || status.nodePorts == table)
    && forall i :: 0 <= i < |status.ingressAddresses| ==> status.ingressAddresses[i].ports == table
  }

  /** A status computed from a Service with a port has the Service's table. */
  lemma ComputedHasTable(name: string, svc: Service, preferred: AddressType, nodes: Nodes, slices: seq<EndpointSlice>)
    requires AllPorts(svc) != map[] && ComputeStatus(name, svc, preferred, nodes, slices).Ok?
    ensures HasTable(ComputeStatus(name, svc, preferred, nodes, slices).value, AllPorts(svc))
  {
  }

  /** A settled Service has the listener's named ports, one for one, and at least one. */
  lemma SettledPorts(svc: Service, l: ListenerDecl, cls: ListenerClass)
    requires CreateService(Some(svc), l, cls) == Ok(NoChange)
    ensures var desired := DesiredPorts(l.spec.ports);
            && |svc.ports| == |desired| > 0
            && forall i :: 0 <= i < |desired| ==> svc.ports[i].name == desired[i].name && svc.ports[i].port == desired[i].port
  {
  }

  lemma BackedHasPorts(k: Key, ports: Option<seq<PortSpec>>, svc: Service)
    requires Backed(k, ports, svc)
    ensures AllPorts(svc) != map[]
  {
    var l, cls :| IsVersion(l, k, ports) && CreateService(Some(svc), l, cls) == Ok(NoChange);
    SettledPorts(svc, l, cls);
    DesiredPortsExact(l.spec.ports);
    assert DesiredPorts(l.spec.ports)[0] in DesiredPorts(l.spec.ports);
    PortTableNames(svc.ports, if svc.svcType.NodePort? then NodePortOf else PortOf, svc.ports[0].name);
  }

  lemma ReportedHasTable(k: Key, ports: Option<seq<PortSpec>>, status: ListenerStatus)
    requires Reported(k, ports, status)
    ensures exists table :: HasTable(status, table)
  {
    var svc :| Backed(k, ports, svc) && Describes(status, k, svc);
    BackedHasPorts(k, ports, svc);
    var preferred, nodes, list :| ComputeStatus(k.name, svc, preferred, nodes, list) == Ok(status);
    ComputedHasTable(k.name, svc, preferred, nodes, list);
  }

  /** Whatever is edited meanwhile, every status that the controller wrote in a run has one port table for all entries. */
  lemma WrittenStatusHasOneTable(worlds: seq<World>, actions: seq<Action>, k: Key)
    requires IsRun(worlds, actions) && StartsAllocated(worlds[0], k)
    ensures var status := StatusAt(worlds[|actions|], k);
            status != EMPTY_STATUS && status != StatusAt(worlds[0], k) ==> exists table :: HasTable(status, table)
  {
    RunStarts(worlds, actions);
    StatusesAreReports(worlds, actions, k, None);
    var status := StatusAt(worlds[|actions|], k);
    if status != EMPTY_STATUS && status != StatusAt(worlds[0], k) {
      ReportedHasTable(k, None, status);
    }
  }
}
