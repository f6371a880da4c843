/** From a pod's container ports to the port files of its volume. */
module PortConservation {
  import opened Kube
  import opened ServiceMerge
  import opened ServiceRuns
  import opened Status
  import opened VolumeTree
  import opened Publish
  import opened Reports
  import Reconcile

  lemma {:induction false} NamedPortsExact(ports: seq<ContainerPort>, p: PortSpec)
    ensures p in NamedPorts(ports) <==> p.name != "" && ContainerPort(p.name, p.protocol, p.port) in ports
  {
    if ports != [] {
      var front, last := ports[..|ports| - 1], ports[|ports| - 1];
      assert ports == front + [last];
      NamedPortsExact(front, p);
    }
  }

  lemma {:induction false} PodPortsExact(containers: seq<seq<ContainerPort>>, p: PortSpec)
    ensures p in PodPorts(containers) <==>
            p.name != "" && exists c :: c in containers && ContainerPort(p.name, p.protocol, p.port) in c
  {
    if containers != [] {
      var front, last := containers[..|containers| - 1], containers[|containers| - 1];
      assert containers == front + [last];
      PodPortsExact(front, p);
      NamedPortsExact(last, p);
    }
  }

  lemma {:induction false} AllNamedAreDesired(specs: seq<PortSpec>)
    requires forall p :: p in specs ==> p.name != ""
    ensures |DesiredPorts(specs)| == |specs|
    ensures forall i :: 0 <= i < |specs| ==> DesiredPorts(specs)[i] == DesiredPort(specs[i])
  {
    if specs != [] {
      AllNamedAreDesired(specs[..|specs| - 1]);
    }
  }

  predicate UniqueNames(specs: seq<PortSpec>) {
    forall i, j :: 0 <= i < j < |specs| ==> specs[i].name != specs[j].name
  }

  /** A Service with the given ports, one for one, and with every node port allocated that it needs. */
  predicate Carries(svc: Service, specs: seq<PortSpec>) {
    && |svc.ports| == |specs|
    && forall i :: 0 <= i < |specs| ==>
         && svc.ports[i].name == specs[i].name && svc.ports[i].port == specs[i].port
         && (svc.svcType.NodePort? ==> svc.ports[i].nodePort != 0)
  }

  /** Whatever was stored before, a write that was accepted carries the listener's ports. */
  lemma WrittenServiceCarries(stored: Option<Service>, l: ListenerDecl, cls: ListenerClass, written: Service, svc: Service)
    requires forall p :: p in l.spec.ports ==> p.name != ""
    requires CreateService(stored, l, cls) == Ok(Operation.Write(written)) && Accepts(written, svc)
    ensures Carries(svc, l.spec.ports)
  {
    AllNamedAreDesired(l.spec.ports);
    forall i | 0 <= i < |l.spec.ports|
      ensures && svc.ports[i].name == l.spec.ports[i].name && svc.ports[i].port == l.spec.ports[i].port
              && (svc.svcType.NodePort? ==> svc.ports[i].nodePort != 0)
    {
      assert PortFilled(WantsNodePorts(written), written.ports[i], svc.ports[i]);
    }
  }

  /** What a port of the Service is worth to a client. */
  function ClientPort(svc: Service, p: ServicePort): int {
    if svc.svcType.NodePort? then p.nodePort else p.port
  }

  lemma TableAt(svc: Service, specs: seq<PortSpec>, i: nat)
    requires Carries(svc, specs) && UniqueNames(specs) && i < |specs| && specs[i].name != ""
    ensures specs[i].name in AllPorts(svc) && AllPorts(svc)[specs[i].name] == ClientPort(svc, svc.ports[i])
  {
    PortTableValue(svc.ports, if svc.svcType.NodePort? then NodePortOf else PortOf, i);
  }

  lemma TableNameFrom(svc: Service, specs: seq<PortSpec>, n: string) returns (i: nat)
    requires Carries(svc, specs) && n in AllPorts(svc)
    ensures i < |specs| && specs[i].name == n && n != ""
  {
    PortTableNames(svc.ports, if svc.svcType.NodePort? then NodePortOf else PortOf, n);
    i :| 0 <= i < |svc.ports| && svc.ports[i].name == n;
  }

  /** A publish hands out the status's one port table, at whatever addresses. */
  lemma DataSharesTable(status: ListenerStatus, table: map<string, int>, own: Result<AddressInfo>)
    requires HasTable(status, table) && Addresses(status, own).Ok?
    ensures var data := Addresses(status, own).value;
            data != [] && forall i :: 0 <= i < |data| ==> data[i].ports == table
  {
  }

  lemma VolumeShowsTable(status: ListenerStatus, table: map<string, int>, own: Result<AddressInfo>,
                         base: Tree, t: Tree, target: Path)
    requires HasTable(status, table) && Addresses(status, own).Ok?
    requires var data := Addresses(status, own).value;
             Tidy(data) && IsVolume(base, t, target, Merged(data), Some(DefaultLink(data[|data| - 1].address)))
    ensures forall a :: a in ReadVolume(t, target) ==> ReadVolume(t, target)[a] == table
    ensures forall d :: d in Addresses(status, own).value ==> d.ports == table && d.address in ReadVolume(t, target)
  {
    var data := Addresses(status, own).value;
    DataSharesTable(status, table, own);
    SharedTableSurvives(data, table);
    VolumeReadsBack(base, t, target, Merged(data), data[|data| - 1].address);
  }

  /**
   * A repeated address in a status the controller wrote loses nothing: every entry handed to a publish can be read
   * back from the volume with its own ports, whether or not its directory was written more than once.
   */
  lemma RepeatedAddressesLoseNothing(worlds: seq<Reconcile.World>, actions: seq<Reconcile.Action>, k: Key,
                                     own: Result<AddressInfo>, base: Tree, t: Tree, target: Path)
    requires Reconcile.IsRun(worlds, actions) && StartsAllocated(worlds[0], k)
    requires StatusAt(worlds[|actions|], k) != StatusAt(worlds[0], k) && Addresses(StatusAt(worlds[|actions|], k), own).Ok?
    requires var data := Addresses(StatusAt(worlds[|actions|], k), own).value;
             Tidy(data) && IsVolume(base, t, target, Merged(data), Some(DefaultLink(data[|data| - 1].address)))
    ensures forall d :: d in Addresses(StatusAt(worlds[|actions|], k), own).value ==>
              d.address in ReadVolume(t, target) && ReadVolume(t, target)[d.address] == d.ports
  {
    var status := StatusAt(worlds[|actions|], k);
    WrittenStatusHasOneTable(worlds, actions, k);
    var table :| HasTable(status, table);
    VolumeShowsTable(status, table, own, base, t, target);
  }

  /** Every named container port is in the table, for its own number or for its node port. */
  predicate Conserves(svc: Service, table: map<string, int>, cp: ContainerPort) {
    && cp.name in table
    && if svc.svcType.NodePort?
       then table[cp.name] != 0 && exists p :: p in svc.ports && p.name == cp.name && p.nodePort == table[cp.name]
       else table[cp.name] == cp.containerPort
  }

  lemma ContainerPortIsConserved(containers: seq<seq<ContainerPort>>, svc: Service, c: seq<ContainerPort>, cp: ContainerPort)
    requires Carries(svc, PodPorts(containers)) && UniqueNames(PodPorts(containers))
    requires c in containers && cp in c && cp.name != ""
    ensures Conserves(svc, AllPorts(svc), cp)
  {
    var specs, p := PodPorts(containers), PortSpec(cp.name, cp.protocol, cp.containerPort);
    assert ContainerPort(p.name, p.protocol, p.port) == cp;
    PodPortsExact(containers, p);
    var i :| 0 <= i < |specs| && specs[i] == p;
    TableAt(svc, specs, i);
    assert svc.ports[i] in svc.ports;
  }

  lemma TableNameIsContainerPort(containers: seq<seq<ContainerPort>>, svc: Service, n: string)
    requires Carries(svc, PodPorts(containers)) && n in AllPorts(svc)
    ensures n != "" && exists c, cp :: c in containers && cp in c && cp.name == n
  {
    var i := TableNameFrom(svc, PodPorts(containers), n);
    var p := PodPorts(containers)[i];
    PodPortsExact(containers, p);
    var c :| c in containers && ContainerPort(p.name, p.protocol, p.port) in c;
    assert ContainerPort(p.name, p.protocol, p.port).name == n;
  }

  /** The table of a Service that carries the pod's ports has each named container port, and no other name. */
  lemma TableConserves(containers: seq<seq<ContainerPort>>, svc: Service)
    requires Carries(svc, PodPorts(containers)) && UniqueNames(PodPorts(containers))
    ensures forall n :: n in AllPorts(svc) <==> n != "" && exists c, cp :: c in containers && cp in c && cp.name == n
    ensures forall c, cp :: c in containers && cp in c && cp.name != "" ==> Conserves(svc, AllPorts(svc), cp)
  {
    forall c, cp | c in containers && cp in c && cp.name != ""
      ensures Conserves(svc, AllPorts(svc), cp)
    {
      ContainerPortIsConserved(containers, svc, c, cp);
    }
    forall n | n in AllPorts(svc)
      ensures n != "" && exists c, cp :: c in containers && cp in c && cp.name == n
    {
      TableNameIsContainerPort(containers, svc, n);
    }
  }

  lemma PodPortsAreNamed(containers: seq<seq<ContainerPort>>)
    ensures forall p :: p in PodPorts(containers) ==> p.name != ""
  {
    forall p | p in PodPorts(containers)
      ensures p.name != ""
    {
      PodPortsExact(containers, p);
    }
  }

  lemma AcceptedCarries(containers: seq<seq<ContainerPort>>, stored: Option<Service>, l: ListenerDecl, cls: ListenerClass,
                        written: Service, accepted: Service, svc: Service)
    requires l.spec.ports == PodPorts(containers) && UniqueNames(PodPorts(containers))
    requires CreateService(stored, l, cls) == Ok(Operation.Write(written)) && Accepts(written, accepted)
    requires svc == accepted.(ingress := svc.ingress)
    ensures Carries(svc, PodPorts(containers)) && AllPorts(svc) != map[]
  {
    PodPortsAreNamed(containers);
    WrittenServiceCarries(stored, l, cls, written, accepted);
    assert Carries(svc, PodPorts(containers));
    assert PodPorts(containers)[0] in PodPorts(containers);
    TableAt(svc, PodPorts(containers), 0);
  }

  /**
   * End to end: for a listener made from a pod with uniquely named ports, every address in the volume has a port
   * file for each named container port and no other. The number in it is the container port, or for a NodePort
   * Service the node port the server allocated, which is not zero. The Service that the status describes is the one
   * that was accepted, with whatever ingress a load balancer has reported since.
   */
  lemma PortsAreConserved(containers: seq<seq<ContainerPort>>, stored: Option<Service>, l: ListenerDecl, cls: ListenerClass,
                          written: Service, accepted: Service, svc: Service, preferred: AddressType, nodes: Nodes,
                          slices: seq<EndpointSlice>, own: Result<AddressInfo>, base: Tree, t: Tree, target: Path, a: string)
    requires l.spec.ports == PodPorts(containers) && UniqueNames(PodPorts(containers))
    requires CreateService(stored, l, cls) == Ok(Operation.Write(written)) && Accepts(written, accepted)
    requires svc == accepted.(ingress := svc.ingress) && ComputeStatus(l.key.name, svc, preferred, nodes, slices).Ok?
    requires Addresses(ComputeStatus(l.key.name, svc, preferred, nodes, slices).value, own).Ok?
    requires var data := Addresses(ComputeStatus(l.key.name, svc, preferred, nodes, slices).value, own).value;
             Tidy(data) && IsVolume(base, t, target, Merged(data), Some(DefaultLink(data[|data| - 1].address)))
    requires a in ReadVolume(t, target)
    ensures forall n :: n in ReadVolume(t, target)[a] <==>
              n != "" && exists c, cp :: c in containers && cp in c && cp.name == n
    ensures forall c, cp :: c in containers && cp in c && cp.name != "" ==> Conserves(svc, ReadVolume(t, target)[a], cp)
  {
    AcceptedCarries(containers, stored, l, cls, written, accepted, svc);
    ComputedHasTable(l.key.name, svc, preferred, nodes, slices);
    VolumeShowsTable(ComputeStatus(l.key.name, svc, preferred, nodes, slices).value, AllPorts(svc), own, base, t, target);
    TableConserves(containers, svc);
  }

  // ---------------------------------------------------------------- both runs together

  /** A settled Service with its node ports allocated carries the listener's ports. */
  lemma SettledServiceCarries(svc: Service, l: ListenerDecl, cls: ListenerClass)
    requires forall p :: p in l.spec.ports ==> p.name != ""
    requires CreateService(Some(svc), l, cls) == Ok(NoChange) && Allocated(svc)
    ensures Carries(svc, l.spec.ports)
  {
    AllNamedAreDesired(l.spec.ports);
    SettledPorts(svc, l, cls);
    assert forall i :: 0 <= i < |svc.ports| ==> svc.ports[i] in svc.ports;
  }

  lemma BackedCarries(k: Key, ports: seq<PortSpec>, svc: Service)
    requires Backed(k, Some(ports), svc) && forall p :: p in ports ==> p.name != ""
    ensures Carries(svc, ports)
  {
    var l, cls :| IsVersion(l, k, Some(ports)) && CreateService(Some(svc), l, cls) == Ok(NoChange);
    SettledServiceCarries(svc, l, cls);
  }

  /** The controller's run in which the listener is made from the pod's ports, and nobody edits them. */
  ghost predicate ServesPod(v: VolumeRequest, worlds: seq<Reconcile.World>, actions: seq<Reconcile.Action>) {
    var k := ListenerKey(v);
    && Reconcile.IsRun(worlds, actions) && k !in worlds[0].listeners && StartsAllocated(worlds[0], k)
    && UniqueNames(PodPorts(v.pod.containers))
    && forall a :: a in actions && a.PutListener? && a.decl.key == k ==> a.decl.spec.ports == FreshSpec(v).ports
  }

  /** The port files at every address are the pod's named ports, with the numbers the Service is reached at. */
  ghost predicate ShowsPorts(v: VolumeRequest, t: Tree, svc: Service) {
    forall a :: a in ReadVolume(t, v.target) ==>
      && (forall n :: n in ReadVolume(t, v.target)[a] <==>
            n != "" && exists c, cp :: c in v.pod.containers && cp in c && cp.name == n)
      && (forall c, cp :: c in v.pod.containers && cp in c && cp.name != "" ==>
            Conserves(svc, ReadVolume(t, v.target)[a], cp))
  }

  lemma CarriedIsShown(v: VolumeRequest, w: World, svc: Service, k: Key)
    requires SnapshotInv(w.phase) && TreeInv(v, w) && w.phase.Done? && Tidy(w.phase.snapshot.data)
    requires Describes(w.phase.snapshot.status, k, svc) && AllPorts(svc) != map[]
    requires Carries(svc, PodPorts(v.pod.containers)) && UniqueNames(PodPorts(v.pod.containers))
    ensures ShowsPorts(v, w.tree, svc)
  {
    var Snapshot(_, status, own, data) := w.phase.snapshot;
    var preferred, nodes, list :| ComputeStatus(k.name, svc, preferred, nodes, list) == Ok(status);
    ComputedHasTable(k.name, svc, preferred, nodes, list);
    var base :| IsVolume(base, w.tree, v.target, Merged(data), Some(DefaultLink(data[|data| - 1].address)));
    VolumeShowsTable(status, AllPorts(svc), own, base, w.tree, v.target);
    TableConserves(v.pod.containers, svc);
  }

  /**
   * The controller and the publisher together, each over any run of its own: if the status that a publish read is the
   * one the controller has stored for the volume's listener, the published volume conserves the pod's ports. The
   * Service that it conserves them for was settled for the listener; its type is any of the three.
   */
  lemma PublishConservesPorts(v: VolumeRequest, worlds: seq<World>, actions: seq<Action>,
                              reports: seq<Reconcile.World>, steps: seq<Reconcile.Action>)
    requires Valid(v) && Publish.IsRun(v, worlds, actions) && worlds[|actions|].phase.Done?
    requires ServesPod(v, reports, steps)
    requires StatusAt(reports[|steps|], ListenerKey(v)) == worlds[|actions|].phase.snapshot.status
    requires Tidy(worlds[|actions|].phase.snapshot.data)
    ensures exists svc :: Backed(ListenerKey(v), Some(FreshSpec(v).ports), svc) &&
              Describes(worlds[|actions|].phase.snapshot.status, ListenerKey(v), svc) &&
              ShowsPorts(v, worlds[|actions|].tree, svc)
  {
    var k, ports := ListenerKey(v), FreshSpec(v).ports;
    StatusesAreReports(reports, steps, k, Some(ports));
    RunKeepsInv(v, worlds, actions);
    var w := worlds[|actions|];
    var status := w.phase.snapshot.status;
    assert Reported(k, Some(ports), status);
    var svc :| Backed(k, Some(ports), svc) && Describes(status, k, svc);
    PodPortsAreNamed(v.pod.containers);
    BackedCarries(k, ports, svc);
    BackedHasPorts(k, Some(ports), svc);
    CarriedIsShown(v, w, svc, k);
  }
}
