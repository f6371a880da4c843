/** `createService`: the desired Service and its merge into the stored one. */
module ServiceMerge {
  import opened Kube

  /** The fields of a Service that the operator decides. */
  datatype Desired = Desired(
    ports: seq<ServicePort>,
    selector: Labels,
    svcType: ServiceType,
    publishNotReady: bool,
    policy: TrafficPolicy)

  const MOUNT_PREFIX := "listeners.kubedoop.dev/mnt."

  predicate Exposed(t: ServiceType) {
    t.NodePort? || t.LoadBalancer?
  }

  // ---------------------------------------------------------------- ports

  function DesiredPort(p: PortSpec): ServicePort {
    ServicePort(p.name, if p.protocol == "" then "TCP" else p.protocol, p.port, p.port, 0)
  }

  /** Named ports only, in order, with the protocol defaulted. */
  function DesiredPorts(specs: seq<PortSpec>): seq<ServicePort> {
    if specs == [] then []
    else
      var last := specs[|specs| - 1];
      DesiredPorts(specs[..|specs| - 1]) + if last.name != "" then [DesiredPort(last)] else []
  }

  method BuildDesiredPorts(specs: seq<PortSpec>) returns (ports: seq<ServicePort>)
    ensures ports == DesiredPorts(specs)
  {
    ports := [];
    for i := 0 to |specs|
      invariant ports == DesiredPorts(specs[..i])
    {
      assert specs[..i + 1][..i] == specs[..i];
      var port := specs[i];
      if port.name != "" {
        var protocol := port.protocol;
        if protocol == "" {
          protocol := "TCP";
        }
        ports := ports + [ServicePort(port.name, protocol, port.port, port.port, 0)];
      }
    }
    assert specs[..|specs|] == specs;
  }

  /** Every desired port comes from a named spec, every named spec gives one, and none has a node port yet. */
  lemma {:induction false} DesiredPortsExact(specs: seq<PortSpec>)
    ensures forall q :: q in DesiredPorts(specs) <==> exists p :: p in specs && p.name != "" && q == DesiredPort(p)
    ensures forall q :: q in DesiredPorts(specs) ==> q.nodePort == 0 && q.name != ""
  {
    if specs != [] {
      var front, last := specs[..|specs| - 1], specs[|specs| - 1];
      assert specs == front + [last];
      DesiredPortsExact(front);
    }
  }

  /** A named port keeps its number, which is its target port too, and is TCP unless it says otherwise. */
  lemma NamedPortIsDesired(specs: seq<PortSpec>, p: PortSpec)
    requires p in specs && p.name != ""
    ensures ServicePort(p.name, if p.protocol == "" then "TCP" else p.protocol, p.port, p.port, 0) in DesiredPorts(specs)
  {
    DesiredPortsExact(specs);
  }

  lemma OnePort(p: PortSpec)
    requires p.name != ""
    ensures DesiredPorts([p]) == [DesiredPort(p)]
  {
  }

  predicate SameIdentity(p: ServicePort, q: ServicePort) {
    p.name == q.name && p.protocol == q.protocol
  }

  /** The node port of the first existing port with this identity. */
  function FirstNodePort(existing: seq<ServicePort>, name: string, protocol: string): Option<int> {
    if existing == [] then None
    else if existing[0].name == name && existing[0].protocol == protocol then Some(existing[0].nodePort)
    else FirstNodePort(existing[1..], name, protocol)
  }

  lemma {:induction false} FirstNodePortExact(existing: seq<ServicePort>, name: string, protocol: string, j: nat)
    requires j < |existing| && existing[j].name == name && existing[j].protocol == protocol
    requires forall i :: 0 <= i < j ==> !(existing[i].name == name && existing[i].protocol == protocol)
    ensures FirstNodePort(existing, name, protocol) == Some(existing[j].nodePort)
  {
    if j > 0 {
      FirstNodePortExact(existing[1..], name, protocol, j - 1);
    }
  }

  lemma {:induction false} FirstNodePortNone(existing: seq<ServicePort>, name: string, protocol: string)
    ensures FirstNodePort(existing, name, protocol).None? <==>
            forall i :: 0 <= i < |existing| ==> !(existing[i].name == name && existing[i].protocol == protocol)
  {
    if existing != [] {
      FirstNodePortNone(existing[1..], name, protocol);
      assert existing == [existing[0]] + existing[1..];
      if FirstNodePort(existing, name, protocol).None? {
        forall i | 0 <= i < |existing|
          ensures !(existing[i].name == name && existing[i].protocol == protocol)
        {
          assert i > 0 ==> existing[i] == existing[1..][i - 1];
        }
      } else if !(existing[0].name == name && existing[0].protocol == protocol) {
        var i :| 0 <= i < |existing[1..]| && existing[1..][i].name == name && existing[1..][i].protocol == protocol;
        assert existing[i + 1] == existing[1..][i];
      }
    }
  }

  /** The index of the existing port a desired port inherits from. */
  lemma FirstNodePortAt(existing: seq<ServicePort>, name: string, protocol: string) returns (j: nat)
    requires FirstNodePort(existing, name, protocol).Some?
    ensures j < |existing| && existing[j].name == name && existing[j].protocol == protocol
    ensures FirstNodePort(existing, name, protocol) == Some(existing[j].nodePort)
    ensures forall i :: 0 <= i < j ==> !(existing[i].name == name && existing[i].protocol == protocol)
  {
    if existing[0].name == name && existing[0].protocol == protocol {
      j := 0;
    } else {
      var k := FirstNodePortAt(existing[1..], name, protocol);
      j := k + 1;
    }
  }

  function Inherit(p: ServicePort, existing: seq<ServicePort>): ServicePort {
    match FirstNodePort(existing, p.name, p.protocol)
    case Some(nodePort) => p.(nodePort := nodePort)
    case None => p
  }

  function KeepNodePorts(desired: seq<ServicePort>, existing: seq<ServicePort>): (ports: seq<ServicePort>)
    ensures |ports| == |desired|
    ensures forall i :: 0 <= i < |ports| ==> ports[i] == Inherit(desired[i], existing)
  {
    seq(|desired|, i requires 0 <= i < |desired| => Inherit(desired[i], existing))
  }

  /** The nested loops of the merge, on an array that is updated in place. */
  method InheritNodePorts(ports: array<ServicePort>, existing: seq<ServicePort>)
    modifies ports
    ensures ports[..] == KeepNodePorts(old(ports[..]), existing)
  {
    for i := 0 to ports.Length
      invariant forall k :: 0 <= k < i ==> ports[k] == Inherit(old(ports[k]), existing)
      invariant forall k :: i <= k < ports.Length ==> ports[k] == old(ports[k])
    {
      var j := 0;
      while j < |existing|
        invariant 0 <= j <= |existing|
        invariant forall m :: 0 <= m < j ==> !SameIdentity(existing[m], ports[i])
        invariant forall k :: 0 <= k < ports.Length && k != i ==> ports[k] == if k < i then Inherit(old(ports[k]), existing) else old(ports[k])
        invariant ports[i] == old(ports[i])
      {
        if existing[j].name == ports[i].name && existing[j].protocol == ports[i].protocol {
          FirstNodePortExact(existing, ports[i].name, ports[i].protocol, j);
          ports[i] := ports[i].(nodePort := existing[j].nodePort);
          break;
        }
        j := j + 1;
      }
      if j == |existing| {
        FirstNodePortNone(existing, ports[i].name, ports[i].protocol);
      }
    }
    assert |old(ports[..])| == ports.Length;
    assert ports[..] == KeepNodePorts(old(ports[..]), existing);
  }

  method MergePorts(desired: Desired, existing: seq<ServicePort>) returns (ports: seq<ServicePort>)
    ensures ports == if Exposed(desired.svcType) then KeepNodePorts(desired.ports, existing) else desired.ports
  {
    var merged := new ServicePort[|desired.ports|](i requires 0 <= i < |desired.ports| => desired.ports[i]);
    assert merged[..] == desired.ports;
    if desired.svcType == NodePort || desired.svcType == LoadBalancer {
      InheritNodePorts(merged, existing);
    }
    ports := merged[..];
  }

  // ---------------------------------------------------------------- merge

  /** controller-runtime's `SetControllerReference`: an object has one controller, and only that one may claim it. */
  predicate MayControl(current: Option<OwnerRef>, owner: OwnerRef) {
    current.None? || (current.value.kind == owner.kind && current.value.name == owner.name)
  }

  function Merge(stored: Service, desired: Desired, owner: OwnerRef): Result<Service> {
    if !MayControl(stored.controller, owner) then Err("already owned")
    else
      var lb := desired.svcType.LoadBalancer?;
      Ok(stored.(
         ports := if Exposed(desired.svcType) then KeepNodePorts(desired.ports, stored.ports) else desired.ports,
         selector := desired.selector,
         svcType := desired.svcType,
         publishNotReady := desired.publishNotReady,
         policy := desired.policy,
         allocateNodePorts := if lb then stored.allocateNodePorts else None,
         lbClass := if lb then stored.lbClass else None,
         healthCheckNodePort := if lb && desired.policy.Local? then stored.healthCheckNodePort else 0,
         controller := Some(owner)))
  }

  /** The Service object that the merge closure updates in place, field by field. */
  class ServiceObject {
    var value: Service

    constructor (s: Service)
      ensures value == s
    {
      value := s;
    }

    /** The closure: the result is what `Merge` says, and an object another controller owns is refused. */
    method Mutate(desired: Desired, owner: OwnerRef) returns (ok: bool)
      modifies this
      ensures ok == Merge(old(value), desired, owner).Ok?
      ensures ok ==> Merge(old(value), desired, owner) == Ok(value)
      ensures !ok ==> value.controller == old(value.controller)
    {
      var ports := MergePorts(desired, value.ports);
      value := value.(ports := ports);
      value := value.(selector := desired.selector);
      value := value.(svcType := desired.svcType);
      value := value.(publishNotReady := desired.publishNotReady);
      value := value.(policy := desired.policy);
      if desired.svcType != LoadBalancer {
        value := value.(allocateNodePorts := None);
        value := value.(lbClass := None);
      }
      if desired.svcType != LoadBalancer || desired.policy != Local {
        value := value.(healthCheckNodePort := 0);
      }
      ok := MayControl(value.controller, owner);
      if ok {
        value := value.(controller := Some(owner));
      }
    }
  }

  // ---------------------------------------------------------------- createService

  /** Go's `strings.ReplaceAll(uid, "-", "")`. */
  function StripDashes(s: string): string {
    if s == "" then "" else (if s[0] == '-' then "" else [s[0]]) + StripDashes(s[1..])
  }

  function MountKey(uid: string): string {
    MOUNT_PREFIX + StripDashes(uid)
  }

  function MountLabels(l: ListenerDecl): Labels {
    map[MountKey(l.uid) := l.key.name]
  }

  /** `maps.Copy(labels, extra)`: the extra labels win. */
  function SelectorLabels(l: ListenerDecl): Labels {
    MountLabels(l) + l.spec.extraSelector
  }

  function Owner(l: ListenerDecl): OwnerRef {
    OwnerRef("Listener", l.key.name, l.uid)
  }

  function Desire(l: ListenerDecl, cls: ListenerClass): Result<Desired> {
    var ports := DesiredPorts(l.spec.ports);
    if ports == [] then Err("could not find any valid ports in listener")
    else if cls.serviceType.None? then Err("nil service type")
    else
      var t := cls.serviceType.value;
      Ok(Desired(ports, SelectorLabels(l), t,
                 l.spec.publishNotReady.None? || l.spec.publishNotReady.value,
                 if Exposed(t) then cls.policy else Unset))
  }

  /** The in-memory object that is created when nothing is stored. */
  function NewService(key: Key, d: Desired): Service {
    Service(key, None, d.ports, d.selector, d.svcType, d.publishNotReady, d.policy, None, None, 0, [], map[], [])
  }

  datatype Operation = NoChange | Write(service: Service)

  /** `CreateOrUpdate` with the merge closure: what, if anything, goes to the API server. */
  function CreateService(stored: Option<Service>, l: ListenerDecl, cls: ListenerClass): Result<Operation> {
    var d :- Desire(l, cls);
    match stored
    case None =>
      var merged :- Merge(NewService(l.key, d), d, Owner(l));
      Ok(Write(merged))
    case Some(s) =>
      var merged :- Merge(s, d, Owner(l));
      Ok(if merged == s then NoChange else Write(merged))
  }

  /** `createService` after the class has been read: loops, merge closure and comparison, in the source's order. */
  method RunCreateService(stored: Option<Service>, l: ListenerDecl, cls: ListenerClass) returns (r: Result<Operation>)
    ensures r.Ok? == CreateService(stored, l, cls).Ok?
    ensures r.Ok? ==> r == CreateService(stored, l, cls)
  {
    var ports := BuildDesiredPorts(l.spec.ports);
    if ports == [] {
      return Err("could not find any valid ports in listener");
    }
    if cls.serviceType.None? {
      return Err("nil service type");
    }
    var t := cls.serviceType.value;
    var desired := Desired(ports, SelectorLabels(l), t, l.spec.publishNotReady.None? || l.spec.publishNotReady.value, Unset);
    if t == NodePort || t == LoadBalancer {
      desired := desired.(policy := cls.policy);
    }
    var existing := if stored.Some? then stored.value else NewService(l.key, desired);
    var service := new ServiceObject(existing);
    var owned := service.Mutate(desired, Owner(l));
    if !owned {
      return Err("already owned");
    }
    if stored.Some? && service.value == existing {
      return Ok(NoChange);
    }
    return Ok(Write(service.value));
  }

  // ---------------------------------------------------------------- properties of the merge

  predicate UniqueIdentities(ports: seq<ServicePort>) {
    forall i, j :: 0 <= i < j < |ports| ==> !SameIdentity(ports[i], ports[j])
  }

  /** Kubernetes allocates a node port once per protocol. */
  predicate DistinctNodePorts(ports: seq<ServicePort>) {
    forall i, j :: 0 <= i < j < |ports| && ports[i].protocol == ports[j].protocol && ports[i].nodePort != 0
      ==> ports[i].nodePort != ports[j].nodePort
  }

  /** Merging twice is merging once, even when desired identities repeat. */
  lemma RemergeIsIdentity(desired: seq<ServicePort>, existing: seq<ServicePort>)
    requires forall p :: p in desired ==> p.nodePort == 0
    ensures KeepNodePorts(desired, KeepNodePorts(desired, existing)) == KeepNodePorts(desired, existing)
  {
    var once := KeepNodePorts(desired, existing);
    var twice := KeepNodePorts(desired, once);
    forall i | 0 <= i < |desired|
      ensures twice[i] == once[i]
    {
      assert SameIdentity(once[i], desired[i]);
      FirstNodePortNone(once, desired[i].name, desired[i].protocol);
      var j := FirstNodePortAt(once, desired[i].name, desired[i].protocol);
      assert desired[i] in desired && desired[j] in desired;
    }
    assert twice == once;
  }

  /** No node port is handed to two ports: distinct allocations stay distinct when identities are unique. */
  lemma MergeKeepsAllocationsDistinct(desired: seq<ServicePort>, existing: seq<ServicePort>)
    requires UniqueIdentities(desired)
    requires forall p :: p in desired ==> p.nodePort == 0
    requires DistinctNodePorts(existing)
    ensures DistinctNodePorts(KeepNodePorts(desired, existing))
  {
    var merged := KeepNodePorts(desired, existing);
    forall i, j | 0 <= i < j < |merged| && merged[i].protocol == merged[j].protocol && merged[i].nodePort != 0
      ensures merged[i].nodePort != merged[j].nodePort
    {
      assert !SameIdentity(desired[i], desired[j]);
      assert desired[i] in desired && desired[j] in desired;
      var a := FirstNodePortAt(existing, desired[i].name, desired[i].protocol);
      if merged[j].nodePort != 0 {
        var b := FirstNodePortAt(existing, desired[j].name, desired[j].protocol);
        assert a != b;
      }
    }
  }
}
