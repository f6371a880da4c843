/** Address choice and the listener status that `updateListenerStatus` builds. */
module Status {
  import opened Kube

  // ---------------------------------------------------------------- pkg/util/address.go

  /** None is the nil pointer that the callers go on to dereference. */
  function Pick(a: AddressInfo, preferred: AddressType): Option<AddressInfo> {
    if preferred.IP? then
      Some(if a.addressType.IP? then a else AddressInfo(a.address, IP))
    else if a.addressType.Hostname? then
      Some(if preferred.Hostname? then a else AddressInfo(a.address, Hostname))
    else None
  }

  function Recognise(a: NodeAddress): Option<AddressInfo> {
    match a.kind
    case ExternalIP => Some(AddressInfo(a.address, IP))
    case InternalIP => Some(AddressInfo(a.address, IP))
    case HostName => Some(AddressInfo(a.address, Hostname))
    case OtherKind => None
  }

  /** The first recognised address in list order, whatever its kind. */
  function PriorAddress(addresses: seq<NodeAddress>): Option<AddressInfo> {
    if addresses == [] then None
    else if Recognise(addresses[0]).Some? then Recognise(addresses[0])
    else PriorAddress(addresses[1..])
  }

  /** External and internal IPs and host names are all recognised, and the first of them is taken. */
  lemma {:induction false} PriorAddressIsFirst(addresses: seq<NodeAddress>, i: nat)
    requires i < |addresses| && !addresses[i].kind.OtherKind?
    requires forall j :: 0 <= j < i ==> addresses[j].kind.OtherKind?
    ensures PriorAddress(addresses) ==
            Some(AddressInfo(addresses[i].address, if addresses[i].kind.HostName? then Hostname else IP))
  {
    if i > 0 {
      PriorAddressIsFirst(addresses[1..], i - 1);
    }
  }

  /** There is none, which is the source's error, exactly when every address is of another kind. */
  lemma {:induction false} PriorAddressNone(addresses: seq<NodeAddress>)
    ensures PriorAddress(addresses).None? <==> forall a :: a in addresses ==> a.kind.OtherKind?
  {
    if addresses != [] {
      assert addresses == [addresses[0]] + addresses[1..];
      PriorAddressNone(addresses[1..]);
    }
  }

  // ---------------------------------------------------------------- gathering

  type Nodes = map<string, seq<NodeAddress>>

  function KnownNodes(endpoints: seq<Option<string>>): seq<string> {
    if endpoints == [] then []
    else
      var last := endpoints[|endpoints| - 1];
      KnownNodes(endpoints[..|endpoints| - 1]) + if last.Some? then [last.value] else []
  }

  function NodeNames(slices: seq<EndpointSlice>): seq<string> {
    if slices == [] then []
    else NodeNames(slices[..|slices| - 1]) + KnownNodes(slices[|slices| - 1].endpoints)
  }

  /** `getNodeNames`: one name per endpoint that has a node, repeats included. */
  method GetNodeNames(slices: seq<EndpointSlice>) returns (names: seq<string>)
    ensures names == NodeNames(slices)
  {
    names := [];
    for i := 0 to |slices|
      invariant names == NodeNames(slices[..i])
    {
      assert slices[..i + 1][..i] == slices[..i];
      var endpoints := slices[i].endpoints;
      for j := 0 to |endpoints|
        invariant names == NodeNames(slices[..i]) + KnownNodes(endpoints[..j])
      {
        assert endpoints[..j + 1][..j] == endpoints[..j];
        if endpoints[j].Some? {
          names := names + [endpoints[j].value];
        }
      }
      assert endpoints[..|endpoints|] == endpoints;
    }
    assert slices[..|slices|] == slices;
  }

  function NodeAddressOf(name: string, nodes: Nodes): Result<AddressInfo> {
    if name !in nodes then Err("node not found")
    else
      match PriorAddress(nodes[name])
      case Some(a) => Ok(a)
      case None => Err("no address found")
  }

  function NodesAddresses(names: seq<string>, nodes: Nodes): Result<seq<AddressInfo>> {
    if names == [] then Ok([])
    else
      var front :- NodesAddresses(names[..|names| - 1], nodes);
      var last :- NodeAddressOf(names[|names| - 1], nodes);
      Ok(front + [last])
  }

  lemma {:induction false} NodesAddressesFail(names: seq<string>, nodes: Nodes, i: nat)
    requires i <= |names| && NodesAddresses(names[..i], nodes).Err?
    ensures NodesAddresses(names, nodes) == NodesAddresses(names[..i], nodes)
    decreases |names|
  {
    if i < |names| {
      assert names[..|names| - 1][..i] == names[..i];
      NodesAddressesFail(names[..|names| - 1], nodes, i);
    } else {
      assert names[..i] == names;
    }
  }

  method GetNodesAddresses(slices: seq<EndpointSlice>, nodes: Nodes) returns (r: Result<seq<AddressInfo>>)
    ensures r == NodesAddresses(NodeNames(slices), nodes)
  {
    var names := GetNodeNames(slices);
    var addresses := [];
    for i := 0 to |names|
      invariant NodesAddresses(names[..i], nodes) == Ok(addresses)
    {
      assert names[..i + 1][..i] == names[..i];
      var a := NodeAddressOf(names[i], nodes);
      if a.Err? {
        NodesAddressesFail(names, nodes, i + 1);
        return Err(a.error);
      }
      addresses := addresses + [a.value];
    }
    assert names[..|names|] == names;
    return Ok(addresses);
  }

  function IngressAddressesOf(ingress: Ingress): seq<AddressInfo> {
    (if ingress.hostname != "" then [AddressInfo(ingress.hostname, Hostname)] else []) +
    (if ingress.ip != "" then [AddressInfo(ingress.ip, IP)] else [])
  }

  function LbAddresses(ingress: seq<Ingress>): seq<AddressInfo> {
    if ingress == [] then []
    else LbAddresses(ingress[..|ingress| - 1]) + IngressAddressesOf(ingress[|ingress| - 1])
  }

  method GetLbIngressAddresses(svc: Service) returns (r: Result<seq<AddressInfo>>)
    ensures r.Ok? <==> svc.svcType.LoadBalancer? && svc.ingress != []
    ensures r.Ok? ==> r.value == LbAddresses(svc.ingress)
  {
    if svc.svcType != LoadBalancer {
      return Err("service is not of type LoadBalancer");
    }
    if svc.ingress == [] {
      return Err("service has no LoadBalancer Ingress");
    }
    var addresses := [];
    for i := 0 to |svc.ingress|
      invariant addresses == LbAddresses(svc.ingress[..i])
    {
      assert svc.ingress[..i + 1][..i] == svc.ingress[..i];
      if svc.ingress[i].hostname != "" {
        addresses := addresses + [AddressInfo(svc.ingress[i].hostname, Hostname)];
      }
      if svc.ingress[i].ip != "" {
        addresses := addresses + [AddressInfo(svc.ingress[i].ip, IP)];
      }
    }
    assert svc.ingress[..|svc.ingress|] == svc.ingress;
    return Ok(addresses);
  }

  function PortOf(p: ServicePort): int {
    p.port
  }

  function NodePortOf(p: ServicePort): int {
    p.nodePort
  }

  /** Named ports by name; a later port of the same name wins. */
  function PortTable(ports: seq<ServicePort>, value: ServicePort -> int): map<string, int> {
    if ports == [] then map[]
    else
      var last := ports[|ports| - 1];
      var table := PortTable(ports[..|ports| - 1], value);
      if last.name == "" then table else table[last.name := value(last)]
  }

  lemma {:induction false} PortTableNames(ports: seq<ServicePort>, value: ServicePort -> int, name: string)
    ensures name in PortTable(ports, value) <==> name != "" && exists p :: p in ports && p.name == name
  {
    if ports != [] {
      var front, last := ports[..|ports| - 1], ports[|ports| - 1];
      assert ports == front + [last];
      PortTableNames(front, value, name);
    }
  }

  lemma {:induction false} PortTableValue(ports: seq<ServicePort>, value: ServicePort -> int, i: nat)
    requires i < |ports| && ports[i].name != ""
    requires forall j :: i < j < |ports| ==> ports[j].name != ports[i].name
    ensures ports[i].name in PortTable(ports, value)
    ensures PortTable(ports, value)[ports[i].name] == value(ports[i])
  {
    if i < |ports| - 1 {
      PortTableValue(ports[..|ports| - 1], value, i);
    }
  }

  method FillPortTable(ports: seq<ServicePort>, value: ServicePort -> int) returns (table: map<string, int>)
    ensures table == PortTable(ports, value)
  {
    table := map[];
    for i := 0 to |ports|
      invariant table == PortTable(ports[..i], value)
    {
      assert ports[..i + 1][..i] == ports[..i];
      if ports[i].name == "" {
        continue;
      }
      table := table[ports[i].name := value(ports[i])];
    }
    assert ports[..|ports|] == ports;
  }

  method GetNodePorts(svc: Service) returns (r: Result<map<string, int>>)
    ensures r.Ok? <==> svc.svcType.NodePort?
    ensures r.Ok? ==> r.value == PortTable(svc.ports, NodePortOf)
  {
    if svc.svcType != NodePort {
      return Err("service is not of type NodePort");
    }
    var ports := FillPortTable(svc.ports, NodePortOf);
    return Ok(ports);
  }

  // ---------------------------------------------------------------- updateListenerStatus

  /** `preferredAddressType` on the class that was read. */
  function Preferred(cls: ListenerClass): Result<AddressType> {
    if !cls.preferred.HostnameConservative? then Ok(cls.preferred)
    else if cls.serviceType.None? then Err("nil service type")
    else Ok(if cls.serviceType.value.NodePort? then IP else Hostname)
  }

  function ServiceFQDN(key: Key): string {
    key.name + "." + key.namespace + ".svc.cluster.local"
  }

  function AsIPs(addresses: seq<string>): seq<AddressInfo> {
    seq(|addresses|, i requires 0 <= i < |addresses| => AddressInfo(addresses[i], IP))
  }

  method GetClusterIpAddresses(svc: Service) returns (r: Result<seq<AddressInfo>>)
    ensures r.Ok? <==> svc.svcType.ClusterIP?
    ensures r.Ok? ==> r.value == AsIPs(svc.clusterIPs)
  {
    if svc.svcType != ClusterIP {
      return Err("service is not of type ClusterIP");
    }
    var addresses := [];
    for i := 0 to |svc.clusterIPs|
      invariant addresses == AsIPs(svc.clusterIPs[..i])
    {
      addresses := addresses + [AddressInfo(svc.clusterIPs[i], IP)];
    }
    assert svc.clusterIPs[..|svc.clusterIPs|] == svc.clusterIPs;
    return Ok(addresses);
  }

  /** The addresses a Service is reached at, before the preference is applied. */
  function Gathered(svc: Service, preferred: AddressType, nodes: Nodes, slices: seq<EndpointSlice>): Result<seq<AddressInfo>> {
    match svc.svcType
    case NodePort => NodesAddresses(NodeNames(slices), nodes)
    case LoadBalancer =>
      if svc.ingress == [] then Err("service has no LoadBalancer Ingress") else Ok(LbAddresses(svc.ingress))
    case ClusterIP =>
      Ok(if preferred.IP? then AsIPs(svc.clusterIPs) else [AddressInfo(ServiceFQDN(svc.key), Hostname)])
    case ExternalName => Err("unsupported service type")
  }

  function AllPorts(svc: Service): map<string, int> {
    PortTable(svc.ports, if svc.svcType.NodePort? then NodePortOf else PortOf)
  }

  predicate Pickable(addresses: seq<AddressInfo>, preferred: AddressType) {
    preferred.IP? || forall a :: a in addresses ==> a.addressType.Hostname?
  }

  function Entry(a: AddressInfo, preferred: AddressType, ports: map<string, int>): IngressAddress {
    IngressAddress(a.address, if preferred.IP? then IP else Hostname, ports)
  }

  function Entries(addresses: seq<AddressInfo>, preferred: AddressType, ports: map<string, int>): (r: seq<IngressAddress>)
    ensures |r| == |addresses|
  {
    seq(|addresses|, i requires 0 <= i < |addresses| => Entry(addresses[i], preferred, ports))
  }

  /** The status, said without the loops: one entry per gathered address, or a failure on the first unpickable one. */
  function ComputeStatus(name: string, svc: Service, preferred: AddressType, nodes: Nodes, slices: seq<EndpointSlice>)
    : Result<ListenerStatus>
  {
    var addresses :- Gathered(svc, preferred, nodes, slices);
    if Pickable(addresses, preferred) then
      Ok(ListenerStatus(name, Entries(addresses, preferred, AllPorts(svc)),
                        if svc.svcType.NodePort? then AllPorts(svc) else map[]))
    else Err("nil address")
  }

  /** The loop shared by the three branches that pick: it appends until a pick is nil. */
  method AppendPicked(addresses: seq<AddressInfo>, preferred: AddressType, ports: map<string, int>)
    returns (r: Result<seq<IngressAddress>>)
    ensures r == if Pickable(addresses, preferred) then Ok(Entries(addresses, preferred, ports)) else Err("nil address")
  {
    var entries := [];
    for i := 0 to |addresses|
      invariant entries == Entries(addresses[..i], preferred, ports)
      invariant Pickable(addresses[..i], preferred)
    {
      var picked := Pick(addresses[i], preferred);
      if picked.None? {
        assert addresses[i] in addresses;
        return Err("nil address");
      }
      entries := entries + [IngressAddress(picked.value.address, picked.value.addressType, ports)];
      assert addresses[..i + 1] == addresses[..i] + [addresses[i]];
      assert entries == Entries(addresses[..i + 1], preferred, ports);
    }
    assert addresses[..|addresses|] == addresses;
    return Ok(entries);
  }

  function Report(name: string, entries: Result<seq<IngressAddress>>, nodePorts: map<string, int>): Result<ListenerStatus> {
    match entries
    case Ok(es) => Ok(ListenerStatus(name, es, nodePorts))
    case Err(e) => Err(e)
  }

  method BuildStatus(name: string, svc: Service, preferred: AddressType, nodes: Nodes, slices: seq<EndpointSlice>)
    returns (r: Result<ListenerStatus>)
    ensures r.Ok? == ComputeStatus(name, svc, preferred, nodes, slices).Ok?
    ensures r.Ok? ==> r == ComputeStatus(name, svc, preferred, nodes, slices)
  {
    var servicePorts := FillPortTable(svc.ports, PortOf);
    match svc.svcType
    case NodePort =>
      var ports := GetNodePorts(svc);
      var addresses := GetNodesAddresses(slices, nodes);
      if addresses.Err? {
        return Err(addresses.error);
      }
      var entries := AppendPicked(addresses.value, preferred, ports.value);
      return Report(name, entries, ports.value);
    case LoadBalancer =>
      var addresses := GetLbIngressAddresses(svc);
      if addresses.Err? {
        return Err(addresses.error);
      }
      var entries := AppendPicked(addresses.value, preferred, servicePorts);
      return Report(name, entries, map[]);
    case ClusterIP =>
      if preferred == IP {
        var addresses := GetClusterIpAddresses(svc);
        var entries := AppendPicked(addresses.value, preferred, servicePorts);
        return Report(name, entries, map[]);
      }
      var entries := [IngressAddress(ServiceFQDN(svc.key), Hostname, servicePorts)];
      assert entries == Entries([AddressInfo(ServiceFQDN(svc.key), Hostname)], preferred, servicePorts);
      return Ok(ListenerStatus(name, entries, map[]));
    case ExternalName =>
      return Err("unsupported service type");
  }

  /** Addresses are gathered as IPs or host names, and nothing else. */
  lemma GatheredTypes(svc: Service, preferred: AddressType, nodes: Nodes, slices: seq<EndpointSlice>)
    requires Gathered(svc, preferred, nodes, slices).Ok?
    ensures forall a :: a in Gathered(svc, preferred, nodes, slices).value ==> a.addressType.IP? || a.addressType.Hostname?
  {
    if svc.svcType.NodePort? {
      NodesAddressesTypes(NodeNames(slices), nodes);
    } else if svc.svcType.LoadBalancer? {
      LbAddressesTypes(svc.ingress);
    }
  }

  lemma {:induction false} PriorAddressType(addresses: seq<NodeAddress>)
    requires PriorAddress(addresses).Some?
    ensures PriorAddress(addresses).value.addressType.IP? || PriorAddress(addresses).value.addressType.Hostname?
  {
    if Recognise(addresses[0]).None? {
      PriorAddressType(addresses[1..]);
    }
  }

  lemma {:induction false} NodesAddressesTypes(names: seq<string>, nodes: Nodes)
    requires NodesAddresses(names, nodes).Ok?
    ensures |NodesAddresses(names, nodes).value| == |names|
    ensures forall a :: a in NodesAddresses(names, nodes).value ==> a.addressType.IP? || a.addressType.Hostname?
  {
    if names != [] {
      NodesAddressesTypes(names[..|names| - 1], nodes);
      PriorAddressType(nodes[names[|names| - 1]]);
    }
  }

  lemma {:induction false} LbAddressesTypes(ingress: seq<Ingress>)
    ensures forall a :: a in LbAddresses(ingress) ==> a.addressType.IP? || a.addressType.Hostname?
  {
    if ingress != [] {
      LbAddressesTypes(ingress[..|ingress| - 1]);
    }
  }

  /**
   * Past gathering, the status is built exactly when the preference is IP or no gathered address is an IP. It
   * then has one entry per address in order, its text unchanged, all of one type and with one port table; node
   * ports are reported for a NodePort Service only.
   */
  lemma StatusExactly(name: string, svc: Service, preferred: AddressType, nodes: Nodes, slices: seq<EndpointSlice>)
    requires Gathered(svc, preferred, nodes, slices).Ok?
    ensures var addresses := Gathered(svc, preferred, nodes, slices).value;
            var r := ComputeStatus(name, svc, preferred, nodes, slices);
            && (r.Ok? <==> preferred.IP? || !exists a :: a in addresses && a.addressType.IP?)
            && (r.Ok? ==>
                  && r.value.serviceName == name
                  && |r.value.ingressAddresses| == |addresses|
                  && (forall i :: 0 <= i < |addresses| ==>
                        && r.value.ingressAddresses[i].address == addresses[i].address
                        && r.value.ingressAddresses[i].addressType == (if preferred.IP? then IP else Hostname)
                        && r.value.ingressAddresses[i].ports == AllPorts(svc))
                  && (r.value.nodePorts == if svc.svcType.NodePort? then AllPorts(svc) else map[]))
  {
    GatheredTypes(svc, preferred, nodes, slices);
  }

  // ---------------------------------------------------------------- what is gathered

  lemma {:induction false} KnownNodesExact(endpoints: seq<Option<string>>, name: string)
    ensures name in KnownNodes(endpoints) <==> Some(name) in endpoints
  {
    if endpoints != [] {
      var front, last := endpoints[..|endpoints| - 1], endpoints[|endpoints| - 1];
      assert endpoints == front + [last];
      KnownNodesExact(front, name);
    }
  }

  /** Node names come from the endpoints that have one, and from all of them. */
  lemma {:induction false} NodeNamesExact(slices: seq<EndpointSlice>, name: string)
    ensures name in NodeNames(slices) <==> exists s :: s in slices && Some(name) in s.endpoints
  {
    if slices != [] {
      var front, last := slices[..|slices| - 1], slices[|slices| - 1];
      assert slices == front + [last];
      NodeNamesExact(front, name);
      KnownNodesExact(last.endpoints, name);
    }
  }

  /** Names are taken slice by slice and endpoint by endpoint; a repeated node is named again. */
  lemma {:induction false} NodeNamesInOrder(slices: seq<EndpointSlice>, more: seq<EndpointSlice>)
    ensures NodeNames(slices + more) == NodeNames(slices) + NodeNames(more)
  {
    if more == [] {
      assert slices + more == slices;
    } else {
      var front, last := more[..|more| - 1], more[|more| - 1];
      assert (slices + more)[..|slices + more| - 1] == slices + front;
      NodeNamesInOrder(slices, front);
    }
  }

  lemma {:induction false} KnownNodesInOrder(endpoints: seq<Option<string>>, node: string, more: seq<Option<string>>)
    ensures KnownNodes(endpoints + [Some(node)] + more) == KnownNodes(endpoints) + [node] + KnownNodes(more)
    ensures KnownNodes(endpoints + [None] + more) == KnownNodes(endpoints) + KnownNodes(more)
    decreases |more|
  {
    var some, none := endpoints + [Some(node)] + more, endpoints + [None] + more;
    if more == [] {
      assert some[..|some| - 1] == endpoints && none[..|none| - 1] == endpoints;
    } else {
      var front := more[..|more| - 1];
      assert some[..|some| - 1] == endpoints + [Some(node)] + front;
      assert none[..|none| - 1] == endpoints + [None] + front;
      KnownNodesInOrder(endpoints, node, front);
    }
  }

  /** A node is usable exactly when it is there and has an address of a kind that is recognised. */
  lemma NodeUsableExactly(name: string, nodes: Nodes)
    ensures NodeAddressOf(name, nodes).Ok? <==> name in nodes && exists a :: a in nodes[name] && !a.kind.OtherKind?
    ensures NodeAddressOf(name, nodes).Ok? ==> PriorAddress(nodes[name]) == Some(NodeAddressOf(name, nodes).value)
  {
    if name in nodes {
      PriorAddressNone(nodes[name]);
    }
  }

  /** One address per node name, in order and repeats included; one unusable node is enough to fail. */
  lemma {:induction false} NodesAddressesExact(names: seq<string>, nodes: Nodes)
    ensures NodesAddresses(names, nodes).Ok? <==> forall n :: n in names ==> NodeAddressOf(n, nodes).Ok?
    ensures NodesAddresses(names, nodes).Ok? ==>
              && |NodesAddresses(names, nodes).value| == |names|
              && forall i :: 0 <= i < |names| ==> NodeAddressOf(names[i], nodes) == Ok(NodesAddresses(names, nodes).value[i])
  {
    if names != [] {
      var front, last := names[..|names| - 1], names[|names| - 1];
      assert names == front + [last];
      NodesAddressesExact(front, nodes);
    }
  }

  lemma {:induction false} LbAddressesExact(ingress: seq<Ingress>, a: AddressInfo)
    ensures a in LbAddresses(ingress) <==>
            a.address != "" && exists x :: x in ingress && (a == AddressInfo(x.hostname, Hostname) || a == AddressInfo(x.ip, IP))
  {
    if ingress != [] {
      var front, last := ingress[..|ingress| - 1], ingress[|ingress| - 1];
      assert ingress == front + [last];
      LbAddressesExact(front, a);
    }
  }

  lemma {:induction false} LbAddressesConcat(ingress: seq<Ingress>, more: seq<Ingress>)
    ensures LbAddresses(ingress + more) == LbAddresses(ingress) + LbAddresses(more)
  {
    if more == [] {
      assert ingress + more == ingress;
    } else {
      assert (ingress + more)[..|ingress + more| - 1] == ingress + more[..|more| - 1];
      LbAddressesConcat(ingress, more[..|more| - 1]);
    }
  }

  /** Ingress by ingress, the host name before the IP address, so that the last address is the last one reported. */
  lemma LbAddressesInOrder(ingress: seq<Ingress>, x: Ingress, more: seq<Ingress>)
    requires x.hostname != "" && x.ip != ""
    ensures LbAddresses(ingress + ([x] + more)) ==
            LbAddresses(ingress) + ([AddressInfo(x.hostname, Hostname), AddressInfo(x.ip, IP)] + LbAddresses(more))
  {
    LbAddressesConcat(ingress, [x] + more);
    LbAddressesConcat([x], more);
    assert [x][..0] == [];
    assert LbAddresses([x]) == [AddressInfo(x.hostname, Hostname), AddressInfo(x.ip, IP)];
  }

  /** A ClusterIP Service is reported at its cluster IPs, or by its name in the cluster's own domain. */
  lemma ClusterIPStatus(name: string, svc: Service, preferred: AddressType, nodes: Nodes, slices: seq<EndpointSlice>)
    requires svc.svcType.ClusterIP?
    ensures var r := ComputeStatus(name, svc, preferred, nodes, slices);
            && r.Ok? && r.value.serviceName == name && r.value.nodePorts == map[]
            && var entries := r.value.ingressAddresses;
            if preferred.IP? then
              && |entries| == |svc.clusterIPs|
              && forall i :: 0 <= i < |entries| ==> entries[i] == IngressAddress(svc.clusterIPs[i], IP, PortTable(svc.ports, PortOf))
            else
              entries == [IngressAddress(svc.key.name + "." + svc.key.namespace + ".svc.cluster.local", Hostname,
                                         PortTable(svc.ports, PortOf))]
  {
  }

  /** What type of address a class gets: IPs if it prefers them, or if it is conservative and of type NodePort. */
  lemma ReportedType(name: string, svc: Service, cls: ListenerClass, nodes: Nodes, slices: seq<EndpointSlice>)
    requires cls.serviceType == Some(svc.svcType) && Preferred(cls).Ok?
    requires ComputeStatus(name, svc, Preferred(cls).value, nodes, slices).Ok?
    ensures var ip := cls.preferred.IP? || (cls.preferred.HostnameConservative? && svc.svcType.NodePort?);
            forall e :: e in ComputeStatus(name, svc, Preferred(cls).value, nodes, slices).value.ingressAddresses ==>
              e.addressType == if ip then IP else Hostname
  {
  }

  /**
   * The conservative preference serves NodePort and ClusterIP Services without fail. A LoadBalancer Service is
   * served exactly when no ingress reports an IP address, since those cannot be given as host names.
   */
  lemma ConservativePreference(name: string, svc: Service, cls: ListenerClass, nodes: Nodes, slices: seq<EndpointSlice>)
    requires cls.preferred.HostnameConservative? && cls.serviceType == Some(svc.svcType)
    requires Gathered(svc, Preferred(cls).value, nodes, slices).Ok?
    ensures ComputeStatus(name, svc, Preferred(cls).value, nodes, slices).Ok? <==>
            (svc.svcType.LoadBalancer? ==> forall x :: x in svc.ingress ==> x.ip == "")
  {
    var preferred := Preferred(cls).value;
    StatusExactly(name, svc, preferred, nodes, slices);
    if svc.svcType.LoadBalancer? {
      var addresses := LbAddresses(svc.ingress);
      forall a
        ensures a in addresses <==>
                a.address != "" && exists x :: x in svc.ingress && (a == AddressInfo(x.hostname, Hostname) || a == AddressInfo(x.ip, IP))
      {
        LbAddressesExact(svc.ingress, a);
      }
      forall x | x in svc.ingress && x.ip != ""
        ensures AddressInfo(x.ip, IP) in addresses
      {
      }
    }
  }

  /** A load balancer that reports an IP address, of a class with the default preference, is given no status. */
  lemma NilPickExample(name: string, nodes: Nodes, slices: seq<EndpointSlice>) returns (svc: Service, cls: ListenerClass)
    ensures cls.preferred.HostnameConservative? && cls.serviceType == Some(LoadBalancer) && svc.svcType.LoadBalancer?
    ensures Preferred(cls).Ok? && Gathered(svc, Preferred(cls).value, nodes, slices).Ok?
    ensures ComputeStatus(name, svc, Preferred(cls).value, nodes, slices).Err?
  {
    cls := ListenerClass("lb", Some(LoadBalancer), Local, HostnameConservative);
    var ingress := Ingress("", "192.0.2.1");
    svc := Service(Key("default", name), None, [], map[], LoadBalancer, true, Local, None, None, 0, [], map[], [ingress]);
    assert ingress in svc.ingress;
    ConservativePreference(name, svc, cls, nodes, slices);
  }
}
