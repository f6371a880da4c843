/** The Kubernetes objects the operator reads and writes, as values. */
module Kube {

  datatype Option<+T> = None | Some(value: T)

  /** Go's `(value, error)` pair; a nil dereference is an error too. */
  datatype Result<+T> = Ok(value: T) | Err(error: string) {
    predicate IsFailure() {
      Err?
    }
    function PropagateFailure<U>(): Result<U>
      requires Err?
    {
      Err(error)
    }
    function Extract(): T
      requires Ok?
    {
      value
    }
  }

  type Labels = map<string, string>

  datatype Key = Key(namespace: string, name: string)

  /** `OtherType` stands for any string outside the CRD enum. */
  datatype AddressType = IP | Hostname | HostnameConservative | OtherType(text: string)
  datatype ServiceType = ClusterIP | NodePort | LoadBalancer | ExternalName
  datatype TrafficPolicy = Unset | Local | Cluster

  datatype PortSpec = PortSpec(name: string, protocol: string, port: int)

  datatype ServicePort = ServicePort(name: string, protocol: string, port: int, targetPort: int, nodePort: int)

  datatype OwnerRef = OwnerRef(kind: string, name: string, uid: string)

  datatype Ingress = Ingress(hostname: string, ip: string)

  /** `unowned` holds every field neither the operator nor this model names. */
  datatype Service = Service(
    key: Key,
    controller: Option<OwnerRef>,
    ports: seq<ServicePort>,
    selector: Labels,
    svcType: ServiceType,
    publishNotReady: bool,
    policy: TrafficPolicy,
    allocateNodePorts: Option<bool>,
    lbClass: Option<string>,
    healthCheckNodePort: int,
    clusterIPs: seq<string>,
    unowned: map<string, string>,
    ingress: seq<Ingress>)

  datatype ListenerSpec = ListenerSpec(
    className: string,
    ports: seq<PortSpec>,
    extraSelector: Labels,
    publishNotReady: Option<bool>)

  datatype AddressInfo = AddressInfo(address: string, addressType: AddressType)

  datatype IngressAddress = IngressAddress(address: string, addressType: AddressType, ports: map<string, int>)

  datatype ListenerStatus = ListenerStatus(
    serviceName: string,
    ingressAddresses: seq<IngressAddress>,
    nodePorts: map<string, int>)

  const EMPTY_STATUS := ListenerStatus("", [], map[])

  /** The part of a Listener its clients write: metadata and spec. */
  datatype ListenerDecl = ListenerDecl(key: Key, uid: string, spec: ListenerSpec)

  datatype Listener = Listener(decl: ListenerDecl, status: ListenerStatus)

  /** `serviceType` is a pointer in the source; the CRD requires it to be set. */
  datatype ListenerClass = ListenerClass(
    name: string,
    serviceType: Option<ServiceType>,
    policy: TrafficPolicy,
    preferred: AddressType)

  datatype NodeAddressKind = ExternalIP | InternalIP | HostName | OtherKind
  datatype NodeAddress = NodeAddress(kind: NodeAddressKind, address: string)

  /** An endpoint is represented by the node it runs on, when that is known. */
  datatype EndpointSlice = EndpointSlice(key: Key, serviceName: Option<string>, endpoints: seq<Option<string>>)
}
