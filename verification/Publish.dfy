/** `NodePublishVolume` and `NodeUnpublishVolume`: one volume, any number of attempts. */
module Publish {
  import opened Kube
  import opened Status
  import L = Selector
  import P = PodListeners
  import S = ServiceMerge
  import opened VolumeTree

  // ---------------------------------------------------------------- the pod

  datatype ContainerPort = ContainerPort(name: string, protocol: string, containerPort: int)

  datatype PodVolume = PodVolume(name: string, claim: Option<string>, ephemeral: bool)

  datatype Pod = Pod(name: string, containers: seq<seq<ContainerPort>>, volumes: seq<PodVolume>)

  function NamedPorts(ports: seq<ContainerPort>): seq<PortSpec> {
    if ports == [] then []
    else
      var last := ports[|ports| - 1];
      NamedPorts(ports[..|ports| - 1]) +
      if last.name != "" then [PortSpec(last.name, last.protocol, last.containerPort)] else []
  }

  function PodPorts(containers: seq<seq<ContainerPort>>): seq<PortSpec> {
    if containers == [] then []
    else PodPorts(containers[..|containers| - 1]) + NamedPorts(containers[|containers| - 1])
  }

  /** `getPodPorts`: the named ports of all containers, and an error when there is none. */
  method GetPodPorts(containers: seq<seq<ContainerPort>>) returns (r: Result<seq<PortSpec>>)
    ensures r.Ok? <==> PodPorts(containers) != []
    ensures r.Ok? ==> r.value == PodPorts(containers)
  {
    var ports := [];
    for i := 0 to |containers|
      invariant ports == PodPorts(containers[..i])
    {
      assert containers[..i + 1][..i] == containers[..i];
      var own := containers[i];
      for j := 0 to |own|
        invariant ports == PodPorts(containers[..i]) + NamedPorts(own[..j])
      {
        assert own[..j + 1][..j] == own[..j];
        if own[j].name != "" {
          ports := ports + [PortSpec(own[j].name, own[j].protocol, own[j].containerPort)];
        }
      }
      assert own[..|own|] == own;
    }
    assert containers[..|containers|] == containers;
    if ports == [] {
      return Err("pod has no valid ports");
    }
    return Ok(ports);
  }

  predicate VolumeIsFor(pod: Pod, v: PodVolume, pvc: string) {
    v.claim == Some(pvc) || (v.ephemeral && pvc == pod.name + "-" + v.name)
  }

  /** `findPodVolumeNameForPVC`: the first volume of the pod that stands for the claim. */
  method FindVolumeName(pod: Pod, pvc: string) returns (r: Option<string>)
    ensures r.Some? ==>
              exists i :: 0 <= i < |pod.volumes| && pod.volumes[i].name == r.value &&
                (pod.volumes[i].claim == Some(pvc) || (pod.volumes[i].ephemeral && pvc == pod.name + "-" + r.value)) &&
                forall j :: 0 <= j < i ==> !VolumeIsFor(pod, pod.volumes[j], pvc)
    ensures r.None? ==>
              forall v :: v in pod.volumes ==> v.claim != Some(pvc) && !(v.ephemeral && pvc == pod.name + "-" + v.name)
    ensures r == VolumeName(pod, pvc, 0)
  {
    for i := 0 to |pod.volumes|
      invariant forall j :: 0 <= j < i ==> !VolumeIsFor(pod, pod.volumes[j], pvc)
      invariant VolumeName(pod, pvc, 0) == VolumeName(pod, pvc, i)
    {
      var v := pod.volumes[i];
      if v.claim.Some? && v.claim.value == pvc {
        return Some(v.name);
      }
      if v.ephemeral && pvc == pod.name + "-" + v.name {
        return Some(v.name);
      }
    }
    return None;
  }

  function VolumeName(pod: Pod, pvc: string, from: nat): Option<string>
    decreases |pod.volumes| - from
  {
    if from >= |pod.volumes| then None
    else if VolumeIsFor(pod, pod.volumes[from], pvc) then Some(pod.volumes[from].name)
    else VolumeName(pod, pvc, from + 1)
  }

  lemma {:induction false} VolumeNameAt(pod: Pod, pvc: string, from: nat) returns (i: nat)
    requires VolumeName(pod, pvc, from).Some?
    ensures i < |pod.volumes| && VolumeIsFor(pod, pod.volumes[i], pvc) && VolumeName(pod, pvc, from) == Some(pod.volumes[i].name)
    decreases |pod.volumes| - from
  {
    i := from;
    if !VolumeIsFor(pod, pod.volumes[from], pvc) {
      i := VolumeNameAt(pod, pvc, from + 1);
    }
  }

  /** Volume names are distinct, and a volume has one source. */
  predicate ValidVolumes(pod: Pod) {
    && (forall i, j :: 0 <= i < j < |pod.volumes| ==> pod.volumes[i].name != pod.volumes[j].name)
    && (forall i :: 0 <= i < |pod.volumes| ==> !(pod.volumes[i].claim.Some? && pod.volumes[i].ephemeral))
  }

  /** Two claims never share a volume name, so their PodListeners entries never meet. */
  lemma VolumeNamesAreApart(pod: Pod, pvc: string, other: string)
    requires ValidVolumes(pod) && pvc != other
    requires VolumeName(pod, pvc, 0).Some?
    ensures VolumeName(pod, pvc, 0) != VolumeName(pod, other, 0)
  {
    if VolumeName(pod, other, 0).Some? {
      var i := VolumeNameAt(pod, pvc, 0);
      var j := VolumeNameAt(pod, other, 0);
      assert i != j;
    }
  }

  /** Over any interleaving of a pod's publishers, every two claims that are published have their two entries. */
  lemma NoLostEntries(pod: Pod, worlds: seq<P.World>, actions: seq<P.Action>, pvc: string, other: string)
    requires ValidVolumes(pod) && P.IsRun(worlds, actions) && pvc != other
    requires VolumeName(pod, pvc, 0).Some? && VolumeName(pod, other, 0).Some?
    requires var w, n, m := worlds[|actions|], VolumeName(pod, pvc, 0).value, VolumeName(pod, other, 0).value;
             n in w.phases && m in w.phases && w.phases[n].Published? && w.phases[m].Published?
    ensures var w, n, m := worlds[|actions|], VolumeName(pod, pvc, 0).value, VolumeName(pod, other, 0).value;
            n != m && P.Entered(w, n, w.phases[n].entry) && P.Entered(w, m, w.phases[m].entry)
  {
    VolumeNamesAreApart(pod, pvc, other);
    P.NoLostUpdate(worlds, actions, VolumeName(pod, pvc, 0).value);
    P.NoLostUpdate(worlds, actions, VolumeName(pod, other, 0).value);
  }

  // ---------------------------------------------------------------- addresses and scope

  /** `getAddresses`: the pod's own node with the node ports when there are any, else the reported addresses. */
  function Addresses(status: ListenerStatus, own: Result<AddressInfo>): Result<seq<IngressAddress>> {
    if status.nodePorts != map[] then
      var a :- own;
      Ok([IngressAddress(a.address, a.addressType, status.nodePorts)])
    else if status.ingressAddresses != [] then Ok(status.ingressAddresses)
    else Err("listener status is not ready")
  }

  method GetAddresses(status: ListenerStatus, own: Result<AddressInfo>) returns (r: Result<seq<IngressAddress>>)
    ensures r == Addresses(status, own)
  {
    if |status.nodePorts| != 0 {
      if own.Err? {
        return Err(own.error);
      }
      return Ok([IngressAddress(own.value.address, own.value.addressType, status.nodePorts)]);
    } else if |status.ingressAddresses| != 0 {
      var addresses := [];
      for i := 0 to |status.ingressAddresses|
        invariant addresses == status.ingressAddresses[..i]
      {
        var a := status.ingressAddresses[i];
        addresses := addresses + [IngressAddress(a.address, a.addressType, a.ports)];
      }
      assert status.ingressAddresses[..|status.ingressAddresses|] == status.ingressAddresses;
      return Ok(addresses);
    }
    return Err("listener status is not ready");
  }

  function ScopeOf(status: ListenerStatus): P.Scope {
    if |status.nodePorts| > 0 then P.NodeScope else P.ClusterScope
  }

  // ---------------------------------------------------------------- the protocol

  /**
   * What is fixed for one volume: its pod and claim, where it goes, and how it names its listener, or else the class of
   * the one to make. `known` has every listener there ever is, in each of its versions.
   */
  datatype VolumeRequest = VolumeRequest(
    pod: Pod,
    claim: Key,
    target: Path,
    listenerName: Option<string>,
    className: string,
    known: set<ListenerDecl>)

  predicate Valid(v: VolumeRequest) {
    ValidVolumes(v.pod) && L.ValidListeners(v.known)
  }

  /** What an attempt has read: the listener, its status, the address of the pod's node, and the data made of these. */
  datatype Snapshot = Snapshot(
    listener: ListenerDecl,
    status: ListenerStatus,
    own: Result<AddressInfo>,
    data: seq<IngressAddress>)

  datatype Phase =
    | Idle
    | Started
    | GotPod
    | GotListener(listener: ListenerDecl)
    | Labelled(listener: ListenerDecl)
    | GotStatus(listener: ListenerDecl, status: ListenerStatus)
    | Resolved(snapshot: Snapshot)
    | Entering(snapshot: Snapshot)
    | Entered(snapshot: Snapshot)
    | Mounted(snapshot: Snapshot)
    | Done(snapshot: Snapshot)
    | Failed

  /**
   * `creations` and `deletions` count what happened to the claim's listener, `node` has the addresses of the pod's
   * node, `labels` has the pods with everyone who labels them, and `shared` is the PodListeners object with everyone
   * who publishes a volume of the pod.
   */
  datatype World = World(
    listeners: map<Key, Listener>,
    creations: nat,
    deletions: nat,
    node: Option<seq<NodeAddress>>,
    labels: L.World,
    shared: P.World,
    tree: Tree,
    phase: Phase)

  /** A step's flag is false when it reports an error, even one that comes after it has acted. */
  datatype Action =
    | Begin
    | GetPod
    | FindListener(ok: bool)
    | Label(ok: bool)
    | TakeSnapshot
    | ReadNode
    | StartEntry
    | EnterStep(step: P.Action)
    | Mount(ok: bool)
    | Write(ok: bool)
    | Crash
    | Unpublish(ok: bool)
    | OtherClaim(claim: string, step: P.Action)
    | OtherLabels(change: L.Action)
    | Others

  function ListenerKey(v: VolumeRequest): Key {
    Key(v.claim.namespace, if v.listenerName.Some? then v.listenerName.value else v.claim.name)
  }

  /** The name the volume has in the pod, under which its entry is kept. */
  function NameInPod(v: VolumeRequest): Option<string> {
    VolumeName(v.pod, v.claim.name, 0)
  }

  /** `createListener`: the pod's named ports, and addresses published whether or not the pod is ready. */
  function FreshSpec(v: VolumeRequest): ListenerSpec {
    ListenerSpec(v.className, PodPorts(v.pod.containers), map[], Some(true))
  }

  function OwnAddress(node: Option<seq<NodeAddress>>): Result<AddressInfo> {
    if node.None? then Err("node not found")
    else
      match PriorAddress(node.value)
      case Some(a) => Ok(a)
      case None => Err("no address found")
  }

  function EntryOf(s: Snapshot): P.PodListener {
    P.PodListener(ScopeOf(s.status), s.data)
  }

  /** A file system has a directory for every prefix of a path. */
  ghost predicate Closed(t: Tree) {
    forall p, i :: p in t && 0 <= i <= |p| ==> p[..i] in t
  }

  predicate Resting(p: Phase) {
    p.Idle? || p.Done? || p.Failed?
  }

  ghost predicate FindsListener(v: VolumeRequest, w: World, ok: bool, w': World) {
    var k := ListenerKey(v);
    if v.listenerName.None? && PodPorts(v.pod.containers) == [] then w' == w.(phase := Failed)
    else if k in w.listeners then w' == w.(phase := if ok then GotListener(w.listeners[k].decl) else Failed)
    else if v.listenerName.Some? then w' == w.(phase := Failed)
    else && k in w'.listeners && w'.listeners[k].decl.key == k && w'.listeners[k].decl in v.known
         && w'.listeners[k].decl.spec == FreshSpec(v) && w'.listeners[k].status == EMPTY_STATUS
         && w' == w.(listeners := w.listeners[k := w'.listeners[k]], creations := w.creations + 1,
                     phase := if ok then GotListener(w'.listeners[k].decl) else Failed)
  }

  predicate Known(v: VolumeRequest, listeners: map<Key, Listener>) {
    forall k :: k in listeners ==> listeners[k].decl.key == k && listeners[k].decl in v.known
  }

  /** The number this volume's attempts have among those that label pods. */
  const OWN_ATTEMPT: nat := 0

  /** What `VolumeTree.Volume.WriteData` promises; on an I/O error any part of the files may be there. */
  ghost predicate WritesFiles(v: VolumeRequest, s: Snapshot, before: Tree, ok: bool, after: Tree) {
    && Closed(after) && v.target in after
    && (ok && Tidy(s.data) && EmptyMount(before, v.target) ==>
          IsVolume(before, after, v.target, Merged(s.data), Some(DefaultLink(s.data[|s.data| - 1].address))))
  }

  /** Unmount and `RemoveAll`: what is under the target path goes; on an I/O error some of it may stay. */
  ghost predicate Removes(before: Tree, target: Path, ok: bool, after: Tree) {
    && Closed(after)
    && (forall p :: p in after ==> p in before && after[p] == before[p] && !(ok && target <= p))
    && (forall p :: p in before && !(target <= p) ==> p in after)
  }

  /** The entry's own steps: the publisher of this volume in the shared object. */
  ghost predicate Enters(v: VolumeRequest, w: World, step: P.Action, w': World) {
    && w.phase.Entering? && (step.Fetch? || step.Create? || step.Patch?) && NameInPod(v) == Some(step.volume)
    && P.Next(w.shared, step, w'.shared) && step.volume in w'.shared.phases
    && w' == w.(shared := w'.shared,
                phase := match w'.shared.phases[step.volume]
                         case Published(_) => Entered(w.phase.snapshot)
                         case Failed => Failed
                         case _ => w.phase)
  }

  ghost predicate Next(v: VolumeRequest, w: World, a: Action, w': World) {
    match a
    case Begin => Resting(w.phase) && w' == w.(phase := Started)
    case GetPod =>
      && w.phase.Started?
      && if v.pod.name !in w.labels.pods then w' == w.(phase := Failed)
         else && L.Next(v.known, w.labels, L.ReadPod(OWN_ATTEMPT, v.pod.name), w'.labels)
              && w' == w.(labels := w'.labels, phase := GotPod)
    case FindListener(ok) => w.phase.GotPod? && FindsListener(v, w, ok, w')
    case Label(ok) =>
      && w.phase.GotListener?
      && L.Next(v.known, w.labels, L.PatchPod(OWN_ATTEMPT, w.phase.listener), w'.labels)
      && w' == w.(labels := w'.labels, phase := if ok then Labelled(w.phase.listener) else Failed)
    case TakeSnapshot =>
      && w.phase.Labelled?
      && w' == w.(phase := if ListenerKey(v) !in w.listeners then Failed
                           else GotStatus(w.phase.listener, w.listeners[ListenerKey(v)].status))
    case ReadNode =>
      // The node is only needed, and only read, when there are node ports.
      && w.phase.GotStatus?
      && w' == w.(phase := match Addresses(w.phase.status, OwnAddress(w.node))
                           case Ok(data) => Resolved(Snapshot(w.phase.listener, w.phase.status, OwnAddress(w.node), data))
                           case Err(_) => Failed)
    case StartEntry =>
      && w.phase.Resolved?
      && if NameInPod(v).None? then w' == w.(phase := Failed)
         else && P.Next(w.shared, P.Begin(NameInPod(v).value, EntryOf(w.phase.snapshot)), w'.shared)
              && w' == w.(shared := w'.shared, phase := Entering(w.phase.snapshot))
    case EnterStep(step) => Enters(v, w, step, w')
    case Mount(ok) =>
      && w.phase.Entered?
      && if v.target in w.tree || MkdirAll(w.tree, v.target).Err? then w' == w.(phase := Failed)
         else w' == w.(tree := MkdirAll(w.tree, v.target).value, phase := if ok then Mounted(w.phase.snapshot) else Failed)
    case Write(ok) =>
      && w.phase.Mounted? && WritesFiles(v, w.phase.snapshot, w.tree, ok, w'.tree)
      && w' == w.(tree := w'.tree, phase := if ok then Done(w.phase.snapshot) else Failed)
    case Crash =>
      && !Resting(w.phase)
      && if w.phase.Entering? && NameInPod(v).Some?
         then P.Next(w.shared, P.Crash(NameInPod(v).value), w'.shared) && w' == w.(shared := w'.shared, phase := Failed)
         else w' == w.(phase := Failed)
    case Unpublish(ok) =>
      && Resting(w.phase) && Removes(w.tree, v.target, ok, w'.tree)
      && w' == w.(tree := w'.tree, phase := Idle)
    case OtherClaim(claim, step) =>
      // Publishers of the pod's other claims, and whatever else touches the shared object outside its spec.
      && claim != v.claim.name && (step.Touch? || VolumeName(v.pod, claim, 0) == Some(step.volume))
      && P.Next(w.shared, step, w'.shared) && w' == w.(shared := w'.shared)
    case OtherLabels(change) =>
      // Other attempts that label pods, and whoever else changes pods.
      && (change.ReadPod? || change.PatchPod? ==> change.id != OWN_ATTEMPT)
      && L.Next(v.known, w.labels, change, w'.labels) && w' == w.(labels := w'.labels)
    case Others =>
      // The controller, users and the kubelet: any change to listeners and to the node.
      var k := ListenerKey(v);
      && Known(v, w'.listeners)
      && w' == w.(listeners := w'.listeners, node := w'.node,
               deletions := if k in w.listeners && k !in w'.listeners then w.deletions + 1 else w.deletions)
  }

  // ---------------------------------------------------------------- what every step keeps

  predicate HasSnapshot(p: Phase) {
    p.Resolved? || p.Entering? || p.Entered? || p.Mounted? || p.Done?
  }

  predicate SnapshotInv(p: Phase) {
    HasSnapshot(p) ==> Addresses(p.snapshot.status, p.snapshot.own) == Ok(p.snapshot.data)
  }

  predicate CountInv(v: VolumeRequest, w: World) {
    w.creations <= w.deletions + (if ListenerKey(v) in w.listeners then 1 else 0)
  }

  /** The listener that an attempt has found, and the one it has labelled the pod for. */
  function Found(p: Phase): Option<ListenerDecl> {
    if p.GotListener? || p.Labelled? || p.GotStatus? then Some(p.listener)
    else if HasSnapshot(p) then Some(p.snapshot.listener)
    else None
  }

  /** How far labelling the pod has come, seen from the attempt. */
  predicate LabelInv(v: VolumeRequest, w: World) {
    && (w.phase.GotPod? || w.phase.GotListener? ==>
          OWN_ATTEMPT in w.labels.attempts && w.labels.attempts[OWN_ATTEMPT].pod == v.pod.name)
    && (Found(w.phase).Some? ==>
          var l := Found(w.phase).value;
          && l.key == ListenerKey(v) && l in v.known
          && (!w.phase.GotListener? ==> v.pod.name in w.labels.pods && (v.pod.name, l.uid) in w.labels.patched))
  }

  /** Where the volume's publisher stands in the shared object, seen from the attempt. */
  ghost predicate EntryInv(v: VolumeRequest, w: World) {
    && P.Inv(w.shared)
    && (w.phase.Entering? || w.phase.Entered? || w.phase.Mounted? || w.phase.Done? ==>
          NameInPod(v).Some? && NameInPod(v).value in w.shared.phases)
    && (NameInPod(v).Some? && NameInPod(v).value in w.shared.phases ==>
          var own := w.shared.phases[NameInPod(v).value];
          if w.phase.Entering? then (own.Wanted? || own.Missing? || own.Found?) && own.entry == EntryOf(w.phase.snapshot)
          else if w.phase.Entered? || w.phase.Mounted? || w.phase.Done? then own == P.Published(EntryOf(w.phase.snapshot))
          else own.Published? || own.Failed?)
  }

  ghost predicate Shows(t: Tree, target: Path, c: Content, link: string) {
    exists base :: IsVolume(base, t, target, c, Some(link))
  }

  ghost predicate TreeInv(v: VolumeRequest, w: World) {
    && Closed(w.tree)
    && (w.phase.Mounted? ==> EmptyMount(w.tree, v.target))
    && (w.phase.Done? ==>
          && v.target in w.tree
          && var data := w.phase.snapshot.data;
          (Tidy(data) ==> Shows(w.tree, v.target, Merged(data), DefaultLink(data[|data| - 1].address))))
  }

  ghost predicate Inv(v: VolumeRequest, w: World) {
    SnapshotInv(w.phase) && CountInv(v, w) && Known(v, w.listeners) && L.Inv(v.known, w.labels) &&
    LabelInv(v, w) && EntryInv(v, w) && TreeInv(v, w)
  }

  lemma NextKeepsCounts(v: VolumeRequest, w: World, a: Action, w': World)
    requires SnapshotInv(w.phase) && CountInv(v, w) && Known(v, w.listeners) && Next(v, w, a, w')
    ensures SnapshotInv(w'.phase) && CountInv(v, w') && Known(v, w'.listeners)
  {
  }

  lemma NextKeepsPods(v: VolumeRequest, w: World, a: Action, w': World)
    requires Valid(v) && L.Inv(v.known, w.labels) && Next(v, w, a, w')
    ensures L.Inv(v.known, w'.labels)
  {
    match a
    case GetPod =>
      if v.pod.name in w.labels.pods {
        L.NextKeeps(v.known, w.labels, L.ReadPod(OWN_ATTEMPT, v.pod.name), w'.labels);
      }
    case Label(_) => L.NextKeeps(v.known, w.labels, L.PatchPod(OWN_ATTEMPT, w.phase.listener), w'.labels);
    case OtherLabels(change) => L.NextKeeps(v.known, w.labels, change, w'.labels);
    case _ => assert w'.labels == w.labels;
  }

  /** From reading the pod to labelling it. */
  lemma EarlyStepKeepsLabels(v: VolumeRequest, w: World, a: Action, w': World)
    requires LabelInv(v, w) && Known(v, w.listeners) && Next(v, w, a, w') && (a.GetPod? || a.FindListener? || a.Label?)
    ensures LabelInv(v, w')
  {
  }

  lemma NextKeepsLabels(v: VolumeRequest, w: World, a: Action, w': World)
    requires LabelInv(v, w) && Known(v, w.listeners) && Next(v, w, a, w')
    ensures LabelInv(v, w')
  {
    if a.GetPod? || a.FindListener? || a.Label? {
      EarlyStepKeepsLabels(v, w, a, w');
    } else if a.OtherLabels? {
      L.NextOnlyAdds(v.known, w.labels, a.change, w'.labels);
    } else {
      assert w'.labels == w.labels;
    }
  }

  lemma NextKeepsEntry(v: VolumeRequest, w: World, a: Action, w': World)
    requires ValidVolumes(v.pod) && EntryInv(v, w) && Next(v, w, a, w')
    ensures EntryInv(v, w')
  {
    match a
    case StartEntry =>
      if NameInPod(v).Some? {
        P.NextKeeps(w.shared, P.Begin(NameInPod(v).value, EntryOf(w.phase.snapshot)), w'.shared);
      }
    case EnterStep(step) => P.NextKeeps(w.shared, step, w'.shared);
    case Crash =>
      if w.phase.Entering? && NameInPod(v).Some? {
        P.NextKeeps(w.shared, P.Crash(NameInPod(v).value), w'.shared);
      }
    case OtherClaim(claim, step) =>
      P.NextKeeps(w.shared, step, w'.shared);
      if NameInPod(v).Some? {
        VolumeNamesAreApart(v.pod, v.claim.name, claim);
        P.OthersStayPut(w.shared, step, w'.shared, NameInPod(v).value);
      }
    case _ =>
  }

  /** A target path that is not there is made as an empty directory. */
  lemma MountIsEmpty(t: Tree, target: Path)
    requires Closed(t) && target !in t && MkdirAll(t, target).Ok?
    ensures Closed(MkdirAll(t, target).value) && EmptyMount(MkdirAll(t, target).value, target)
  {
    var made := MkdirAll(t, target).value;
    forall i | 0 <= i <= |target|
      ensures target[..i] in Prefixes(target)
    {
    }
    forall p, i | p in made && 0 <= i <= |p|
      ensures p[..i] in made
    {
      if p in Prefixes(target) {
        var j :| 0 <= j <= |target| && p == target[..j];
        assert p[..i] == target[..i];
      }
    }
    forall p | p in made && target <= p
      ensures p == target
    {
      assert p[..|target|] == target;
    }
  }

  lemma NextKeepsTree(v: VolumeRequest, w: World, a: Action, w': World)
    requires TreeInv(v, w) && Next(v, w, a, w')
    ensures TreeInv(v, w')
  {
    match a
    case Mount(_) =>
      if v.target !in w.tree && MkdirAll(w.tree, v.target).Ok? {
        MountIsEmpty(w.tree, v.target);
      }
    case _ =>
  }

  lemma NextKeeps(v: VolumeRequest, w: World, a: Action, w': World)
    requires Valid(v) && Inv(v, w) && Next(v, w, a, w')
    ensures Inv(v, w')
  {
    NextKeepsCounts(v, w, a, w');
    NextKeepsPods(v, w, a, w');
    NextKeepsLabels(v, w, a, w');
    NextKeepsEntry(v, w, a, w');
    NextKeepsTree(v, w, a, w');
  }

  // ---------------------------------------------------------------- whole runs

  ghost predicate Init(v: VolumeRequest, w: World) {
    && w.phase.Idle? && w.creations == 0 && w.deletions == 0
    && Known(v, w.listeners) && L.Init(w.labels) && P.Init(w.shared) && Closed(w.tree)
  }

  ghost predicate IsRun(v: VolumeRequest, worlds: seq<World>, actions: seq<Action>) {
    && |worlds| == |actions| + 1
    && (actions == [] ==> Init(v, worlds[0]))
    && (actions != [] ==>
          && IsRun(v, worlds[..|actions|], actions[..|actions| - 1])
          && Next(v, worlds[|actions| - 1], actions[|actions| - 1], worlds[|actions|]))
  }

  lemma {:induction false} RunKeepsInv(v: VolumeRequest, worlds: seq<World>, actions: seq<Action>)
    requires Valid(v) && IsRun(v, worlds, actions)
    ensures Inv(v, worlds[|actions|])
  {
    if actions != [] {
      RunKeepsInv(v, worlds[..|actions|], actions[..|actions| - 1]);
      NextKeeps(v, worlds[|actions| - 1], actions[|actions| - 1], worlds[|actions|]);
    } else {
      L.InitIsInv(v.known, worlds[0].labels);
    }
  }

  lemma {:induction false} RunPrefix(v: VolumeRequest, worlds: seq<World>, actions: seq<Action>, n: nat)
    requires IsRun(v, worlds, actions) && n <= |actions|
    ensures IsRun(v, worlds[..n + 1], actions[..n])
    decreases |actions|
  {
    if n < |actions| {
      RunPrefix(v, worlds[..|actions|], actions[..|actions| - 1], n);
      assert worlds[..|actions|][..n + 1] == worlds[..n + 1] && actions[..|actions| - 1][..n] == actions[..n];
    } else {
      assert worlds[..n + 1] == worlds && actions[..n] == actions;
    }
  }

  // ---------------------------------------------------------------- one snapshot

  /** No new attempt has begun after step `i`. */
  predicate SameAttempt(actions: seq<Action>, i: nat) {
    forall m :: i < m < |actions| ==> !actions[m].Begin?
  }

  /** Step `i` of this attempt read the listener's status as it then was. */
  predicate TakenAt(v: VolumeRequest, worlds: seq<World>, actions: seq<Action>, status: ListenerStatus, i: nat)
    requires |worlds| == |actions| + 1
  {
    && i < |actions| && actions[i].TakeSnapshot? && SameAttempt(actions, i)
    && ListenerKey(v) in worlds[i].listeners && worlds[i].listeners[ListenerKey(v)].status == status
  }

  /** Step `i` of this attempt read the pod's node as it then was. */
  predicate NodeReadAt(worlds: seq<World>, actions: seq<Action>, own: Result<AddressInfo>, i: nat)
    requires |worlds| == |actions| + 1
  {
    && i < |actions| && actions[i].ReadNode? && SameAttempt(actions, i)
    && var node := worlds[i].node;
    if own.Ok? then node.Some? && PriorAddress(node.value) == Some(own.value)
    else node.Some? ==> PriorAddress(node.value).None?
  }

  function StatusOf(p: Phase): Option<ListenerStatus> {
    if p.GotStatus? then Some(p.status) else if HasSnapshot(p) then Some(p.snapshot.status) else None
  }

  /** A status or address that an attempt holds was given to it by the step that just ended, or it held it before. */
  lemma SnapshotsAreRead(v: VolumeRequest, w: World, a: Action, w': World)
    requires Next(v, w, a, w')
    ensures StatusOf(w'.phase).Some? ==>
              && !a.Begin?
              && if a.TakeSnapshot?
                 then ListenerKey(v) in w.listeners && StatusOf(w'.phase) == Some(w.listeners[ListenerKey(v)].status)
                 else StatusOf(w'.phase) == StatusOf(w.phase)
    ensures HasSnapshot(w'.phase) ==>
              && !a.Begin?
              && if a.ReadNode? then w'.phase.snapshot.own == OwnAddress(w.node)
                 else HasSnapshot(w.phase) && w'.phase.snapshot == w.phase.snapshot
  {
  }

  lemma ListenersAreFound(v: VolumeRequest, w: World, a: Action, w': World)
    requires Next(v, w, a, w')
    ensures Found(w'.phase).Some? ==>
              && !a.Begin?
              && if a.FindListener?
                 then ListenerKey(v) in w'.listeners && Found(w'.phase) == Some(w'.listeners[ListenerKey(v)].decl)
                 else Found(w'.phase) == Found(w.phase)
  {
  }

  /** Whatever status a publish works with was the listener's status in this very attempt. */
  lemma {:induction false} StatusIsReal(v: VolumeRequest, worlds: seq<World>, actions: seq<Action>) returns (i: nat)
    requires IsRun(v, worlds, actions) && StatusOf(worlds[|actions|].phase).Some?
    ensures TakenAt(v, worlds, actions, StatusOf(worlds[|actions|].phase).value, i)
    decreases |actions|
  {
    var front, steps := worlds[..|actions|], actions[..|actions| - 1];
    i := |actions| - 1;
    SnapshotsAreRead(v, worlds[i], actions[i], worlds[i + 1]);
    if !actions[i].TakeSnapshot? {
      i := StatusIsReal(v, front, steps);
    }
  }

  lemma {:induction false} NodeIsReal(v: VolumeRequest, worlds: seq<World>, actions: seq<Action>) returns (i: nat)
    requires IsRun(v, worlds, actions) && HasSnapshot(worlds[|actions|].phase)
    ensures NodeReadAt(worlds, actions, worlds[|actions|].phase.snapshot.own, i)
    decreases |actions|
  {
    var front, steps := worlds[..|actions|], actions[..|actions| - 1];
    i := |actions| - 1;
    SnapshotsAreRead(v, worlds[i], actions[i], worlds[i + 1]);
    if !actions[i].ReadNode? {
      i := NodeIsReal(v, front, steps);
    }
  }

  lemma FilesAgree(v: VolumeRequest, w: World)
    requires TreeInv(v, w) && w.phase.Done?
    ensures var data := w.phase.snapshot.data;
            Tidy(data) ==>
              && ReadVolume(w.tree, v.target) == Merged(data)
              && Follow(w.tree, v.target + ["default-address"]) == Some(v.target + ["addresses", data[|data| - 1].address])
  {
    var data := w.phase.snapshot.data;
    if Tidy(data) {
      var last := data[|data| - 1].address;
      var base :| IsVolume(base, w.tree, v.target, Merged(data), Some(DefaultLink(last)));
      VolumeReadsBack(base, w.tree, v.target, Merged(data), last);
    }
  }

  /**
   * When a publish has succeeded, and for as long as the pod's other volumes go on publishing, the files, the entry
   * in the shared PodListeners object and its scope all tell of one snapshot. The status in it was the listener's
   * status in that attempt. The scope is Node exactly when it has node ports, and then there is one address, which the
   * pod's own node had in that attempt; otherwise they are the addresses of the status.
   */
  lemma PublishAgrees(v: VolumeRequest, worlds: seq<World>, actions: seq<Action>)
    requires Valid(v) && IsRun(v, worlds, actions) && worlds[|actions|].phase.Done?
    ensures var w := worlds[|actions|];
            var Snapshot(_, status, own, data) := w.phase.snapshot;
            var scope := if status.nodePorts != map[] then P.NodeScope else P.ClusterScope;
            && NameInPod(v).Some? && P.Entered(w.shared, NameInPod(v).value, P.PodListener(scope, data))
            && P.Reads(w.shared.doc.value, NameInPod(v).value, P.PodListener(scope, data))
            && (exists i :: TakenAt(v, worlds, actions, status, i)) && (exists i :: NodeReadAt(worlds, actions, own, i))
            && (scope.NodeScope? ==>
                  own.Ok? && data == [IngressAddress(own.value.address, own.value.addressType, status.nodePorts)])
            && (scope.ClusterScope? ==> data == status.ingressAddresses && data != [])
            && (Tidy(data) ==>
                  && ReadVolume(w.tree, v.target) == Merged(data)
                  && Follow(w.tree, v.target + ["default-address"]) == Some(v.target + ["addresses", data[|data| - 1].address]))
  {
    RunKeepsInv(v, worlds, actions);
    var i := StatusIsReal(v, worlds, actions);
    var j := NodeIsReal(v, worlds, actions);
    var w := worlds[|actions|];
    FilesAgree(v, w);
    P.EntryReadsBack(w.shared.doc.value, NameInPod(v).value, EntryOf(w.phase.snapshot));
  }

  // ---------------------------------------------------------------- the Service selects the pod

  /** Step `i` of this attempt found the listener as it then was, or made it. */
  predicate FoundAt(v: VolumeRequest, worlds: seq<World>, actions: seq<Action>, l: ListenerDecl, i: nat)
    requires |worlds| == |actions| + 1
  {
    && i < |actions| && actions[i].FindListener? && SameAttempt(actions, i)
    && ListenerKey(v) in worlds[i + 1].listeners && worlds[i + 1].listeners[ListenerKey(v)].decl == l
  }

  lemma {:induction false} ListenerIsReal(v: VolumeRequest, worlds: seq<World>, actions: seq<Action>) returns (i: nat)
    requires IsRun(v, worlds, actions) && Found(worlds[|actions|].phase).Some?
    ensures FoundAt(v, worlds, actions, Found(worlds[|actions|].phase).value, i)
    decreases |actions|
  {
    i := |actions| - 1;
    ListenersAreFound(v, worlds[i], actions[i], worlds[i + 1]);
    if !actions[i].FindListener? {
      i := ListenerIsReal(v, worlds[..|actions|], actions[..|actions| - 1]);
    }
  }

  /**
   * When a publish has succeeded, and whatever happens to pods' other labels, the Service of the listener that it found
   * selects the pod if the pod has the listener's extra labels, and only then. This goes for later versions of that
   * listener too.
   */
  lemma PublishIsSelected(v: VolumeRequest, worlds: seq<World>, actions: seq<Action>, l: ListenerDecl)
    requires Valid(v) && IsRun(v, worlds, actions) && worlds[|actions|].phase.Done?
    requires l in v.known && l.uid == worlds[|actions|].phase.snapshot.listener.uid
    ensures exists i :: FoundAt(v, worlds, actions, worlds[|actions|].phase.snapshot.listener, i)
    ensures l.key == Key(v.claim.namespace, if v.listenerName.Some? then v.listenerName.value else v.claim.name)
    ensures v.pod.name in worlds[|actions|].labels.pods
    ensures var pod := worlds[|actions|].labels.pods[v.pod.name];
            L.Selects(S.SelectorLabels(l), pod) <==> L.Selects(l.spec.extraSelector, pod)
  {
    RunKeepsInv(v, worlds, actions);
    var i := ListenerIsReal(v, worlds, actions);
    var w := worlds[|actions|];
    L.SelectsExactly(v.known, w.labels, l, v.pod.name);
    var key, extra := S.MountKey(l.uid), l.spec.extraSelector;
    if key in extra && extra[key] != l.key.name {
      assert !L.HasLabel(w.labels.pods[v.pod.name], key, extra[key]);
    }
  }

  lemma RunStep(v: VolumeRequest, worlds: seq<World>, actions: seq<Action>, i: nat)
    requires IsRun(v, worlds, actions) && i < |actions|
    ensures Next(v, worlds[i], actions[i], worlds[i + 1])
  {
    RunPrefix(v, worlds, actions, i + 1);
    assert worlds[..i + 2][i + 1] == worlds[i + 1] && actions[..i + 1][i] == actions[i];
  }

  /** A listener that the attempt made itself asks for nothing more, so its Service selects the pod, ready or not. */
  lemma CreatedIsSelected(v: VolumeRequest, worlds: seq<World>, actions: seq<Action>, i: nat)
    requires Valid(v) && IsRun(v, worlds, actions) && worlds[|actions|].phase.Done?
    requires FoundAt(v, worlds, actions, worlds[|actions|].phase.snapshot.listener, i) && ListenerKey(v) !in worlds[i].listeners
    ensures var l := worlds[|actions|].phase.snapshot.listener;
            && v.pod.name in worlds[|actions|].labels.pods
            && L.Selects(S.SelectorLabels(l), worlds[|actions|].labels.pods[v.pod.name])
            && l.spec.publishNotReady != Some(false) && l.spec.className == v.className
            && l.spec.ports == PodPorts(v.pod.containers) && l.spec.ports != []
  {
    RunKeepsInv(v, worlds, actions);
    PublishIsSelected(v, worlds, actions, worlds[|actions|].phase.snapshot.listener);
    RunStep(v, worlds, actions, i);
  }

  // ---------------------------------------------------------------- any number of attempts

  /** The step came back with an error, whether or not it had acted. */
  predicate ReportsError(a: Action) {
    || ((a.FindListener? || a.Label? || a.Mount? || a.Write?) && !a.ok)
    || (a.EnterStep? && (a.step.Create? || a.step.Patch?) && !a.step.acked)
    || a.Crash?
  }

  lemma ErrorFails(v: VolumeRequest, w: World, a: Action, w': World)
    requires Next(v, w, a, w') && ReportsError(a)
    ensures w'.phase.Failed?
  {
  }

  /** An attempt with an error has failed, and nothing but the next attempt or an unpublish makes anything else of it. */
  lemma {:induction false} ErrorsEndTheAttempt(v: VolumeRequest, worlds: seq<World>, actions: seq<Action>, start: nat)
    requires IsRun(v, worlds, actions) && start < |actions| && ReportsError(actions[start])
    requires forall i :: start < i < |actions| ==> !actions[i].Begin? && !actions[i].Unpublish?
    ensures worlds[|actions|].phase.Failed?
    decreases |actions|
  {
    if start < |actions| - 1 {
      ErrorsEndTheAttempt(v, worlds[..|actions|], actions[..|actions| - 1], start);
    } else {
      ErrorFails(v, worlds[start], actions[start], worlds[start + 1]);
    }
  }

  /** However often a publish is tried, it creates at most one listener more than others have deleted. */
  lemma {:induction false} AtMostOneListener(v: VolumeRequest, worlds: seq<World>, actions: seq<Action>)
    requires Valid(v) && IsRun(v, worlds, actions)
    ensures worlds[|actions|].creations <= worlds[|actions|].deletions + 1
    ensures v.listenerName.Some? ==> worlds[|actions|].creations == 0
    decreases |actions|
  {
    RunKeepsInv(v, worlds, actions);
    if actions != [] {
      AtMostOneListener(v, worlds[..|actions|], actions[..|actions| - 1]);
    }
  }

  lemma StepKeepsListener(v: VolumeRequest, w: World, a: Action, w': World, k: Key)
    requires Next(v, w, a, w') && !a.Others? && k in w.listeners
    ensures k in w'.listeners && w'.listeners[k] == w.listeners[k]
  {
  }

  /** While others leave the listeners alone, no attempt, crash, retry or unpublish changes one that is there. */
  lemma {:induction false} PublishChangesNoListener(v: VolumeRequest, worlds: seq<World>, actions: seq<Action>,
                                                    start: nat, k: Key)
    requires IsRun(v, worlds, actions) && start <= |actions| && k in worlds[start].listeners
    requires forall i :: start <= i < |actions| ==> !actions[i].Others?
    ensures k in worlds[|actions|].listeners && worlds[|actions|].listeners[k] == worlds[start].listeners[k]
    decreases |actions|
  {
    if start < |actions| {
      PublishChangesNoListener(v, worlds[..|actions|], actions[..|actions| - 1], start, k);
      StepKeepsListener(v, worlds[|actions| - 1], actions[|actions| - 1], worlds[|actions|], k);
    }
  }

  /** Only a mount of an absent target path, what follows it, and an unpublish touch the tree. */
  lemma StepKeepsTree(v: VolumeRequest, w: World, a: Action, w': World)
    requires Next(v, w, a, w') && !w.phase.Mounted? && !a.Unpublish? && (a.Mount? ==> v.target in w.tree)
    ensures w'.tree == w.tree && !w'.phase.Mounted? && (w'.phase.Done? ==> w'.phase == w.phase)
  {
  }

  /** An attempt that has not come to its mount, whether it goes on, failed or crashed, has left the tree alone. */
  lemma {:induction false} UntouchedBeforeMount(v: VolumeRequest, worlds: seq<World>, actions: seq<Action>, start: nat)
    requires IsRun(v, worlds, actions) && start < |actions| && actions[start].Begin?
    requires forall i :: start < i < |actions| ==> !actions[i].Mount? && !actions[i].Unpublish?
    ensures worlds[|actions|].tree == worlds[start].tree && !worlds[|actions|].phase.Mounted?
    decreases |actions|
  {
    if start < |actions| - 1 {
      UntouchedBeforeMount(v, worlds[..|actions|], actions[..|actions| - 1], start);
      StepKeepsTree(v, worlds[|actions| - 1], actions[|actions| - 1], worlds[|actions|]);
    }
  }

  /** Step `j` of this attempt mounted a target path that was not there, and the tree is as it left it. */
  predicate MountedAt(v: VolumeRequest, worlds: seq<World>, actions: seq<Action>, j: nat)
    requires |worlds| == |actions| + 1
  {
    && j < |actions| && actions[j].Mount? && SameAttempt(actions, j)
    && v.target !in worlds[j].tree && MkdirAll(worlds[j].tree, v.target) == Ok(worlds[|actions|].tree)
    && forall m :: j < m <= |actions| ==> worlds[m].tree == worlds[|actions|].tree
  }

  lemma MountedByMount(v: VolumeRequest, w: World, a: Action, w': World)
    requires Next(v, w, a, w') && w'.phase.Mounted?
    ensures !a.Begin?
    ensures if a.Mount? then v.target !in w.tree && MkdirAll(w.tree, v.target) == Ok(w'.tree)
            else w.phase.Mounted? && w'.tree == w.tree
  {
  }

  lemma {:induction false} MountedIsFresh(v: VolumeRequest, worlds: seq<World>, actions: seq<Action>) returns (j: nat)
    requires IsRun(v, worlds, actions) && worlds[|actions|].phase.Mounted?
    ensures MountedAt(v, worlds, actions, j)
    decreases |actions|
  {
    j := |actions| - 1;
    MountedByMount(v, worlds[j], actions[j], worlds[j + 1]);
    if !actions[j].Mount? {
      j := MountedIsFresh(v, worlds[..|actions|], actions[..|actions| - 1]);
    }
  }

  /** Files are only ever written into a directory that the same attempt has made, where there was nothing before. */
  lemma WritesAreFresh(v: VolumeRequest, worlds: seq<World>, actions: seq<Action>, i: nat) returns (j: nat)
    requires IsRun(v, worlds, actions) && i < |actions| && actions[i].Write?
    ensures j < i && MountedAt(v, worlds[..i + 1], actions[..i], j)
  {
    RunPrefix(v, worlds, actions, i + 1);
    RunPrefix(v, worlds, actions, i);
    j := MountedIsFresh(v, worlds[..i + 1], actions[..i]);
  }

  /**
   * Once the target path exists, no attempt succeeds and none touches it, until the volume is unpublished: a retry
   * after a failed mount or write, like a second publish, ends at the mount.
   */
  lemma {:induction false} ExistingTargetBlocks(v: VolumeRequest, worlds: seq<World>, actions: seq<Action>, start: nat)
    requires IsRun(v, worlds, actions) && start <= |actions|
    requires v.target in worlds[start].tree && Resting(worlds[start].phase)
    requires forall i :: start <= i < |actions| ==> !actions[i].Unpublish?
    ensures worlds[|actions|].tree == worlds[start].tree && !worlds[|actions|].phase.Mounted?
    ensures worlds[|actions|].phase.Done? ==> worlds[|actions|].phase == worlds[start].phase
    decreases |actions|
  {
    if start < |actions| {
      ExistingTargetBlocks(v, worlds[..|actions|], actions[..|actions| - 1], start);
      StepKeepsTree(v, worlds[|actions| - 1], actions[|actions| - 1], worlds[|actions|]);
    }
  }
}
