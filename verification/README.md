# Listener operator: a verified model

This project models the hard core of the listener operator in Dafny and proves what that core promises over whole
runs. There are three parts.

- **Services.** `createService` builds the Service a Listener asks for and merges it into the stored one, keeping node
  ports by port name and protocol. The API server is a separate step that fills zero or unset fields with values of its
  own choice. (`ServiceMerge.dfy`, `ServiceRuns.dfy`)
- **Status.** The controller is a protocol: watch events that are delivered late, a work queue, reconciles that read the
  store piece by piece, and a status write with a version check. (`Status.dfy`, `Reconcile.dfy`, `Convergence.dfy`,
  `LostWakeups.dfy`, `Reports.dfy`, `Lifecycle.dfy`)
- **Volumes.** A publish finds or creates a Listener, labels the pod, takes a snapshot of the addresses, enters them in
  the pod's PodListeners object with a JSON merge patch, mounts and writes files. Any step may fail, and several volumes
  of a pod run at once. (`MergePatch.dfy`, `PodListeners.dfy`, `Selector.dfy`, `VolumeTree.dfy`, `Publish.dfy`,
  `Unpublish.dfy`, `VolumeContext.dfy`)

`PortConservation.dfy` joins the three: from a pod's container ports to the numbers in its volume's files. `Kube.dfy`
holds the objects. Code that works in place is a class or a method with loops; protocols are state machines over their
steps, and their theorems are about every run.

`dafny verify dfyconfig.toml` checks everything.

## What the proofs show about the code

- A class of type NodePort or LoadBalancer without a traffic policy never settles: the server fills the policy in, the
  operator takes it out again, and no reconcile gets as far as the status (`ServiceRuns.UnsetPolicyNeverSettles`, with a
  run in `ServiceRuns.NeverSettlesExample`). The CRD default rules this out. `ServiceRuns.ConvergesExactly` gives the
  exact condition, which also rules out repeated port identities where node ports are allocated: after one accepted write
  the merge gives them one node port, and the server refuses every further write (`ServiceRuns.RepeatsAreRefused`).
- The watch handlers drop an event when their List call fails. That is the only way to leave a listener stale with nothing
  queued (`Reconcile.NoLostWakeup`), it happens from start-up for class and for slice changes
  (`LostWakeups.LostClassChange`, `LostWakeups.LostSliceChange`), and the next change to the listener or its class makes it
  good (`Reconcile.NextWakeupHeals`).
- `Pick` answers nil for an IP address when the preference is not IP, and its callers dereference the answer. The model
  treats that as a failed reconcile; `Status.StatusExactly` says exactly when it happens. It does for the CRD's default
  preference and a load balancer that reports an IP address (`Status.NilPickExample`).
- A repeated address in one volume keeps the port files of its earlier entries. `VolumeTree.MergedIsLastWins` says when
  that makes no difference and `VolumeTree.StalePortFileStays` gives data where it does; for a status that the controller
  wrote it never does (`PortConservation.RepeatedAddressesLoseNothing`).
- A listener that already exists under the claim's name is used as it is, so its class may differ from the one that
  decided the volume's topology (`VolumeContext.TopologyClassAgrees`, with such a store in
  `VolumeContext.TopologyOfAnotherClass`). So may that of a named listener that is edited between the two calls
  (`VolumeContext.NamedListenerEdited`).
- The source describes the class annotation as required; the code accepts a claim that has either annotation, and the
  model follows the code.

## Assumptions

- The API server fills only zero or unset fields, allocates a node port once per protocol, and refuses a write that gives
  one to two ports of a protocol. Stored Services have the node ports they need.
- `SetControllerReference` and `CreateOrUpdate` behave as in controller-runtime: one controller owner, told apart by kind
  and name, and no write when the merged object equals the stored one.
- The work queue remembers keys added during processing and never processes a key twice at a time. `List` returns
  endpoint slices in any order. Watch events arrive after the change, at any later time.
- The kubelet runs one publish or unpublish per volume at a time. A file system has a directory for every prefix of a
  path. The volumes of a pod have different names and one source each, as Kubernetes requires.

## Model

| member | source | states |
|---|---|---|
| `ServiceMerge.BuildDesiredPorts` | internal/controller/listener/service.go:44-61 | the loop gives the named ports in order, protocol TCP by default |
| `ServiceMerge.DesiredPortsExact` | internal/controller/listener/service.go:46-61 | a port is desired if and only if it comes from a named spec, and no desired port has a node port |
| `ServiceMerge.NamedPortIsDesired` | internal/controller/listener/service.go:46-61 | a named port is desired under its number, with the same target port, and as TCP unless it says otherwise |
| `ServiceMerge.InheritNodePorts` | internal/controller/listener/service.go:88-98 | the nested loops on the port array give every port the node port of the first existing port with its name and protocol |
| `ServiceMerge.ServiceObject.Mutate` | internal/controller/listener/service.go:86-113 | the closure's in-place updates amount to the merge; an object of another controller is refused |
| `ServiceMerge.RunCreateService` | internal/controller/listener/service.go:36-122 | ports, desired object, merge and comparison together decide between no operation and a write |
| `ServiceMerge.RemergeIsIdentity` | internal/controller/listener/service.go:88-99 | merging ports a second time changes nothing, even with repeated identities |
| `ServiceMerge.MergeKeepsAllocationsDistinct` | internal/controller/listener/service.go:88-99 | with unique identities no node port is given to two ports |
| `ServiceRuns.MergeShowsDesired` | internal/controller/listener/service.go:86-113 | whatever was stored, the merged Service shows the desired fields, and the merge fails exactly for a foreign owner |
| `ServiceRuns.ServerAnswers` | internal/controller/listener/service.go:114-119 | the modelled server has an answer to a write if and only if no node port is given twice for a protocol |
| `ServiceRuns.ReconcileEstablishes` | internal/controller/listener/service.go:36-122 | after a reconcile that did not fail the stored Service says what the listener and the class say |
| `ServiceRuns.OneWriteConverges` | internal/controller/listener/service.go:85-121 | from any stored Service one write and the server's filling give a fixed point of the merge |
| `ServiceRuns.ConvergesExactly` | internal/controller/listener/service.go:80-121 | for every write that is accepted, the next merge finds nothing to do if and only if the traffic policy is set and, where node ports are allocated, port identities are unique |
| `ServiceRuns.RepeatsAreRefused` | internal/controller/listener/service.go:88-121 | with repeated port identities and allocated node ports the write after an accepted one is refused |
| `ServiceRuns.UnsetPolicyNeverSettles` | internal/controller/listener/service.go:114-119 | without a policy an exposed class makes every reconcile of a run write, from nothing stored or from any Service that the server has given a policy |
| `ServiceRuns.NeverSettlesExample` | internal/controller/listener/service.go:114-119 | a concrete listener, class and server for which every state of the run writes |
| `ServiceRuns.NodePortNeverMoves` | internal/controller/listener/service.go:86-103 | over any run an allocated node port stays while its port is listed and the class is NodePort or LoadBalancer |
| `ServiceRuns.LegalEverAfter` | internal/controller/listener/service.go:99-112 | once a reconcile has not failed, the Service is legal for its type in every later state and cluster IPs and unowned fields are kept |
| `ServiceRuns.BalancerFieldsNeverChange` | internal/controller/listener/service.go:104-112 | over any run with a LoadBalancer class the load-balancer class stays, and so do an allocation flag that is set and, under the Local policy, an allocated health-check node port |
| `ServiceRuns.CreateServiceSucceedsExactly` | internal/controller/listener/service.go:36-122 | `createService` succeeds if and only if there is a named port, a Service type, and no other controller of the stored Service |
| `ServiceRuns.ForeignServiceStays` | internal/controller/listener/service.go:113-119 | over any run a Service that somebody else controls is never touched |
| `Status.PriorAddressIsFirst` | pkg/util/address.go:36-55 | the first address that is an external IP, an internal IP or a host name is chosen, as an IP or a host name |
| `Status.PriorAddressNone` | pkg/util/address.go:36-57 | there is no address, which is the error, if and only if all are of other kinds |
| `Status.GetNodeNames` | internal/controller/listener/service.go:281-291 | the nested loops give the nodes of all endpoints in order |
| `Status.NodeNamesExact` | internal/controller/listener/service.go:281-291 | a name is given if and only if some endpoint has it |
| `Status.NodeNamesInOrder` | internal/controller/listener/service.go:281-291 | names are taken slice by slice, repeats included |
| `Status.KnownNodesInOrder` | internal/controller/listener/service.go:283-290 | names are taken endpoint by endpoint, and an endpoint without a node gives none |
| `Status.GetNodesAddresses` | internal/controller/listener/service.go:244-266 | the loop with its early error returns gives the addresses of the named nodes |
| `Status.NodesAddressesExact` | internal/controller/listener/service.go:251-265 | one address per name in order, repeats included, and failure if and only if some node is missing or has no address |
| `Status.NodeUsableExactly` | internal/controller/listener/service.go:251-265 | a node is usable if and only if it is there and has an address of a recognised kind |
| `Status.GetLbIngressAddresses` | internal/controller/listener/service.go:195-221 | fails for another type or without ingress, else gives host name and IP of every ingress |
| `Status.LbAddressesExact` | internal/controller/listener/service.go:205-218 | an address is given if and only if some ingress reports it and it is not empty |
| `Status.LbAddressesInOrder` | internal/controller/listener/service.go:205-218 | addresses are taken ingress by ingress, the host name before the IP |
| `Status.GetClusterIpAddresses` | internal/controller/listener/service.go:223-238 | fails for another type, else gives the cluster IPs as IP addresses |
| `Status.FillPortTable` | internal/controller/listener/service.go:314-325 | the loop of `getPorts`, shared with `getNodePorts`, fills the table of named ports |
| `Status.GetNodePorts` | internal/controller/listener/service.go:297-312 | fails if and only if the Service is of another type, else gives the table of node ports |
| `Status.PortTableNames` | internal/controller/listener/service.go:303-323 | the table has exactly the non-empty port names |
| `Status.PortTableValue` | internal/controller/listener/service.go:303-323 | the last port of a name decides its number |
| `Status.AppendPicked` | internal/controller/listener/controller.go:224-231 | the picking loop gives one entry per address, or fails if and only if some pick is nil |
| `Status.BuildStatus` | internal/controller/listener/controller.go:196-271 | the branches on the Service type build the status that the loop-free definition gives |
| `Status.StatusExactly` | internal/controller/listener/controller.go:208-271 | past gathering, a status is built if and only if the preference is IP or no address is one; then entries keep order and text, share one type and one port table, and only NodePort reports node ports |
| `Status.ConservativePreference` | internal/controller/listener/controller.go:180-194 | with the conservative preference only a LoadBalancer with an IP ingress cannot be given a status |
| `Status.ReportedType` | internal/controller/listener/controller.go:180-194 | a status has IPs if the class prefers them or is conservative and of type NodePort, and host names otherwise |
| `Status.ClusterIPStatus` | internal/controller/listener/controller.go:246-271 | a ClusterIP Service is reported at its cluster IPs in order, or by its name in the cluster domain |
| `Status.NilPickExample` | internal/controller/listener/controller.go:233-245 | a class with the default preference and a load balancer with an IP address for which picking fails |
| `Reconcile.HandleListenerClassChanges` | internal/controller/listener/controller.go:111-131 | exactly the listeners of the class are requested, and none when the List fails |
| `Reconcile.HandleEndpointSliceChanges` | internal/controller/listener/controller.go:133-162 | exactly the listeners whose status names the Service in that namespace are requested, and none without the label or when the List fails |
| `Reconcile.RequestsAreTheHandlers` | internal/controller/listener/controller.go:111-162 | a delivered event requests exactly the stored listeners that the handler of its kind would, and none for a failed List |
| `Reconcile.NextKeeps` | internal/controller/listener/controller.go:67-282 | every step of the environment, the queue and any in-flight reconcile keeps the freshness invariant of a listener, unless it drops an event for that listener |
| `Reconcile.NoLostWakeup` | internal/controller/listener/controller.go:67-282 | in every reachable state, with any List calls failing, a listener is on its way to a reconcile, or its Service is settled and its status is what the store computes to, or an event for it was dropped and nothing for it or its class has come since |
| `Reconcile.NextWakeupHeals` | internal/controller/listener/controller.go:67-162 | after a dropped event the next change to the listener or its class, or a retry, restores that guarantee |
| `Reconcile.FirstWriteWakes` | internal/controller/listener/controller.go:148-159 | a slice event misses a listener without a Service name; the status write that sets it wakes the listener |
| `Reconcile.FailedListStrands` | internal/controller/listener/controller.go:111-162 | in a run that has no unhealed drop for a listener, a step leaves it stale with nothing on its way if and only if it drops the last event for it, of a class or of a slice, and the listener is stale |
| `LostWakeups.LostClassChange` | internal/controller/listener/controller.go:111-116 | a run from start-up in which a class change is dropped and its listener stays stale |
| `LostWakeups.LostSliceChange` | internal/controller/listener/controller.go:142-146 | the same for the first endpoint slice of a NodePort listener |
| `Convergence.DescribesExactly` | internal/controller/listener/controller.go:196-271 | for every order of the slices a status is computed if and only if the store can be described: by node addresses for NodePort, by the ingress for LoadBalancer |
| `Convergence.RewrittenSettles` | internal/controller/listener/controller.go:83-90 | after a Service write the Service is settled if and only if the write was accepted, the policy is set and allocated ports have unique identities |
| `Convergence.UndisturbedPass` | internal/controller/listener/controller.go:67-99 | an undisturbed reconcile of a settled listener has ended after eight steps; the listener is fresh if and only if the store can be described, else it is queued again and unchanged; a status that was right is not written |
| `Convergence.TwoPassesConverge` | internal/controller/listener/controller.go:67-99 | from any stored Service that must be written, two undisturbed passes end with a fresh listener if and only if one accepted write settles the Service and the store before the first pass can be described; otherwise, refused writes included, the listener is queued |
| `Reports.StatusesAreReports` | internal/controller/listener/controller.go:67-282 | over any run every stored status is empty, from before the run, or computed from a Service that was settled for a version of the listener, with its node ports allocated |
| `Reports.WrittenStatusHasOneTable` | internal/controller/listener/controller.go:196-271 | over any run every status the controller wrote has one port table for all its entries |
| `Lifecycle.FailuresAreRetried` | internal/controller/listener/controller.go:67-99 | over any run a reconcile that ends leaves its key queued, unless its listener was gone or the status it computed is stored |
| `Lifecycle.MissingListenerEnds` | internal/controller/listener/controller.go:67-81 | a reconcile that finds no listener ends, queues nothing and changes nothing |
| `Lifecycle.GoneStaysGone` | internal/controller/listener/controller.go:67-109 | over any run a deleted listener with nothing pending stays so until it is put again |
| `Lifecycle.StatusWriteIsGuarded` | internal/controller/listener/controller.go:272-282 | over any run a status write changes a listener only if it is as it was when the write fetched it, and then only its status |
| `Lifecycle.ConflictIsRetried` | internal/controller/listener/controller.go:272-282 | after a conflict a pass that is left alone fetches again and stores the status it computed |
| `MergePatch.DiffIsEmpty` | internal/csi/node.go:610-624 | the diff is empty if and only if nothing changed |
| `MergePatch.DiffApplies` | internal/csi/node.go:610-624 | applying the diff gives the modified object if and only if every null in it was there before |
| `MergePatch.DiffTransplants` | internal/csi/node.go:270-305 | a diff is a three-way merge at every path: applied to an object that agrees where the modification goes, it gives the modified value at the paths that differ and keeps the object everywhere else |
| `MergePatch.PatchesCommute` | internal/csi/node.go:288-305 | patches that nowhere write different values under the same names commute on every object |
| `MergePatch.DivergentPatchesCommute` | internal/csi/node.go:610-624 | patches made by setting values at diverging paths commute on every object, whatever two objects were read |
| `MergePatch.StalePatchIsExact` | internal/csi/node.go:610-624 | a patch made from a stale read writes its one value into the object as it is now and keeps everything else |
| `PodListeners.PatchKeepsOthers` | internal/csi/node.go:610-624 | a publisher's patch sets its own volume's entry, readable by the names in the schema, and keeps the entries of all others |
| `PodListeners.NextKeeps` | internal/csi/node.go:585-632 | every Get, Create and Patch of any publisher keeps all published entries and the reads of own entries up to date |
| `PodListeners.EntryReadsBack` | internal/csi/node.go:534-582 | by the names in the schema an entry has its scope, its addresses in order with their types, and exactly their ports |
| `PodListeners.EntriesTellApart` | internal/csi/node.go:534-582 | no two entries with IP or host name addresses look the same in the object |
| `PodListeners.NoLostUpdate` | internal/csi/node.go:585-632 | over any interleaving every volume whose publish succeeded still has its entry, readable by the names in the schema |
| `PodListeners.EntryPatchesCommute` | internal/csi/node.go:610-624 | the patches of two volumes give the same PodListeners object in either order |
| `PodListeners.CreateRace` | internal/csi/node.go:592-605 | of two publishers that found nothing the second to create fails and changes nothing |
| `PodListeners.OwnEntryMustNotBeStale` | internal/csi/node.go:610-624 | a publisher that wants the entry it read sends an empty patch, so one publisher per volume is needed |
| `Selector.MountKeyInjective` | pkg/util/constant.go:16-20 | listeners with different canonical identifiers have different mount keys |
| `Selector.MountKeyText` | pkg/util/constant.go:13-20 | the mount key is the prefix and the 32 characters of the identifier |
| `Selector.PatchAddsOneLabel` | internal/csi/node.go:288-305 | a label patch from a stale read adds the listener's label to the pod as it is now |
| `Selector.LabelPatchesCommute` | internal/csi/node.go:288-305 | the label patches of one pod for two listeners give the same pod in either order |
| `Selector.SelectorExactly` | internal/controller/listener/service.go:141-150 | over any run a Service selects a pod if and only if it was patched for the listener and has the extra labels, unless those override the listener's own key, and then it selects none |
| `VolumeTree.ItoaRoundTrip` | internal/csi/node.go:248-254 | the decimal text of any number reads back as that number |
| `VolumeTree.ItoaIsCanonical` | internal/csi/node.go:248-254 | the text is digits without leading zeros, after a minus sign for negative numbers |
| `VolumeTree.LinkTextIsRelative` | internal/csi/node.go:258-261 | the two trims leave the path relative to the target |
| `VolumeTree.Volume.WritePorts` | internal/csi/node.go:248-254 | one file per port, in any order of the map |
| `VolumeTree.Volume.WriteAddress` | internal/csi/node.go:235-256 | the address file, the ports directory and the port files are added and nothing else |
| `VolumeTree.Volume.WriteData` | internal/csi/node.go:193-233 | in an empty mount the tree under the target is exactly the image of the data, with the link to the last address, and elsewhere unchanged; without data nothing is written |
| `VolumeTree.VolumeReadsBack` | internal/csi/node.go:181-268 | reading the tree gives the content back and `default-address` leads to the last entry's directory |
| `VolumeTree.MergedIsLastWins` | internal/csi/node.go:210-225 | the volume says what the last entry of each address says if and only if no earlier entry of it has another port name |
| `VolumeTree.StalePortFileStays` | internal/csi/node.go:210-225 | two entries of one address for which it does not |
| `VolumeTree.SharedTableSurvives` | internal/csi/node.go:210-225 | with one port table for all entries every address keeps it |
| `Publish.GetPodPorts` | internal/csi/node.go:364-387 | the nested loops give the named ports of all containers and fail if and only if there is none |
| `Publish.FindVolumeName` | internal/csi/node.go:517-531 | the first volume for the claim, by claim name or as an ephemeral volume, or none if there is none |
| `Publish.VolumeNamesAreApart` | internal/csi/node.go:517-531 | different claims never get the same volume name |
| `Publish.NoLostEntries` | internal/csi/node.go:494-531 | over any interleaving of a pod's publishers, published claims have their entries under different names |
| `Publish.GetAddresses` | internal/csi/node.go:310-338 | the pod's node with the node ports if there are any, else the addresses of the status, else an error |
| `Publish.MountIsEmpty` | internal/csi/node.go:641-667 | a target path that was absent becomes an empty directory |
| `Publish.NextKeeps` | internal/csi/node.go:96-179 | every step of an attempt, of the pod's other publishers and of the environment keeps the listener count, the entry in the shared object and the tree in line with the attempt |
| `Publish.StatusIsReal` | internal/csi/node.go:310-338 | the status an attempt works with was the listener's status at a step of that attempt |
| `Publish.PublishAgrees` | internal/csi/node.go:96-179 | after a publish that succeeded, while other volumes go on publishing, the files, the entry in the shared PodListeners object and its scope come from one snapshot: a status the listener had, and for node ports the one address the pod's node had, in that attempt; the entry reads back by the names in the schema |
| `Publish.PublishIsSelected` | internal/csi/node.go:96-179 | after a publish that succeeded, whatever happens to the pods' other labels, the Service of the listener it found selects the pod if and only if the pod has the listener's extra labels |
| `Publish.CreatedIsSelected` | internal/csi/node.go:432-490 | a listener that the attempt made has the pod's named ports and the claim's class, publishes addresses of pods that are not ready, and its Service selects the pod |
| `Publish.ErrorsEndTheAttempt` | internal/csi/node.go:96-179 | over any run an attempt in which a step reports an error, even after it has acted, has failed, until the next attempt or an unpublish |
| `Publish.AtMostOneListener` | internal/csi/node.go:432-490 | any number of attempts creates at most one listener more than were deleted, and none when the claim names one |
| `Publish.PublishChangesNoListener` | internal/csi/node.go:96-179 | over any stretch of a run in which others leave listeners alone, no listener that is there changes |
| `Publish.UntouchedBeforeMount` | internal/csi/node.go:96-168 | an attempt that has not come to its mount, failed or not, has left the tree as it was |
| `Publish.WritesAreFresh` | internal/csi/node.go:164-173 | every write of files follows a mount of the same attempt, onto a target path that was absent, with nothing changed in between |
| `Publish.ExistingTargetBlocks` | internal/csi/node.go:641-653 | once the target path exists no attempt touches it or succeeds until an unpublish |
| `Unpublish.UnpublishRemoves` | internal/csi/node.go:671-697 | after an unpublish that succeeded the target path is gone and every other path is as it was, until the next mount |
| `Unpublish.UnpublishMakesRoom` | internal/csi/node.go:641-697 | after the unpublish of a published volume the mount finds room for the target path |
| `Unpublish.PublishCanMount` | internal/csi/node.go:96-168 | from any state at rest in which pod, listener, addresses and room are there, an attempt can come to its mount |
| `PortConservation.PodPortsExact` | internal/csi/node.go:364-380 | a port is taken if and only if some container has it under a name |
| `PortConservation.WrittenServiceCarries` | internal/csi/node.go:456-467 | whatever was stored, an accepted write of the Service has the listener's ports one for one, with node ports allocated where needed |
| `PortConservation.RepeatedAddressesLoseNothing` | internal/controller/listener/controller.go:214-267 | every entry of a status that the controller wrote in a run can be read back from the volume with its own ports |
| `PortConservation.PortsAreConserved` | internal/csi/node.go:364-387 | for any accepted write of the Service, with any ingress reported since, the port files of every address are exactly the named container ports, with the container port or the non-zero node port in them |
| `PortConservation.PublishConservesPorts` | internal/csi/node.go:96-179 | over a run of the controller and one of the publisher that meet in the listener's status, for all three Service types, the published volume conserves the ports of the pod the listener was made from |
| `VolumeContext.CreateVolumeExactly` | internal/csi/controller.go:122-236 | a volume is created if and only if the claim's annotations lead to a class, with those annotations, and is pinned to the preferred node if and only if the class is NodePort |
| `VolumeContext.AcceptedContextIsSafe` | internal/csi/node.go:412-443 | a context that `CreateVolume` accepted never leads to a nil dereference, whatever changed since |
| `VolumeContext.TopologyClassAgrees` | internal/csi/controller.go:122-236 | whatever changed between the two calls: a new listener has the class that decided the topology, an existing one if and only if it is of the class the claim asks for, a named one if and only if its class was not edited |
| `VolumeContext.TopologyOfAnotherClass` | internal/csi/controller.go:122-236 | a store in which the volume is pinned to a node and its listener is of a ClusterIP class |
| `VolumeContext.NamedListenerEdited` | internal/csi/controller.go:122-236 | two stores between which a named listener's class was edited, so that the two calls use different classes |

## Left out

- Informer caches that lag behind each other: the protocol's reads see the store, though each at its own time.
- Services and Nodes changed by others, and a load balancer's ingress changing after its first report: the operator does
  not watch them, so freshness cannot hold; the first report is in the model.
- Garbage collection of PodListeners and Services, which Kubernetes decides. Listeners may be deleted at any time.
- `handlePVChanges` and the labels on PersistentVolumes: the name key that is written and the one that is read are
  different constants.
- Request validation, volume capabilities, stage and unstage, `DeleteVolume`, the identity service, the gRPC server and
  the empty reconcilers: they change no state or add only easy members.
- Real mounts, file modes and tmpfs options: a mount is a path that was absent and becomes an empty directory.
- A nil and an empty list of addresses are one value; the source tells them apart only on a path `getAddresses` never
  takes.
- VolumeTree.Volume.WriteData: says what the tree is for addresses and port names that are single path components, as IP
  addresses, DNS names and port names are; for other text it only promises to stop or finish.
- Files outside a volume's own target path: other volumes' trees and the removal of parent directories are not part of
  a publish run.
- 32-bit integers: ports are copied and printed, never computed with.
