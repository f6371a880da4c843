/** The level-triggered status controller: watches, work queue, in-flight reconciles and the status write. */
module Reconcile {
  import opened Kube
  import opened ServiceMerge
  import opened ServiceRuns
  import opened Status

  // ---------------------------------------------------------------- watch handlers

  datatype Event = ListenerEvent(key: Key) | ClassEvent(name: string) | SliceEvent(service: Key)

  /** Which listeners a delivered event enqueues. */
  predicate Enqueues(e: Event, key: Key, l: Listener) {
    match e
    case ListenerEvent(k) => k == key
    case ClassEvent(name) => l.decl.spec.className == name
    case SliceEvent(service) => l.status.serviceName == service.name && key.namespace == service.namespace
  }

  /** `list` is None when the List call fails: the handler then answers with no request at all. */
  method HandleListenerClassChanges(name: string, list: Option<seq<Listener>>) returns (requests: seq<Key>)
    ensures list.None? ==> requests == []
    ensures list.Some? ==> forall k :: k in requests <==>
              exists l :: l in list.value && l.decl.key == k && l.decl.spec.className == name
  {
    requests := [];
    if list.None? {
      return;
    }
    for i := 0 to |list.value|
      invariant forall k :: k in requests <==>
                  exists l :: l in list.value[..i] && l.decl.key == k && l.decl.spec.className == name
    {
      assert list.value[..i + 1] == list.value[..i] + [list.value[i]];
      if list.value[i].decl.spec.className == name {
        requests := requests + [list.value[i].decl.key];
      }
    }
    assert list.value[..|list.value|] == list.value;
  }

  method HandleEndpointSliceChanges(slice: EndpointSlice, list: Option<seq<Listener>>) returns (requests: seq<Key>)
    ensures list.None? || slice.serviceName.None? ==> requests == []
    ensures list.Some? && slice.serviceName.Some? ==> forall k :: k in requests <==>
              exists l :: l in list.value && l.decl.key == k &&
                l.status.serviceName == slice.serviceName.value && k.namespace == slice.key.namespace
  {
    requests := [];
    if slice.serviceName.None? || list.None? {
      return;
    }
    for i := 0 to |list.value|
      invariant forall k :: k in requests <==>
                  exists l :: l in list.value[..i] && l.decl.key == k &&
                    l.status.serviceName == slice.serviceName.value && k.namespace == slice.key.namespace
    {
      assert list.value[..i + 1] == list.value[..i] + [list.value[i]];
      var l := list.value[i];
      if l.status.serviceName == slice.serviceName.value && l.decl.key.namespace == slice.key.namespace {
        requests := requests + [l.decl.key];
      }
    }
    assert list.value[..|list.value|] == list.value;
  }

  // ---------------------------------------------------------------- the protocol

  datatype Stored = Stored(listener: Listener, version: nat)

  /** How far an in-flight reconcile has come, with what it has read so far. */
  datatype Stage =
    | Begin
    | GotListener(decl: ListenerDecl)
    | GotClass(decl: ListenerDecl, cls: ListenerClass)
    | Serviced(decl: ListenerDecl)
    | Described(decl: ListenerDecl, svc: Service)
    | Resolved(decl: ListenerDecl, svc: Service, preferred: AddressType)
    | Built(decl: ListenerDecl, status: ListenerStatus)
    | Fetched(decl: ListenerDecl, status: ListenerStatus, version: nat)

  /**
   * The store, the work queue and the undelivered watch events. A key may be queued while it is being processed;
   * it is never processed twice at a time.
   */
  datatype World = World(
    listeners: map<Key, Stored>,
    classes: map<string, ListenerClass>,
    slices: set<EndpointSlice>,
    services: map<Key, Service>,
    nodes: Nodes,
    clock: nat,
    queue: set<Key>,
    inFlight: map<Key, Stage>,
    events: set<Event>)

  datatype Action =
    | PutListener(decl: ListenerDecl)
    | DeleteListener(key: Key)
    | PutClass(cls: ListenerClass)
    | DeleteClass(name: string)
    | ChangeSlice(removed: set<EndpointSlice>, added: set<EndpointSlice>)
    | Provision(key: Key, ingress: seq<Ingress>)
    | Deliver(event: Event, listed: bool)
    | Start(key: Key)
    | Fail(key: Key)
    | Advance(key: Key)

  predicate Backs(s: EndpointSlice, k: Key) {
    s.serviceName == Some(k.name) && s.key.namespace == k.namespace
  }

  function Matching(slices: set<EndpointSlice>, k: Key): set<EndpointSlice> {
    set s | s in slices && Backs(s, k)
  }

  /** `List` returns the matching slices in any order. */
  ghost predicate IsListing(list: seq<EndpointSlice>, slices: set<EndpointSlice>, k: Key) {
    multiset(list) == multiset(Matching(slices, k))
  }

  function SliceEvents(slices: set<EndpointSlice>): set<Event> {
    set s | s in slices && s.serviceName.Some? :: SliceEvent(Key(s.key.namespace, s.serviceName.value))
  }

  function Requests(w: World, e: Event, listed: bool): set<Key> {
    match e
    case ListenerEvent(k) => {k}
    case _ => if listed then set k | k in w.listeners && Enqueues(e, k, w.listeners[k].listener) else {}
  }

  /** The requests of a delivered event are those of the handlers, run on the listeners that are stored. */
  lemma RequestsAreTheHandlers(w: World, listed: bool, k: Key)
    ensures forall name :: k in Requests(w, ClassEvent(name), listed) <==>
              listed && k in w.listeners && w.listeners[k].listener.decl.spec.className == name
    ensures forall service :: k in Requests(w, SliceEvent(service), listed) <==>
              listed && k in w.listeners && w.listeners[k].listener.status.serviceName == service.name &&
              k.namespace == service.namespace
    ensures forall other :: k in Requests(w, ListenerEvent(other), listed) <==> k == other
  {
  }

  function Done(w: World, k: Key): World {
    w.(inFlight := w.inFlight - {k})
  }

  /** An error or `Requeue: true`: the key goes back to the queue. */
  function Requeued(w: World, k: Key): World {
    w.(inFlight := w.inFlight - {k}, queue := w.queue + {k})
  }

  function At(w: World, k: Key, stage: Stage): World {
    w.(inFlight := w.inFlight[k := stage])
  }

  /** `Status().Update` that passed the version check; an update that changes nothing makes no event. */
  function StatusWritten(w: World, k: Key, status: ListenerStatus): World
    requires k in w.listeners
  {
    var l := w.listeners[k].listener;
    if l.status == status then w
    else w.(listeners := w.listeners[k := Stored(l.(status := status), w.clock + 1)], clock := w.clock + 1,
            events := w.events + {ListenerEvent(k)})
  }

  ghost predicate CreatesService(w: World, k: Key, decl: ListenerDecl, cls: ListenerClass, w': World) {
    match CreateService(if k in w.services then Some(w.services[k]) else None, decl, cls)
    case Err(_) => w' == Requeued(w, k)
    case Ok(NoChange) => w' == At(w, k, Serviced(decl))
    case Ok(Write(written)) =>
      if Acceptable(written) then
        && k in w'.services && Accepts(written, w'.services[k])
        && w' == Requeued(w, k).(services := w.services[k := w'.services[k]])
      else w' == Requeued(w, k)
  }

  /** Only a NodePort status depends on the list, so it is harmless to have one at hand for the others too. */
  ghost predicate Computes(w: World, k: Key, decl: ListenerDecl, svc: Service, preferred: AddressType, w': World) {
    exists list ::
      && IsListing(list, w.slices, k)
      && w' == (match ComputeStatus(k.name, svc, preferred, w.nodes, list)
                case Ok(status) => At(w, k, Built(decl, status))
                case Err(_) => Requeued(w, k))
  }

  ghost predicate Advances(w: World, k: Key, w': World)
    requires k in w.inFlight
  {
    match w.inFlight[k]
    case Begin =>
      w' == if k in w.listeners then At(w, k, GotListener(w.listeners[k].listener.decl)) else Done(w, k)
    case GotListener(decl) =>
      w' == if decl.spec.className in w.classes then At(w, k, GotClass(decl, w.classes[decl.spec.className]))
            else Requeued(w, k)
    case GotClass(decl, cls) => CreatesService(w, k, decl, cls, w')
    case Serviced(decl) =>
      w' == if k in w.services then At(w, k, Described(decl, w.services[k])) else Requeued(w, k)
    case Described(decl, svc) =>
      w' == if decl.spec.className in w.classes && Preferred(w.classes[decl.spec.className]).Ok?
            then At(w, k, Resolved(decl, svc, Preferred(w.classes[decl.spec.className]).value))
            else Requeued(w, k)
    case Resolved(decl, svc, preferred) => Computes(w, k, decl, svc, preferred, w')
    case Built(decl, status) =>
      w' == if k in w.listeners then At(w, k, Fetched(decl, status, w.listeners[k].version)) else Requeued(w, k)
    case Fetched(decl, status, version) =>
      w' == if k !in w.listeners then Requeued(w, k)
            else if w.listeners[k].version != version then At(w, k, Built(decl, status))
            else Done(StatusWritten(w, k, status), k)
  }

  ghost predicate Next(w: World, a: Action, w': World) {
    match a
    case PutListener(decl) =>
      var k := decl.key;
      && (k in w.listeners ==> decl.uid == w.listeners[k].listener.decl.uid)
      && var status := if k in w.listeners then w.listeners[k].listener.status else EMPTY_STATUS;
      w' == w.(listeners := w.listeners[k := Stored(Listener(decl, status), w.clock + 1)], clock := w.clock + 1,
               events := w.events + {ListenerEvent(k)})
    case DeleteListener(k) =>
      && k in w.listeners
      && w' == w.(listeners := w.listeners - {k}, events := w.events + {ListenerEvent(k)})
    case PutClass(cls) =>
      w' == w.(classes := w.classes[cls.name := cls], events := w.events + {ClassEvent(cls.name)})
    case DeleteClass(name) =>
      w' == w.(classes := w.classes - {name}, events := w.events + {ClassEvent(name)})
    case ChangeSlice(removed, added) =>
      // The map function runs on the old and on the new object.
      w' == w.(slices := w.slices - removed + added, events := w.events + SliceEvents(removed) + SliceEvents(added))
    case Provision(k, ingress) =>
      // A load balancer reports its first ingress; Services are not watched.
      && k in w.services && w.services[k].ingress == []
      && w' == w.(services := w.services[k := w.services[k].(ingress := ingress)])
    case Deliver(e, listed) =>
      && e in w.events
      && w' == w.(events := w.events - {e}, queue := w.queue + Requests(w, e, listed))
    case Start(k) =>
      && k in w.queue && k !in w.inFlight
      && w' == w.(queue := w.queue - {k}, inFlight := w.inFlight[k := Begin])
    case Fail(k) =>
      k in w.inFlight && w' == Requeued(w, k)
    case Advance(k) =>
      k in w.inFlight && Advances(w, k, w')
  }

  // ---------------------------------------------------------------- freshness

  /** `createService` would find nothing to do. */
  predicate Settled(w: World, k: Key) {
    && k in w.listeners && k in w.services
    && var decl := w.listeners[k].listener.decl;
    && decl.spec.className in w.classes
    && CreateService(Some(w.services[k]), decl, w.classes[decl.spec.className]) == Ok(NoChange)
  }

  /** `status` is what the current store computes to, for some order of the endpoint slices. */
  ghost predicate Current(w: World, k: Key, status: ListenerStatus) {
    && k in w.listeners && k in w.services
    && var cn := w.listeners[k].listener.decl.spec.className;
    && cn in w.classes && Preferred(w.classes[cn]).Ok?
    && exists list :: IsListing(list, w.slices, k) &&
         ComputeStatus(k.name, w.services[k], Preferred(w.classes[cn]).value, w.nodes, list) == Ok(status)
  }

  ghost predicate Fresh(w: World, k: Key) {
    Settled(w, k) && Current(w, k, w.listeners[k].listener.status)
  }

  /** Something is on its way that will reconcile the listener. */
  predicate Waking(w: World, k: Key) {
    || k in w.queue
    || k in w.inFlight
    || ListenerEvent(k) in w.events
    || (k in w.listeners && w.listeners[k].listener.status.serviceName == k.name && SliceEvent(k) in w.events)
    || (k in w.listeners && ClassEvent(w.listeners[k].listener.decl.spec.className) in w.events)
  }

  // ---------------------------------------------------------------- the invariant

  /** The listener will be queued again, by an event that cannot miss it. */
  predicate Dirty(w: World, k: Key) {
    || k in w.queue
    || ListenerEvent(k) in w.events
    || (k in w.listeners && ClassEvent(w.listeners[k].listener.decl.spec.className) in w.events)
  }

  predicate Same(w: World, k: Key, decl: ListenerDecl) {
    k in w.listeners && w.listeners[k].listener.decl == decl
  }

  /** What was read is what is stored, apart from an ingress reported since. */
  predicate Agrees(read: Service, now: Service) {
    read == now || (read.ingress == [] && read == now.(ingress := []))
  }

  /** A slice event is pending, or would have missed the listener because its status names no Service yet. */
  predicate SliceExcuse(w: World, k: Key)
    requires k in w.listeners
  {
    SliceEvent(k) in w.events || w.listeners[k].listener.status.serviceName != k.name
  }

  ghost predicate StageInv(w: World, k: Key, stage: Stage) {
    match stage
    case Begin => true
    case GotListener(decl) => Dirty(w, k) || Same(w, k, decl)
    case GotClass(decl, cls) =>
      Dirty(w, k) || (Same(w, k, decl) && decl.spec.className in w.classes && w.classes[decl.spec.className] == cls)
    case Serviced(decl) => Dirty(w, k) || (Same(w, k, decl) && Settled(w, k))
    case Described(decl, svc) => Dirty(w, k) || (Same(w, k, decl) && Settled(w, k) && Agrees(svc, w.services[k]))
    case Resolved(decl, svc, preferred) =>
      || Dirty(w, k)
      || (Same(w, k, decl) && Settled(w, k) && Agrees(svc, w.services[k]) &&
          Preferred(w.classes[decl.spec.className]) == Ok(preferred))
    case Built(decl, status) => Dirty(w, k) || Writable(w, k, decl, status)
    case Fetched(decl, status, _) => Dirty(w, k) || Writable(w, k, decl, status)
  }

  ghost predicate Writable(w: World, k: Key, decl: ListenerDecl, status: ListenerStatus) {
    && Same(w, k, decl) && Settled(w, k) && status.serviceName == k.name
    && (Current(w, k, status) || SliceExcuse(w, k))
  }

  ghost predicate Rested(w: World, k: Key)
    requires k in w.listeners
  {
    && Settled(w, k) && w.listeners[k].listener.status.serviceName == k.name
    && (Current(w, k, w.listeners[k].listener.status) || SliceEvent(k) in w.events)
  }

  ghost predicate KeyInv(w: World, k: Key) {
    && (k in w.listeners ==> w.listeners[k].listener.decl.key == k)
    && (if k in w.inFlight then StageInv(w, k, w.inFlight[k])
        else k in w.listeners ==> Dirty(w, k) || Rested(w, k))
  }

  // ---------------------------------------------------------------- each step keeps it

  /** Nothing the listener depends on has changed, and no wake-up was taken away. */
  predicate Undisturbed(w: World, w': World, k: Key) {
    && (k in w'.listeners <==> k in w.listeners)
    && (k in w.listeners ==>
          && w'.listeners[k].listener == w.listeners[k].listener
          && var cn := w.listeners[k].listener.decl.spec.className;
          (cn in w'.classes <==> cn in w.classes) && (cn in w.classes ==> w'.classes[cn] == w.classes[cn]))
    && (k in w'.services <==> k in w.services) && (k in w.services ==> w'.services[k] == w.services[k])
    && Matching(w'.slices, k) == Matching(w.slices, k)
    && w'.nodes == w.nodes
    && (k in w'.inFlight <==> k in w.inFlight) && (k in w.inFlight ==> w'.inFlight[k] == w.inFlight[k])
    && (Dirty(w, k) ==> Dirty(w', k))
    && (k in w.listeners && SliceEvent(k) in w.events ==>
          SliceEvent(k) in w'.events || Dirty(w', k) || w.listeners[k].listener.status.serviceName != k.name)
  }

  lemma UndisturbedKeepsKey(w: World, w': World, k: Key)
    requires Undisturbed(w, w', k) && KeyInv(w, k)
    ensures KeyInv(w', k)
  {
  }

  /** A change that makes an event for the listener itself, or for its class, needs no more. */
  lemma DirtyKeepsKey(w: World, k: Key)
    requires Dirty(w, k) && (k in w.listeners ==> w.listeners[k].listener.decl.key == k)
    ensures KeyInv(w, k)
  {
  }

  lemma ListenerChangeKeeps(w: World, a: Action, w': World, k: Key)
    requires KeyInv(w, k) && Next(w, a, w') && (a.PutListener? || a.DeleteListener?)
    ensures KeyInv(w', k)
  {
  }

  lemma ClassChangeKeeps(w: World, a: Action, w': World, k: Key)
    requires KeyInv(w, k) && Next(w, a, w') && (a.PutClass? || a.DeleteClass?)
    ensures KeyInv(w', k)
  {
    var name := if a.PutClass? then a.cls.name else a.name;
    if k in w.listeners && w.listeners[k].listener.decl.spec.className == name {
      DirtyKeepsKey(w', k);
    } else {
      UndisturbedKeepsKey(w, w', k);
    }
  }

  lemma SliceChangeKeeps(w: World, a: Action, w': World, k: Key)
    requires KeyInv(w, k) && Next(w, a, w') && a.ChangeSlice?
    ensures KeyInv(w', k)
  {
  }

  lemma CurrentSurvivesIngress(w: World, w': World, k: Key, status: ListenerStatus)
    requires k in w.services && w.services[k].ingress == []
    requires k in w'.services && w' == w.(services := w.services[k := w'.services[k]])
    requires w.services[k] == w'.services[k].(ingress := [])
    requires Current(w, k, status)
    ensures Current(w', k, status)
  {
  }

  lemma SettledSurvivesIngress(w: World, w': World, k: Key)
    requires k in w.services && k in w'.services && w' == w.(services := w.services[k := w'.services[k]])
    requires w'.services[k] == w.services[k].(ingress := w'.services[k].ingress)
    ensures Settled(w, k) ==> Settled(w', k)
  {
  }

  lemma ProvisionKeeps(w: World, a: Action, w': World, k: Key)
    requires KeyInv(w, k) && Next(w, a, w') && a.Provision?
    ensures KeyInv(w', k)
  {
    if k != a.key {
      UndisturbedKeepsKey(w, w', k);
    } else {
      SettledSurvivesIngress(w, w', k);
      forall status | Current(w, k, status)
        ensures Current(w', k, status)
      {
        CurrentSurvivesIngress(w, w', k, status);
      }
    }
  }

  /** The step takes an event that asks for the listener, and its handler drops it because the List failed. */
  predicate Drops(w: World, a: Action, k: Key) {
    a.Deliver? && a.event in w.events && k in Requests(w, a.event, true) && k !in Requests(w, a.event, a.listed)
  }

  lemma DeliveryKeeps(w: World, a: Action, w': World, k: Key)
    requires KeyInv(w, k) && Next(w, a, w') && a.Deliver? && !Drops(w, a, k)
    ensures KeyInv(w', k)
  {
  }

  lemma QueueStepKeeps(w: World, a: Action, w': World, k: Key)
    requires KeyInv(w, k) && Next(w, a, w') && (a.Start? || a.Fail?)
    ensures KeyInv(w', k)
  {
  }

  lemma EarlyStageKeepsKey(w: World, k: Key, w': World)
    requires k in w.inFlight && Advances(w, k, w') && KeyInv(w, k)
    requires w.inFlight[k].Begin? || w.inFlight[k].GotListener?
    ensures KeyInv(w', k)
  {
  }

  /** `createService` lets the reconcile go on exactly when it has nothing to do; otherwise the key is queued again. */
  lemma ServiceStageEnds(w: World, k: Key, decl: ListenerDecl, cls: ListenerClass, w': World)
    requires CreatesService(w, k, decl, cls, w')
    ensures if k in w.services && CreateService(Some(w.services[k]), decl, cls) == Ok(NoChange)
            then w' == At(w, k, Serviced(decl)) else w' == Requeued(w, k).(services := w'.services)
  {
  }

  lemma ServiceStageKeepsKey(w: World, k: Key, decl: ListenerDecl, cls: ListenerClass, w': World)
    requires KeyInv(w, k) && k in w.inFlight && w.inFlight[k] == GotClass(decl, cls) && CreatesService(w, k, decl, cls, w')
    ensures KeyInv(w', k)
  {
    ServiceStageEnds(w, k, decl, cls, w');
    if k in w'.queue {
      DirtyKeepsKey(w', k);
    }
  }

  lemma ReadStageKeepsKey(w: World, k: Key, w': World)
    requires k in w.inFlight && Advances(w, k, w') && KeyInv(w, k)
    requires w.inFlight[k].Serviced? || w.inFlight[k].Described?
    ensures KeyInv(w', k)
  {
  }

  lemma ComputeStageKeepsKey(w: World, k: Key, decl: ListenerDecl, svc: Service, preferred: AddressType, w': World)
    requires KeyInv(w, k) && k in w.inFlight && w.inFlight[k] == Resolved(decl, svc, preferred)
    requires Computes(w, k, decl, svc, preferred, w')
    ensures KeyInv(w', k)
  {
  }

  lemma MovingKeepsCurrent(w: World, w': World, k: Key, status: ListenerStatus)
    requires w' == w.(inFlight := w'.inFlight) && Current(w, k, status)
    ensures Current(w', k, status)
  {
  }

  /** A write that changes the status wakes the listener again; one that does not leaves it as it was read. */
  lemma WriteStageKeepsKey(w: World, k: Key, w': World)
    requires k in w.inFlight && Advances(w, k, w') && KeyInv(w, k)
    requires w.inFlight[k].Built? || w.inFlight[k].Fetched?
    ensures KeyInv(w', k)
  {
    var status := w.inFlight[k].status;
    if Dirty(w', k) {
      DirtyKeepsKey(w', k);
    } else {
      assert w' == w.(inFlight := w'.inFlight);
      if Current(w, k, status) {
        MovingKeepsCurrent(w, w', k, status);
      }
    }
  }

  lemma AdvanceKeepsOwnKey(w: World, k: Key, w': World)
    requires k in w.inFlight && Advances(w, k, w') && KeyInv(w, k)
    ensures KeyInv(w', k)
  {
    var stage := w.inFlight[k];
    if stage.Begin? || stage.GotListener? {
      EarlyStageKeepsKey(w, k, w');
    } else if stage.GotClass? {
      ServiceStageKeepsKey(w, k, stage.decl, stage.cls, w');
    } else if stage.Serviced? || stage.Described? {
      ReadStageKeepsKey(w, k, w');
    } else if stage.Resolved? {
      ComputeStageKeepsKey(w, k, stage.decl, stage.svc, stage.preferred, w');
    } else {
      WriteStageKeepsKey(w, k, w');
    }
  }

  /** A reconcile changes nothing but its own key, and takes no wake-up away. */
  predicate OnlyOwn(w: World, own: Key, w': World) {
    && w'.listeners - {own} == w.listeners - {own}
    && w'.services - {own} == w.services - {own}
    && w'.inFlight - {own} == w.inFlight - {own}
    && w'.classes == w.classes && w'.slices == w.slices && w'.nodes == w.nodes
    && w.queue <= w'.queue && w.events <= w'.events
  }

  lemma UpdateOutside<V>(m: map<Key, V>, own: Key, v: V)
    ensures m[own := v] - {own} == m - {own} == m - {own} - {own}
  {
  }

  lemma MovesAreOnlyOwn(w: World, own: Key)
    ensures OnlyOwn(w, own, Done(w, own)) && OnlyOwn(w, own, Requeued(w, own))
    ensures forall stage :: OnlyOwn(w, own, At(w, own, stage))
  {
  }

  lemma ServiceWriteIsOnlyOwn(w: World, own: Key, w': World)
    requires own in w.inFlight && w.inFlight[own].GotClass?
    requires CreatesService(w, own, w.inFlight[own].decl, w.inFlight[own].cls, w')
    ensures OnlyOwn(w, own, w')
  {
    MovesAreOnlyOwn(w, own);
    if own in w'.services {
      UpdateOutside(w.services, own, w'.services[own]);
    }
  }

  lemma StatusWriteIsOnlyOwn(w: World, own: Key, w': World)
    requires own in w.inFlight && w.inFlight[own].Fetched? && Advances(w, own, w')
    ensures OnlyOwn(w, own, w')
  {
  }

  lemma AdvanceIsOnlyOwn(w: World, own: Key, w': World)
    requires own in w.inFlight && Advances(w, own, w')
    ensures OnlyOwn(w, own, w')
  {
    MovesAreOnlyOwn(w, own);
    if w.inFlight[own].GotClass? {
      ServiceWriteIsOnlyOwn(w, own, w');
    } else if w.inFlight[own].Fetched? {
      StatusWriteIsOnlyOwn(w, own, w');
    }
  }

  lemma OnlyOwnDisturbsNoOther(w: World, own: Key, w': World, k: Key)
    requires OnlyOwn(w, own, w') && k != own
    ensures Undisturbed(w, w', k)
  {
    assert (k in w'.listeners <==> k in w'.listeners - {own}) && (k in w.listeners <==> k in w.listeners - {own});
    assert (k in w'.services <==> k in w'.services - {own}) && (k in w.services <==> k in w.services - {own});
    assert (k in w'.inFlight <==> k in w'.inFlight - {own}) && (k in w.inFlight <==> k in w.inFlight - {own});
    assert k in w.listeners ==> w'.listeners[k] == (w'.listeners - {own})[k] == (w.listeners - {own})[k] == w.listeners[k];
    assert k in w.services ==> w'.services[k] == (w'.services - {own})[k] == (w.services - {own})[k] == w.services[k];
    assert k in w.inFlight ==> w'.inFlight[k] == (w'.inFlight - {own})[k] == (w.inFlight - {own})[k] == w.inFlight[k];
  }

  lemma AdvanceKeeps(w: World, a: Action, w': World, k: Key)
    requires KeyInv(w, k) && Next(w, a, w') && a.Advance?
    ensures KeyInv(w', k)
  {
    if k == a.key {
      AdvanceKeepsOwnKey(w, k, w');
    } else {
      AdvanceIsOnlyOwn(w, a.key, w');
      OnlyOwnDisturbsNoOther(w, a.key, w', k);
      UndisturbedKeepsKey(w, w', k);
    }
  }

  lemma NextKeeps(w: World, a: Action, w': World, k: Key)
    requires KeyInv(w, k) && Next(w, a, w') && !Drops(w, a, k)
    ensures KeyInv(w', k)
  {
    match a
    case PutListener(_) => ListenerChangeKeeps(w, a, w', k);
    case DeleteListener(_) => ListenerChangeKeeps(w, a, w', k);
    case PutClass(_) => ClassChangeKeeps(w, a, w', k);
    case DeleteClass(_) => ClassChangeKeeps(w, a, w', k);
    case ChangeSlice(_, _) => SliceChangeKeeps(w, a, w', k);
    case Provision(_, _) => ProvisionKeeps(w, a, w', k);
    case Deliver(_, _) => DeliveryKeeps(w, a, w', k);
    case Start(_) => QueueStepKeeps(w, a, w', k);
    case Fail(_) => QueueStepKeeps(w, a, w', k);
    case Advance(_) => AdvanceKeeps(w, a, w', k);
  }

  // ---------------------------------------------------------------- whole runs

  /** At start-up the queue is empty and the watch announces every listener; versions only ever grow. */
  predicate Init(w: World) {
    && w.queue == {} && w.inFlight == map[]
    && (forall k :: k in w.listeners ==> w.listeners[k].version <= w.clock)
    && forall k :: k in w.listeners ==> w.listeners[k].listener.decl.key == k && ListenerEvent(k) in w.events
  }

  ghost predicate IsRun(worlds: seq<World>, actions: seq<Action>) {
    && |worlds| == |actions| + 1
    && (actions == [] ==> Init(worlds[0]))
    && (actions != [] ==>
          && IsRun(worlds[..|actions|], actions[..|actions| - 1])
          && Next(worlds[|actions| - 1], actions[|actions| - 1], worlds[|actions|]))
  }

  lemma {:induction false} RunStarts(worlds: seq<World>, actions: seq<Action>)
    requires IsRun(worlds, actions)
    ensures Init(worlds[0])
    decreases |actions|
  {
    if actions != [] {
      RunStarts(worlds[..|actions|], actions[..|actions| - 1]);
    }
  }

  lemma {:induction false} RunStep(worlds: seq<World>, actions: seq<Action>, i: nat)
    requires IsRun(worlds, actions) && i < |actions|
    ensures Next(worlds[i], actions[i], worlds[i + 1])
    decreases |actions|
  {
    if i < |actions| - 1 {
      RunStep(worlds[..|actions|], actions[..|actions| - 1], i);
    }
  }

  lemma AdvanceKeepsDecl(w: World, own: Key, w': World, k: Key)
    requires own in w.inFlight && Advances(w, own, w') && k in w'.listeners
    ensures k in w.listeners && w'.listeners[k].listener.decl == w.listeners[k].listener.decl
  {
  }

  lemma NextKeepsName(w: World, a: Action, w': World, k: Key)
    requires Next(w, a, w') && k in w'.listeners
    requires k in w.listeners ==> w.listeners[k].listener.decl.key == k
    ensures w'.listeners[k].listener.decl.key == k
  {
    if a.Advance? {
      AdvanceKeepsDecl(w, a.key, w', k);
    }
  }

  lemma {:induction false} RunKeepsName(worlds: seq<World>, actions: seq<Action>, k: Key)
    requires IsRun(worlds, actions) && k in worlds[|actions|].listeners
    ensures worlds[|actions|].listeners[k].listener.decl.key == k
    decreases |actions|
  {
    if actions != [] {
      if k in worlds[|actions| - 1].listeners {
        RunKeepsName(worlds[..|actions|], actions[..|actions| - 1], k);
      }
      NextKeepsName(worlds[|actions| - 1], actions[|actions| - 1], worlds[|actions|], k);
    }
  }

  /** An event that asks for the listener was dropped at step `i`, and none that cannot miss it has come since. */
  predicate DroppedAt(worlds: seq<World>, actions: seq<Action>, k: Key, i: nat)
    requires |worlds| == |actions| + 1
  {
    && i < |actions| && Drops(worlds[i], actions[i], k)
    && forall j :: i < j <= |actions| ==> !Dirty(worlds[j], k)
  }

  ghost predicate Dropped(worlds: seq<World>, actions: seq<Action>, k: Key)
    requires |worlds| == |actions| + 1
  {
    exists i :: DroppedAt(worlds, actions, k, i)
  }

  lemma {:induction false} RunKeepsKey(worlds: seq<World>, actions: seq<Action>, k: Key)
    requires IsRun(worlds, actions)
    ensures KeyInv(worlds[|actions|], k) || Dropped(worlds, actions, k)
    decreases |actions|
  {
    if actions != [] {
      var front, steps := worlds[..|actions|], actions[..|actions| - 1];
      var w, a, w' := worlds[|actions| - 1], actions[|actions| - 1], worlds[|actions|];
      RunKeepsKey(front, steps, k);
      if Dirty(w', k) {
        if k in w'.listeners {
          RunKeepsName(worlds, actions, k);
        }
        DirtyKeepsKey(w', k);
      } else if Dropped(front, steps, k) {
        var i :| DroppedAt(front, steps, k, i);
        assert DroppedAt(worlds, actions, k, i);
      } else if Drops(w, a, k) {
        assert DroppedAt(worlds, actions, k, |actions| - 1);
      } else {
        NextKeeps(w, a, w', k);
      }
    }
  }

  /**
   * The only way to lose a wake-up. In every reachable state, over any interleaving and with any List calls failing,
   * a stored listener is on its way to a reconcile, or its Service needs no update and its status is what the store
   * computes to, or an event for it was dropped by a failed List and nothing has been on its way since.
   */
  lemma NoLostWakeup(worlds: seq<World>, actions: seq<Action>, k: Key)
    requires IsRun(worlds, actions) && k in worlds[|actions|].listeners
    ensures Waking(worlds[|actions|], k) || Fresh(worlds[|actions|], k) || Dropped(worlds, actions, k)
  {
    RunKeepsKey(worlds, actions, k);
  }

  /** A dropped event is made good by the next change that the listener or its class sees. */
  lemma NextWakeupHeals(worlds: seq<World>, actions: seq<Action>, k: Key, start: nat)
    requires IsRun(worlds, actions) && k in worlds[|actions|].listeners
    requires start <= |actions| && Dirty(worlds[start], k)
    requires forall i :: start <= i < |actions| ==> !Drops(worlds[i], actions[i], k)
    ensures Waking(worlds[|actions|], k) || Fresh(worlds[|actions|], k)
  {
    NoLostWakeup(worlds, actions, k);
  }

  predicate Idle(w: World, k: Key) {
    k in w.listeners && !Waking(w, k)
  }

  /**
   * Which step strands a listener, leaving it stale with nothing on its way: exactly the one that drops an event
   * for it when it is stale already and nothing else is on its way.
   */
  lemma FailedListStrands(worlds: seq<World>, actions: seq<Action>, k: Key, a: Action, w': World)
    requires IsRun(worlds, actions) && !Dropped(worlds, actions, k) && Next(worlds[|actions|], a, w')
    ensures var w := worlds[|actions|];
            Idle(w', k) && !Fresh(w', k) <==> Drops(w, a, k) && Idle(w.(events := w.events - {a.event}), k) && !Fresh(w, k)
  {
    RunKeepsKey(worlds, actions, k);
    if !Drops(worlds[|actions|], a, k) {
      NextKeeps(worlds[|actions|], a, w', k);
    }
  }

  /**
   * A slice event passes by a listener whose status names no Service yet. The status write that follows is what
   * wakes it: it changes the status, so it makes a listener event.
   */
  lemma FirstWriteWakes(w: World, k: Key, w': World)
    requires k in w.listeners && w.listeners[k].listener.status.serviceName != k.name
    requires k in w.inFlight && w.inFlight[k].Fetched? && w.inFlight[k].status.serviceName == k.name
    requires w.inFlight[k].version == w.listeners[k].version
    requires Advances(w, k, w')
    ensures k !in Requests(w, SliceEvent(k), true)
    ensures ListenerEvent(k) in w'.events && w'.listeners[k].listener.status == w.inFlight[k].status
    ensures k in Requests(w', SliceEvent(k), true)
  {
  }
}
