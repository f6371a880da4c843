/** Publishers of one pod's volumes sharing one PodListeners object. */
module PodListeners {
  import opened Kube
  import opened MergePatch

  datatype Scope = NodeScope | ClusterScope

  datatype PodListener = PodListener(scope: Scope, ingresses: seq<IngressAddress>)

  // ---------------------------------------------------------------- as JSON

  function EncodeType(t: AddressType): Json {
    Str(match t
        case IP => "IP"
        case Hostname => "Hostname"
        case HostnameConservative => "HostnameConservative"
        case OtherType(text) => text)
  }

  function EncodeIngress(a: IngressAddress): Json {
    Obj(map["address" := Str(a.address), "addressType" := EncodeType(a.addressType),
            "ports" := Obj(map n | n in a.ports :: Num(a.ports[n]))])
  }

  function Encode(e: PodListener): Json {
    Obj(map["scope" := Str(if e.scope.NodeScope? then "Node" else "Cluster"),
            "listenerIngresses" := Arr(seq(|e.ingresses|, i requires 0 <= i < |e.ingresses| => EncodeIngress(e.ingresses[i])))])
  }

  function Path(volume: string): seq<string> {
    ["spec", "listeners", volume]
  }

  lemma PathsDiverge(v: string, u: string)
    ensures Diverge(Path(v), Path(u)) <==> v != u
  {
    var p, q := Path(v), Path(u);
    assert Diverge(p, q) == Diverge(p[1..], q[1..]);
    assert Diverge(p[1..], q[1..]) == Diverge(p[1..][1..], q[1..][1..]);
    assert p[1..][1..] == [v] && q[1..][1..] == [u];
    assert Diverge([v], [u]) == (v != u || Diverge([v][1..], [u][1..]));
  }

  // ---------------------------------------------------------------- createOrUpdatePodListeners

  /** Where the publisher of one volume has got to. */
  datatype Phase =
    | Wanted(entry: PodListener)
    | Missing(entry: PodListener)
    | Found(entry: PodListener, read: Json)
    | Published(entry: PodListener)
    | Failed

  datatype World = World(doc: Option<Json>, phases: map<string, Phase>)

  /** The steps of any number of publishers; `acked` is false when an error comes back although the server acted. */
  datatype Action =
    | Begin(volume: string, entry: PodListener)
    | Fetch(volume: string)
    | Create(volume: string, acked: bool)
    | Patch(volume: string, acked: bool)
    | Crash(volume: string)
    | Touch(path: seq<string>, value: Json)

  function At(w: World, v: string, phase: Phase): World {
    w.(phases := w.phases[v := phase])
  }

  /** A created object holds the creator's entry and no other. */
  ghost predicate Holds(doc: Json, v: string, entry: PodListener) {
    doc.Obj? && forall u :: Get(doc, Path(u)) == if u == v then Some(Encode(entry)) else None
  }

  /** The patch made by putting an entry into the object that was read. */
  function EntryPatch(read: Json, v: string, entry: PodListener): Json
    requires read.Obj?
  {
    Diff(read, MergePatch.Set(read, Path(v), Encode(entry)))
  }

  ghost predicate Next(w: World, a: Action, w': World) {
    match a
    case Begin(v, entry) =>
      && (v in w.phases ==> w.phases[v].Published? || w.phases[v].Failed?)
      && w' == At(w, v, Wanted(entry))
    case Fetch(v) =>
      && v in w.phases && w.phases[v].Wanted?
      && w' == At(w, v, if w.doc.None? then Missing(w.phases[v].entry) else Found(w.phases[v].entry, w.doc.value))
    case Create(v, acked) =>
      && v in w.phases && w.phases[v].Missing?
      && if w.doc.Some? then w' == At(w, v, Failed)
         else && w'.doc.Some? && Holds(w'.doc.value, v, w.phases[v].entry)
              && w' == At(w, v, if acked then Published(w.phases[v].entry) else Failed).(doc := w'.doc)
    case Patch(v, acked) =>
      && v in w.phases && w.phases[v].Found? && w.phases[v].read.Obj?
      && if w.doc.None? then w' == At(w, v, Failed)
         else
           var Found(entry, read) := w.phases[v];
           w' == At(w, v, if acked then Published(entry) else Failed)
                 .(doc := Some(Apply(w.doc.value, EntryPatch(read, v, entry))))
    case Crash(v) =>
      v in w.phases && w' == At(w, v, Failed)
    case Touch(path, value) =>
      // Anything outside the spec, such as metadata the server or others maintain.
      && path != [] && path[0] != "spec" && w.doc.Some?
      && w' == w.(doc := Some(MergePatch.Set(w.doc.value, path, value)))
  }

  ghost predicate Entered(w: World, v: string, entry: PodListener) {
    w.doc.Some? && Get(w.doc.value, Path(v)) == Some(Encode(entry))
  }

  ghost predicate Inv(w: World) {
    && (w.doc.Some? ==> w.doc.value.Obj?)
    && (forall v :: v in w.phases && w.phases[v].Published? ==> Entered(w, v, w.phases[v].entry))
    && (forall v :: v in w.phases && w.phases[v].Found? ==>
          && w.doc.Some? && w.phases[v].read.Obj?
          && Get(w.phases[v].read, Path(v)) == Get(w.doc.value, Path(v)))
  }

  // ---------------------------------------------------------------- reading an entry

  /** What a client finds in one item of the list of ingresses. */
  ghost predicate ReadsIngress(item: Json, a: IngressAddress) {
    && Get(item, ["address"]) == Some(Str(a.address))
    && (a.addressType.IP? ==> Get(item, ["addressType"]) == Some(Str("IP")))
    && (a.addressType.Hostname? ==> Get(item, ["addressType"]) == Some(Str("Hostname")))
    && (forall n :: Get(item, ["ports", n]) == if n in a.ports then Some(Num(a.ports[n])) else None)
  }

  ghost predicate ReadsIngresses(list: Option<Json>, ingresses: seq<IngressAddress>) {
    && list.Some? && list.value.Arr? && |list.value.items| == |ingresses|
    && forall i :: 0 <= i < |ingresses| ==> ReadsIngress(list.value.items[i], ingresses[i])
  }

  /** What a client finds in the object for a volume, by the names in the schema. */
  ghost predicate Reads(doc: Json, v: string, e: PodListener) {
    && Get(doc, ["spec", "listeners", v, "scope"]) == Some(Str(if e.scope.NodeScope? then "Node" else "Cluster"))
    && ReadsIngresses(Get(doc, ["spec", "listeners", v, "listenerIngresses"]), e.ingresses)
  }

  lemma IngressReadsBack(a: IngressAddress)
    ensures ReadsIngress(EncodeIngress(a), a)
  {
    var item := EncodeIngress(a);
    GetUnder(item, "address", []);
    GetUnder(item, "addressType", []);
    forall n
      ensures Get(item, ["ports", n]) == if n in a.ports then Some(Num(a.ports[n])) else None
    {
      assert ["ports"] + [n] == ["ports", n] && [n] + [] == [n];
      GetUnder(item, "ports", [n]);
      GetUnder(item.fields["ports"], n, []);
    }
  }

  /** An entry in the object has its scope, its addresses in order, their types and their ports, and no other port. */
  lemma EntryReadsBack(doc: Json, v: string, e: PodListener)
    requires Get(doc, Path(v)) == Some(Encode(e))
    ensures Reads(doc, v, e)
  {
    var entry := Encode(e);
    assert Path(v) + ["scope"] == ["spec", "listeners", v, "scope"];
    assert Path(v) + ["listenerIngresses"] == ["spec", "listeners", v, "listenerIngresses"];
    GetFurther(doc, Path(v), ["scope"]);
    GetFurther(doc, Path(v), ["listenerIngresses"]);
    GetUnder(entry, "scope", []);
    GetUnder(entry, "listenerIngresses", []);
    forall i | 0 <= i < |e.ingresses|
      ensures ReadsIngress(EncodeIngress(e.ingresses[i]), e.ingresses[i])
    {
      IngressReadsBack(e.ingresses[i]);
    }
  }

  predicate PlainTypes(e: PodListener) {
    forall a :: a in e.ingresses ==> a.addressType.IP? || a.addressType.Hostname?
  }

  lemma IngressesTellApart(list: Option<Json>, es: seq<IngressAddress>, es': seq<IngressAddress>, i: nat)
    requires ReadsIngresses(list, es) && ReadsIngresses(list, es') && i < |es| == |es'|
    requires (es[i].addressType.IP? || es[i].addressType.Hostname?) && (es'[i].addressType.IP? || es'[i].addressType.Hostname?)
    ensures es[i] == es'[i]
  {
    var item, a, a' := list.value.items[i], es[i], es'[i];
    assert ReadsIngress(item, a) && ReadsIngress(item, a');
    forall n
      ensures n in a.ports <==> n in a'.ports
      ensures n in a.ports ==> a.ports[n] == a'.ports[n]
    {
      assert Get(item, ["ports", n]) == if n in a.ports then Some(Num(a.ports[n])) else None;
    }
    assert a.ports == a'.ports;
  }

  /** No two entries look the same to a client. */
  lemma EntriesTellApart(doc: Json, v: string, e: PodListener, e': PodListener)
    requires Reads(doc, v, e) && Reads(doc, v, e') && PlainTypes(e) && PlainTypes(e')
    ensures e == e'
  {
    var list := Get(doc, ["spec", "listeners", v, "listenerIngresses"]);
    forall i | 0 <= i < |e.ingresses|
      ensures e.ingresses[i] == e'.ingresses[i]
    {
      assert e.ingresses[i] in e.ingresses && e'.ingresses[i] in e'.ingresses;
      IngressesTellApart(list, e.ingresses, e'.ingresses, i);
    }
    assert "Node" != "Cluster";
  }

  // ---------------------------------------------------------------- what every step keeps

  lemma EncodedIsNullFree(e: PodListener)
    ensures !Encode(e).Null? && NullFree(Encode(e))
  {
  }

  /** A patch writes its own entry and keeps every other, however stale the read behind it. */
  lemma PatchKeepsOthers(w: World, a: Action, w': World)
    requires Inv(w) && Next(w, a, w') && a.Patch?
    ensures w'.doc.Some? && w'.doc.value.Obj?
    ensures Get(w'.doc.value, Path(a.volume)) == Some(Encode(w.phases[a.volume].entry))
    ensures Reads(w'.doc.value, a.volume, w.phases[a.volume].entry)
    ensures forall u :: u != a.volume ==> Get(w'.doc.value, Path(u)) == Get(w.doc.value, Path(u))
  {
    var Found(entry, read) := w.phases[a.volume];
    EncodedIsNullFree(entry);
    StalePatchIsExact(read, w.doc.value, Path(a.volume), Encode(entry));
    SetThenGet(w.doc.value, Path(a.volume), Encode(entry));
    EntryReadsBack(w'.doc.value, a.volume, entry);
    forall u | u != a.volume
      ensures Get(w'.doc.value, Path(u)) == Get(w.doc.value, Path(u))
    {
      PathsDiverge(a.volume, u);
    }
  }

  lemma TouchKeepsAll(w: World, a: Action, w': World)
    requires Inv(w) && Next(w, a, w') && a.Touch?
    ensures w'.doc.value.Obj?
    ensures forall u :: Get(w'.doc.value, Path(u)) == Get(w.doc.value, Path(u))
  {
  }

  lemma NextKeeps(w: World, a: Action, w': World)
    requires Inv(w) && Next(w, a, w')
    ensures Inv(w')
  {
    match a
    case Patch(_, _) => PatchKeepsOthers(w, a, w');
    case Touch(_, _) => TouchKeepsAll(w, a, w');
    case _ =>
  }

  /** A publisher only moves itself. */
  lemma OthersStayPut(w: World, a: Action, w': World, v: string)
    requires Next(w, a, w') && (a.Touch? || a.volume != v)
    ensures v in w'.phases <==> v in w.phases
    ensures v in w.phases ==> w'.phases[v] == w.phases[v]
  {
  }

  // ---------------------------------------------------------------- whole runs

  predicate Init(w: World) {
    w.phases == map[] && (w.doc.Some? ==> w.doc.value.Obj?)
  }

  ghost predicate IsRun(worlds: seq<World>, actions: seq<Action>) {
    && |worlds| == |actions| + 1
    && (actions == [] ==> Init(worlds[0]))
    && (actions != [] ==>
          && IsRun(worlds[..|actions|], actions[..|actions| - 1])
          && Next(worlds[|actions| - 1], actions[|actions| - 1], worlds[|actions|]))
  }

  lemma {:induction false} RunKeepsInv(worlds: seq<World>, actions: seq<Action>)
    requires IsRun(worlds, actions)
    ensures Inv(worlds[|actions|])
  {
    if actions != [] {
      RunKeepsInv(worlds[..|actions|], actions[..|actions| - 1]);
      NextKeeps(worlds[|actions| - 1], actions[|actions| - 1], worlds[|actions|]);
    }
  }

  /** No update is lost: over any interleaving, every volume whose publish succeeded still has its entry. */
  lemma NoLostUpdate(worlds: seq<World>, actions: seq<Action>, v: string)
    requires IsRun(worlds, actions)
    requires v in worlds[|actions|].phases && worlds[|actions|].phases[v].Published?
    ensures Entered(worlds[|actions|], v, worlds[|actions|].phases[v].entry)
    ensures Reads(worlds[|actions|].doc.value, v, worlds[|actions|].phases[v].entry)
  {
    RunKeepsInv(worlds, actions);
    EntryReadsBack(worlds[|actions|].doc.value, v, worlds[|actions|].phases[v].entry);
  }

  /** Of the publishers that found nothing, one creates; the others fail and change nothing. */
  lemma CreateRace(w: World, v: string, u: string, w1: World, w2: World)
    requires v != u && v in w.phases && u in w.phases && w.phases[v].Missing? && w.phases[u].Missing? && w.doc.None?
    requires Next(w, Create(v, true), w1) && Next(w1, Create(u, true), w2)
    ensures w2.phases[v].Published? && w2.phases[u].Failed?
    ensures w2.doc == w1.doc && Entered(w2, v, w.phases[v].entry)
  {
  }

  /** Patches for two volumes give the same object in either order, whatever each publisher has read. */
  lemma EntryPatchesCommute(doc: Json, readV: Json, v: string, entryV: PodListener,
                            readU: Json, u: string, entryU: PodListener)
    requires v != u && readV.Obj? && readU.Obj?
    ensures var p, q := EntryPatch(readV, v, entryV), EntryPatch(readU, u, entryU);
            Apply(Apply(doc, p), q) == Apply(Apply(doc, q), p)
  {
    PathsDiverge(v, u);
    DivergentPatchesCommute(doc, readV, Path(v), Encode(entryV), readU, Path(u), Encode(entryU));
  }

  /**
   * What the protocol relies on: one publisher per volume at a time. A publisher that read its own entry, and wants
   * it unchanged, sends an empty patch; if another has replaced the entry meanwhile, that replacement stays.
   */
  lemma OwnEntryMustNotBeStale(read: Json, now: Json, v: string, entry: PodListener)
    requires read.Obj? && now.Obj? && Get(read, Path(v)) == Some(Encode(entry))
    ensures Apply(now, EntryPatch(read, v, entry)) == now
  {
    SetSame(read, Path(v), Encode(entry));
    DiffIsEmpty(read, read);
    assert Apply(now, Obj(map[])).fields == now.fields;
  }
}
