/** After an unpublish: the target path is gone, and the volume can be published again. */
module Unpublish {
  import opened Kube
  import L = Selector
  import M = MergePatch
  import P = PodListeners
  import opened VolumeTree
  import opened Publish

  /** Everything but what is under the target path. */
  predicate Cleared(before: Tree, target: Path, after: Tree) {
    && (forall p :: p in after ==> p in before && after[p] == before[p] && !(target <= p))
    && (forall p :: p in before && !(target <= p) ==> p in after)
  }

  lemma StepKeepsCleared(v: VolumeRequest, before: Tree, w: World, a: Action, w': World)
    requires Next(v, w, a, w') && Cleared(before, v.target, w.tree) && !w.phase.Mounted? && !a.Mount?
    ensures Cleared(before, v.target, w'.tree) && !w'.phase.Mounted?
  {
  }

  /** An unpublish that succeeded has removed the target path and nothing else, and so it stays until the next mount. */
  lemma {:induction false} UnpublishRemoves(v: VolumeRequest, worlds: seq<World>, actions: seq<Action>, start: nat)
    requires IsRun(v, worlds, actions) && start < |actions| && actions[start] == Action.Unpublish(true)
    requires forall i :: start < i < |actions| ==> !actions[i].Mount?
    ensures Cleared(worlds[start].tree, v.target, worlds[|actions|].tree) && !worlds[|actions|].phase.Mounted?
    ensures v.target !in worlds[|actions|].tree
    decreases |actions|
  {
    if start < |actions| - 1 {
      UnpublishRemoves(v, worlds[..|actions|], actions[..|actions| - 1], start);
      StepKeepsCleared(v, worlds[start].tree, worlds[|actions| - 1], actions[|actions| - 1], worlds[|actions|]);
    }
  }

  lemma ShownHasParents(t: Tree, target: Path, c: Content, link: string)
    requires Shows(t, target, c, link)
    ensures forall i :: 0 <= i < |target| ==> target[..i] in t && t[target[..i]].Dir?
  {
    var base :| IsVolume(base, t, target, c, Some(link));
    forall i | 0 <= i < |target|
      ensures target[..i] in t && t[target[..i]].Dir?
    {
      assert KeptAt(base, t, target, target[..i]);
      assert !(target <= target[..i]);
    }
  }

  /** Where a volume was published, its parent directories are left, so a mount finds room. */
  lemma UnpublishMakesRoom(v: VolumeRequest, worlds: seq<World>, actions: seq<Action>, start: nat)
    requires Valid(v) && IsRun(v, worlds, actions) && start < |actions| && actions[start] == Action.Unpublish(true)
    requires worlds[start].phase.Done? && Tidy(worlds[start].phase.snapshot.data)
    requires forall i :: start < i < |actions| ==> !actions[i].Mount?
    ensures v.target !in worlds[|actions|].tree && MkdirAll(worlds[|actions|].tree, v.target).Ok?
  {
    RunPrefix(v, worlds, actions, start);
    RunKeepsInv(v, worlds[..start + 1], actions[..start]);
    UnpublishRemoves(v, worlds, actions, start);
    var data := worlds[start].phase.snapshot.data;
    ShownHasParents(worlds[start].tree, v.target, Merged(data), DefaultLink(data[|data| - 1].address));
    assert v.target[..|v.target|] == v.target;
  }

  // ---------------------------------------------------------------- publishing again

  /** What an attempt needs to find: pod, listener, addresses, the volume's name, and room at the target path. */
  predicate Ready(v: VolumeRequest, w: World) {
    && v.pod.name in w.labels.pods && NameInPod(v).Some?
    && (v.listenerName.Some? || PodPorts(v.pod.containers) != [])
    && ListenerKey(v) in w.listeners && Addresses(w.listeners[ListenerKey(v)].status, OwnAddress(w.node)).Ok?
    && v.target !in w.tree && MkdirAll(w.tree, v.target).Ok?
  }

  lemma Extend(v: VolumeRequest, worlds: seq<World>, actions: seq<Action>, a: Action, w': World)
    requires IsRun(v, worlds, actions) && Next(v, worlds[|actions|], a, w')
    ensures IsRun(v, worlds + [w'], actions + [a])
  {
    assert (worlds + [w'])[..|actions| + 1] == worlds && (actions + [a])[..|actions|] == actions;
  }

  lemma CanFind(v: VolumeRequest, w: World) returns (w1: World, w2: World, w3: World)
    requires Resting(w.phase) && Ready(v, w)
    ensures Next(v, w, Action.Begin, w1) && Next(v, w1, GetPod, w2) && Next(v, w2, FindListener(true), w3)
    ensures w3.phase.GotListener? && Ready(v, w3)
  {
    w1 := w.(phase := Started);
    w2 := w.(labels := w.labels.(attempts := w.labels.attempts[OWN_ATTEMPT := L.Attempt(v.pod.name, w.labels.pods[v.pod.name])]),
             phase := GotPod);
    w3 := w2.(phase := GotListener(w.listeners[ListenerKey(v)].decl));
  }

  /** The attempt has read the pod, and may patch it for its listener. */
  predicate MayLabel(v: VolumeRequest, w: World) {
    && w.phase.GotListener? && w.phase.listener in v.known && OWN_ATTEMPT in w.labels.attempts
    && w.labels.attempts[OWN_ATTEMPT].pod == v.pod.name && w.labels.attempts[OWN_ATTEMPT].read.Obj?
  }

  lemma RunMayLabel(v: VolumeRequest, worlds: seq<World>, actions: seq<Action>)
    requires Valid(v) && IsRun(v, worlds, actions) && worlds[|actions|].phase.GotListener?
    ensures MayLabel(v, worlds[|actions|])
  {
    RunKeepsInv(v, worlds, actions);
  }

  lemma CanResolve(v: VolumeRequest, w: World) returns (w1: World, w2: World, w3: World)
    requires MayLabel(v, w) && Ready(v, w)
    ensures Next(v, w, Label(true), w1) && Next(v, w1, TakeSnapshot, w2) && Next(v, w2, ReadNode, w3)
    ensures w3.phase.Resolved? && Ready(v, w3)
  {
    var pod, read := v.pod.name, w.labels.attempts[OWN_ATTEMPT].read;
    var l := w.phase.listener;
    var patched := M.Apply(w.labels.pods[pod], M.Diff(read, L.Labelled(read, l)));
    w1 := w.(labels := w.labels.(pods := w.labels.pods[pod := patched], patched := w.labels.patched + {(pod, l.uid)}),
             phase := Labelled(l));
    var status := w.listeners[ListenerKey(v)].status;
    w2 := w1.(phase := GotStatus(l, status));
    w3 := w2.(phase := Resolved(Snapshot(l, status, OwnAddress(w.node), Addresses(status, OwnAddress(w.node)).value)));
  }

  /** An object with one entry, acts a creator sends it. */
  lemma CreatedHolds(v: string, entry: P.PodListener)
    ensures P.Holds(M.Set(M.Obj(map[]), P.Path(v), P.Encode(entry)), v, entry)
  {
    var doc := M.Set(M.Obj(map[]), P.Path(v), P.Encode(entry));
    forall u
      ensures M.Get(doc, P.Path(u)) == if u == v then Some(P.Encode(entry)) else None
    {
      if u == v {
        M.SetThenGet(M.Obj(map[]), P.Path(v), P.Encode(entry));
      } else {
        P.PathsDiverge(v, u);
        M.SetElsewhere(M.Obj(map[]), P.Path(v), P.Encode(entry), P.Path(u));
      }
    }
  }

  /** The publisher of this volume has read the shared object, or found none. */
  predicate Looked(v: VolumeRequest, w: World) {
    && w.phase.Entering? && NameInPod(v).Some? && NameInPod(v).value in w.shared.phases
    && w.shared.phases[NameInPod(v).value] ==
       if w.shared.doc.None? then P.Missing(EntryOf(w.phase.snapshot)) else P.Found(EntryOf(w.phase.snapshot), w.shared.doc.value)
  }

  /** The publisher of this volume is not in the middle of an entry, and the shared object is one. */
  predicate MayEnter(v: VolumeRequest, w: World) {
    && (w.shared.doc.Some? ==> w.shared.doc.value.Obj?)
    && (NameInPod(v).Some? && NameInPod(v).value in w.shared.phases && w.phase.Resolved? ==>
          var own := w.shared.phases[NameInPod(v).value];
          own.Published? || own.Failed?)
  }

  lemma RunMayEnter(v: VolumeRequest, worlds: seq<World>, actions: seq<Action>)
    requires Valid(v) && IsRun(v, worlds, actions)
    ensures MayEnter(v, worlds[|actions|])
  {
    RunKeepsInv(v, worlds, actions);
  }

  lemma CanLook(v: VolumeRequest, w: World) returns (w1: World, w2: World)
    requires w.phase.Resolved? && Ready(v, w) && MayEnter(v, w)
    ensures Next(v, w, StartEntry, w1) && Next(v, w1, EnterStep(P.Fetch(NameInPod(v).value)), w2)
    ensures Looked(v, w2) && Ready(v, w2)
  {
    var name, entry := NameInPod(v).value, EntryOf(w.phase.snapshot);
    w1 := w.(shared := P.At(w.shared, name, P.Wanted(entry)), phase := Entering(w.phase.snapshot));
    var looked := if w.shared.doc.None? then P.Missing(entry) else P.Found(entry, w.shared.doc.value);
    w2 := w1.(shared := P.At(w1.shared, name, looked));
  }

  lemma CanEnter(v: VolumeRequest, w: World) returns (last: P.Action, w': World)
    requires Looked(v, w) && Ready(v, w) && MayEnter(v, w)
    ensures Next(v, w, EnterStep(last), w') && w'.phase.Entered? && Ready(v, w')
  {
    var name, entry := NameInPod(v).value, EntryOf(w.phase.snapshot);
    var doc: M.Json;
    if w.shared.doc.None? {
      CreatedHolds(name, entry);
      last, doc := P.Create(name, true), M.Set(M.Obj(map[]), P.Path(name), P.Encode(entry));
    } else {
      last, doc := P.Patch(name, true), M.Apply(w.shared.doc.value, P.EntryPatch(w.shared.doc.value, name, entry));
    }
    w' := w.(shared := P.At(w.shared, name, P.Published(entry)).(doc := Some(doc)), phase := Entered(w.phase.snapshot));
  }

  lemma CanMount(v: VolumeRequest, w: World) returns (w': World)
    requires w.phase.Entered? && Ready(v, w)
    ensures Next(v, w, Mount(true), w') && w'.phase.Mounted?
  {
    w' := w.(tree := MkdirAll(w.tree, v.target).value, phase := Mounted(w.phase.snapshot));
  }

  /** A run that goes on from the given one. */
  ghost predicate Continues(v: VolumeRequest, worlds: seq<World>, actions: seq<Action>, ws: seq<World>, acts: seq<Action>) {
    IsRun(v, ws, acts) && worlds <= ws && actions <= acts
  }

  lemma ReachListener(v: VolumeRequest, worlds: seq<World>, actions: seq<Action>) returns (ws: seq<World>, acts: seq<Action>)
    requires IsRun(v, worlds, actions) && Resting(worlds[|actions|].phase) && Ready(v, worlds[|actions|])
    ensures Continues(v, worlds, actions, ws, acts) && ws[|acts|].phase.GotListener? && Ready(v, ws[|acts|])
  {
    var w1, w2, w3 := CanFind(v, worlds[|actions|]);
    Extend(v, worlds, actions, Action.Begin, w1);
    Extend(v, worlds + [w1], actions + [Action.Begin], GetPod, w2);
    Extend(v, worlds + [w1] + [w2], actions + [Action.Begin] + [GetPod], FindListener(true), w3);
    ws, acts := worlds + [w1] + [w2] + [w3], actions + [Action.Begin] + [GetPod] + [FindListener(true)];
  }

  lemma ReachData(v: VolumeRequest, worlds: seq<World>, actions: seq<Action>) returns (ws: seq<World>, acts: seq<Action>)
    requires Valid(v) && IsRun(v, worlds, actions) && worlds[|actions|].phase.GotListener? && Ready(v, worlds[|actions|])
    ensures Continues(v, worlds, actions, ws, acts) && ws[|acts|].phase.Resolved? && Ready(v, ws[|acts|])
  {
    RunMayLabel(v, worlds, actions);
    var w1, w2, w3 := CanResolve(v, worlds[|actions|]);
    Extend(v, worlds, actions, Label(true), w1);
    Extend(v, worlds + [w1], actions + [Label(true)], TakeSnapshot, w2);
    Extend(v, worlds + [w1] + [w2], actions + [Label(true)] + [TakeSnapshot], ReadNode, w3);
    ws, acts := worlds + [w1] + [w2] + [w3], actions + [Label(true)] + [TakeSnapshot] + [ReadNode];
  }

  lemma ReachLook(v: VolumeRequest, worlds: seq<World>, actions: seq<Action>) returns (ws: seq<World>, acts: seq<Action>)
    requires Valid(v) && IsRun(v, worlds, actions) && worlds[|actions|].phase.Resolved? && Ready(v, worlds[|actions|])
    ensures Continues(v, worlds, actions, ws, acts) && Looked(v, ws[|acts|]) && Ready(v, ws[|acts|])
  {
    RunMayEnter(v, worlds, actions);
    var w1, w2 := CanLook(v, worlds[|actions|]);
    var fetch := EnterStep(P.Fetch(NameInPod(v).value));
    Extend(v, worlds, actions, StartEntry, w1);
    Extend(v, worlds + [w1], actions + [StartEntry], fetch, w2);
    ws, acts := worlds + [w1] + [w2], actions + [StartEntry] + [fetch];
  }

  lemma ReachMount(v: VolumeRequest, worlds: seq<World>, actions: seq<Action>) returns (ws: seq<World>, acts: seq<Action>)
    requires Valid(v) && IsRun(v, worlds, actions) && Looked(v, worlds[|actions|]) && Ready(v, worlds[|actions|])
    ensures Continues(v, worlds, actions, ws, acts) && ws[|acts|].phase.Mounted?
  {
    RunMayEnter(v, worlds, actions);
    var last, w1 := CanEnter(v, worlds[|actions|]);
    var w2 := CanMount(v, w1);
    Extend(v, worlds, actions, EnterStep(last), w1);
    Extend(v, worlds + [w1], actions + [EnterStep(last)], Mount(true), w2);
    ws, acts := worlds + [w1] + [w2], actions + [EnterStep(last)] + [Mount(true)];
  }

  lemma ReachSnapshot(v: VolumeRequest, worlds: seq<World>, actions: seq<Action>) returns (ws: seq<World>, acts: seq<Action>)
    requires Valid(v) && IsRun(v, worlds, actions) && Resting(worlds[|actions|].phase) && Ready(v, worlds[|actions|])
    ensures Continues(v, worlds, actions, ws, acts) && ws[|acts|].phase.Resolved? && Ready(v, ws[|acts|])
  {
    ws, acts := ReachListener(v, worlds, actions);
    ws, acts := ReachData(v, ws, acts);
  }

  lemma ReachEntry(v: VolumeRequest, worlds: seq<World>, actions: seq<Action>) returns (ws: seq<World>, acts: seq<Action>)
    requires Valid(v) && IsRun(v, worlds, actions) && worlds[|actions|].phase.Resolved? && Ready(v, worlds[|actions|])
    ensures Continues(v, worlds, actions, ws, acts) && ws[|acts|].phase.Mounted?
  {
    ws, acts := ReachLook(v, worlds, actions);
    ws, acts := ReachMount(v, ws, acts);
  }

  /** From any state in which the volume's publisher rests and an attempt finds what it needs, it can come to its mount. */
  lemma PublishCanMount(v: VolumeRequest, worlds: seq<World>, actions: seq<Action>) returns (ws: seq<World>, acts: seq<Action>)
    requires Valid(v) && IsRun(v, worlds, actions) && Resting(worlds[|actions|].phase) && Ready(v, worlds[|actions|])
    ensures Continues(v, worlds, actions, ws, acts) && ws[|acts|].phase.Mounted?
  {
    ws, acts := ReachSnapshot(v, worlds, actions);
    ws, acts := ReachEntry(v, ws, acts);
  }
}
