/** Pod labels and Service selectors: which pods a listener's Service reaches. */
module Selector {
  import opened Kube
  import opened ServiceMerge
  import opened MergePatch

  // ---------------------------------------------------------------- mount keys

  /** The text form of section 4 of RFC 9562: 8-4-4-4-12 characters with dashes between. */
  predicate CanonicalUuid(u: string) {
    && |u| == 36
    && forall i :: 0 <= i < 36 ==> (u[i] == '-' <==> i == 8 || i == 13 || i == 18 || i == 23)
  }

  lemma {:induction false} StripConcat(a: string, b: string)
    ensures StripDashes(a + b) == StripDashes(a) + StripDashes(b)
  {
    if a == "" {
      assert a + b == b;
    } else {
      assert (a + b)[1..] == a[1..] + b;
      StripConcat(a[1..], b);
    }
  }

  lemma {:induction false} StripNothing(a: string)
    requires '-' !in a
    ensures StripDashes(a) == a
  {
    if a != "" {
      StripNothing(a[1..]);
    }
  }

  lemma StripDash(rest: string)
    ensures StripDashes("-" + rest) == StripDashes(rest)
  {
    assert ("-" + rest)[1..] == rest;
  }

  /** A group of text followed by a dash. */
  lemma StripGroup(group: string, rest: string)
    requires '-' !in group
    ensures StripDashes(group + "-" + rest) == group + StripDashes(rest)
  {
    assert group + "-" + rest == group + ("-" + rest);
    StripConcat(group, "-" + rest);
    StripNothing(group);
    StripDash(rest);
  }

  lemma StripCanonical(u: string)
    requires CanonicalUuid(u)
    ensures StripDashes(u) == u[..8] + (u[9..13] + (u[14..18] + (u[19..23] + u[24..])))
  {
    assert u == u[..8] + "-" + u[9..];
    StripGroup(u[..8], u[9..]);
    assert u[9..] == u[9..13] + "-" + u[14..];
    StripGroup(u[9..13], u[14..]);
    assert u[14..] == u[14..18] + "-" + u[19..];
    StripGroup(u[14..18], u[19..]);
    assert u[19..] == u[19..23] + "-" + u[24..];
    StripGroup(u[19..23], u[24..]);
    StripNothing(u[24..]);
  }

  /** The mount key spelt out: a fixed prefix and the 32 characters of the identifier. */
  lemma MountKeyText(u: string)
    requires CanonicalUuid(u)
    ensures MountKey(u) == "listeners.kubedoop.dev/mnt." + (u[..8] + (u[9..13] + (u[14..18] + (u[19..23] + u[24..]))))
  {
    StripCanonical(u);
  }

  /** Position `i` of a canonical identifier, found again after the dashes are gone. */
  lemma StrippedAt(u: string, i: nat)
    requires CanonicalUuid(u) && i < 36 && i != 8 && i != 13 && i != 18 && i != 23
    ensures var dashes := if i < 8 then 0 else if i < 13 then 1 else if i < 18 then 2 else if i < 23 then 3 else 4;
            |StripDashes(u)| == 32 && StripDashes(u)[i - dashes] == u[i]
  {
    StripCanonical(u);
  }

  /** Two listeners never share a mount key. */
  lemma MountKeyInjective(u: string, v: string)
    requires CanonicalUuid(u) && CanonicalUuid(v) && MountKey(u) == MountKey(v)
    ensures u == v
  {
    assert StripDashes(u) == MountKey(u)[|MOUNT_PREFIX|..];
    assert StripDashes(v) == MountKey(v)[|MOUNT_PREFIX|..];
    forall i | 0 <= i < 36
      ensures u[i] == v[i]
    {
      if i != 8 && i != 13 && i != 18 && i != 23 {
        StrippedAt(u, i);
        StrippedAt(v, i);
      }
    }
  }

  // ---------------------------------------------------------------- label patches

  function LabelPath(key: string): seq<string> {
    ["metadata", "labels", key]
  }

  lemma LabelPathsDiverge(k: string, m: string)
    requires k != m
    ensures Diverge(LabelPath(k), LabelPath(m))
  {
  }

  predicate HasLabel(pod: Json, key: string, value: string) {
    Get(pod, ["metadata", "labels", key]) == Some(Str(value))
  }

  predicate Selects(selector: Labels, pod: Json) {
    forall k :: k in selector ==> HasLabel(pod, k, selector[k])
  }

  /** The pod that `patchPodLabelsWithListener` sends: its read with the listener's mount label. */
  function Labelled(read: Json, l: ListenerDecl): Json {
    MergePatch.Set(read, LabelPath(MountKey(l.uid)), Str(l.key.name))
  }

  /** A publish attempt that has read a pod and will patch it. */
  datatype Attempt = Attempt(pod: string, read: Json)

  /** `patched` remembers which pods were patched for which listeners. */
  datatype World = World(pods: map<string, Json>, attempts: map<nat, Attempt>, patched: set<(string, string)>)

  datatype Action =
    | ReadPod(id: nat, pod: string)
    | PatchPod(id: nat, listener: ListenerDecl)
    | Relabel(pod: string, changed: Json)

  ghost predicate IsMountKey(key: string) {
    exists uid :: CanonicalUuid(uid) && key == MountKey(uid)
  }

  /** The listeners there are: canonical identifiers, each for one listener. */
  predicate ValidListeners(ls: set<ListenerDecl>) {
    && (forall l :: l in ls ==> CanonicalUuid(l.uid))
    && (forall l, m :: l in ls && m in ls && l.uid == m.uid ==> l.key == m.key)
  }

  ghost predicate Next(ls: set<ListenerDecl>, w: World, a: Action, w': World) {
    match a
    case ReadPod(id, pod) =>
      && pod in w.pods
      && w' == w.(attempts := w.attempts[id := Attempt(pod, w.pods[pod])])
    case PatchPod(id, l) =>
      && id in w.attempts && l in ls
      && var Attempt(pod, read) := w.attempts[id];
      && pod in w.pods && read.Obj?
      && w' == w.(pods := w.pods[pod := Apply(w.pods[pod], Diff(read, Labelled(read, l)))],
                  patched := w.patched + {(pod, l.uid)})
    case Relabel(pod, changed) =>
      // Others may change a pod in any way, apart from its mount labels.
      && pod in w.pods && changed.Obj?
      && (forall key :: IsMountKey(key) ==> Get(changed, LabelPath(key)) == Get(w.pods[pod], LabelPath(key)))
      && w' == w.(pods := w.pods[pod := changed])
  }

  ghost predicate Init(w: World) {
    && w.attempts == map[] && w.patched == {}
    && forall p :: p in w.pods ==>
         w.pods[p].Obj? && forall key :: IsMountKey(key) ==> Get(w.pods[p], LabelPath(key)) == None
  }

  ghost predicate Inv(ls: set<ListenerDecl>, w: World) {
    && (forall p :: p in w.pods ==> w.pods[p].Obj?)
    && (forall p, l :: p in w.pods && l in ls ==>
          Get(w.pods[p], LabelPath(MountKey(l.uid))) ==
          if (p, l.uid) in w.patched then Some(Str(l.key.name)) else None)
    && (forall id :: id in w.attempts ==>
          w.attempts[id].read.Obj? && StillThere(ls, w.attempts[id].read, w, w.attempts[id].pod))
  }

  /** A mount label that was read is still on the pod. */
  ghost predicate StillThere(ls: set<ListenerDecl>, read: Json, w: World, pod: string) {
    forall l :: l in ls && pod in w.pods && HasLabel(read, MountKey(l.uid), l.key.name) ==>
      HasLabel(w.pods[pod], MountKey(l.uid), l.key.name)
  }

  /** A label patch from a stale read adds its own label to the pod as it is now. */
  lemma PatchAddsOneLabel(ls: set<ListenerDecl>, w: World, a: Action, w': World)
    requires ValidListeners(ls) && Inv(ls, w) && Next(ls, w, a, w') && a.PatchPod?
    ensures w'.pods[w.attempts[a.id].pod] == Labelled(w.pods[w.attempts[a.id].pod], a.listener)
  {
    var Attempt(pod, read) := w.attempts[a.id];
    var l := a.listener;
    StalePatchIsExact(read, w.pods[pod], LabelPath(MountKey(l.uid)), Str(l.key.name));
  }

  /** Label patches of one pod for two listeners can be sent in either order, whatever each attempt has read. */
  lemma LabelPatchesCommute(pod: Json, read: Json, l: ListenerDecl, read': Json, l': ListenerDecl)
    requires read.Obj? && read'.Obj? && l.uid != l'.uid && CanonicalUuid(l.uid) && CanonicalUuid(l'.uid)
    ensures var p, q := Diff(read, Labelled(read, l)), Diff(read', Labelled(read', l'));
            Apply(Apply(pod, p), q) == Apply(Apply(pod, q), p)
  {
    if MountKey(l.uid) == MountKey(l'.uid) {
      MountKeyInjective(l.uid, l'.uid);
    }
    LabelPathsDiverge(MountKey(l.uid), MountKey(l'.uid));
    DivergentPatchesCommute(pod, read, LabelPath(MountKey(l.uid)), Str(l.key.name),
                            read', LabelPath(MountKey(l'.uid)), Str(l'.key.name));
  }

  lemma PatchKeeps(ls: set<ListenerDecl>, w: World, a: Action, w': World)
    requires ValidListeners(ls) && Inv(ls, w) && Next(ls, w, a, w') && a.PatchPod?
    ensures Inv(ls, w')
  {
    var Attempt(pod, read) := w.attempts[a.id];
    var l := a.listener;
    PatchAddsOneLabel(ls, w, a, w');
    forall m | m in ls
      ensures Get(w'.pods[pod], LabelPath(MountKey(m.uid))) ==
              if m.uid == l.uid then Some(Str(l.key.name)) else Get(w.pods[pod], LabelPath(MountKey(m.uid)))
    {
      if m.uid == l.uid {
        SetThenGet(w.pods[pod], LabelPath(MountKey(l.uid)), Str(l.key.name));
      } else {
        if MountKey(m.uid) == MountKey(l.uid) {
          MountKeyInjective(m.uid, l.uid);
        }
        LabelPathsDiverge(MountKey(l.uid), MountKey(m.uid));
        SetElsewhere(w.pods[pod], LabelPath(MountKey(l.uid)), Str(l.key.name), LabelPath(MountKey(m.uid)));
      }
    }
  }

  lemma NextKeeps(ls: set<ListenerDecl>, w: World, a: Action, w': World)
    requires ValidListeners(ls) && Inv(ls, w) && Next(ls, w, a, w')
    ensures Inv(ls, w')
  {
    if a.PatchPod? {
      PatchKeeps(ls, w, a, w');
    } else if a.Relabel? {
      forall l | l in ls
        ensures Get(a.changed, LabelPath(MountKey(l.uid))) == Get(w.pods[a.pod], LabelPath(MountKey(l.uid)))
      {
        assert IsMountKey(MountKey(l.uid));
      }
    }
  }

  lemma InitIsInv(ls: set<ListenerDecl>, w: World)
    requires ValidListeners(ls) && Init(w)
    ensures Inv(ls, w)
  {
    forall l | l in ls
      ensures IsMountKey(MountKey(l.uid))
    {
    }
  }

  /** No pod and no patch is lost, and an attempt keeps what it read. */
  lemma NextOnlyAdds(ls: set<ListenerDecl>, w: World, a: Action, w': World)
    requires Next(ls, w, a, w')
    ensures w'.pods.Keys == w.pods.Keys && w.patched <= w'.patched
    ensures forall id :: id in w.attempts && !(a.ReadPod? && a.id == id) ==>
              id in w'.attempts && w'.attempts[id] == w.attempts[id]
  {
  }

  ghost predicate IsRun(ls: set<ListenerDecl>, worlds: seq<World>, actions: seq<Action>) {
    && |worlds| == |actions| + 1
    && (actions == [] ==> Init(worlds[0]))
    && (actions != [] ==>
          && IsRun(ls, worlds[..|actions|], actions[..|actions| - 1])
          && Next(ls, worlds[|actions| - 1], actions[|actions| - 1], worlds[|actions|]))
  }

  lemma {:induction false} RunKeepsInv(ls: set<ListenerDecl>, worlds: seq<World>, actions: seq<Action>)
    requires ValidListeners(ls) && IsRun(ls, worlds, actions)
    ensures Inv(ls, worlds[|actions|])
  {
    if actions != [] {
      RunKeepsInv(ls, worlds[..|actions|], actions[..|actions| - 1]);
      NextKeeps(ls, worlds[|actions| - 1], actions[|actions| - 1], worlds[|actions|]);
    } else {
      InitIsInv(ls, worlds[0]);
    }
  }

  /**
   * A listener's Service selects a pod exactly when the pod was patched for that listener and carries the extra labels,
   * unless the extra labels override the listener's own mount key. In that case it selects none.
   */
  lemma SelectsExactly(ls: set<ListenerDecl>, w: World, l: ListenerDecl, pod: string)
    requires Inv(ls, w) && l in ls && pod in w.pods
    ensures var key, extra := MountKey(l.uid), l.spec.extraSelector;
            if key in extra && extra[key] != l.key.name then !Selects(SelectorLabels(l), w.pods[pod])
            else Selects(SelectorLabels(l), w.pods[pod]) <==> (pod, l.uid) in w.patched && Selects(extra, w.pods[pod])
  {
    var doc := w.pods[pod];
    var key, selector, extra := MountKey(l.uid), SelectorLabels(l), l.spec.extraSelector;
    assert key in selector;
    if key in extra && extra[key] != l.key.name {
      assert !HasLabel(doc, key, selector[key]);
    } else {
      assert selector[key] == l.key.name;
      assert forall k :: k in extra ==> k in selector && selector[k] == extra[k];
      assert forall k :: k in selector ==> k == key || k in extra;
    }
  }

  /** And so over any run of label patches, in every state. */
  lemma SelectorExactly(ls: set<ListenerDecl>, worlds: seq<World>, actions: seq<Action>, l: ListenerDecl, pod: string)
    requires ValidListeners(ls) && IsRun(ls, worlds, actions)
    requires l in ls && pod in worlds[|actions|].pods
    ensures var w := worlds[|actions|];
            var key, extra := MountKey(l.uid), l.spec.extraSelector;
            if key in extra && extra[key] != l.key.name then !Selects(SelectorLabels(l), w.pods[pod])
            else Selects(SelectorLabels(l), w.pods[pod]) <==> (pod, l.uid) in w.patched && Selects(extra, w.pods[pod])
  {
    RunKeepsInv(ls, worlds, actions);
    SelectsExactly(ls, worlds[|actions|], l, pod);
  }
}
