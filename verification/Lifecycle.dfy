/** What becomes of deleted listeners, and what the version check of the status write guards. */
module Lifecycle {
  import opened Kube
  import opened Reconcile
  import C = Convergence

  // ---------------------------------------------------------------- how a step of a reconcile ends

  /**
   * It moves on, ends because its listener is gone, is queued again, perhaps after a Service write, or ends with a
   * status write.
   */
  predicate Ends(w: World, own: Key, w': World)
    requires own in w.inFlight
  {
    || (own in w'.inFlight && w' == At(w, own, w'.inFlight[own]) &&
        (w'.inFlight[own].Fetched? ==>
           && w.inFlight[own].Built? && own in w.listeners
           && w'.inFlight[own] == Fetched(w.inFlight[own].decl, w.inFlight[own].status, w.listeners[own].version)))
    || (w.inFlight[own].Begin? && own !in w.listeners && w' == Done(w, own))
    || w' == Requeued(w, own).(services := w'.services)
    || (&& w.inFlight[own].Fetched? && own in w.listeners && w.listeners[own].version == w.inFlight[own].version
        && w' == Done(StatusWritten(w, own, w.inFlight[own].status), own))
  }

  lemma ComputeEnds(w: World, own: Key, decl: ListenerDecl, svc: Service, preferred: AddressType, w': World)
    requires Computes(w, own, decl, svc, preferred, w')
    ensures (own in w'.inFlight && w'.inFlight[own].Built? && w' == At(w, own, w'.inFlight[own])) || w' == Requeued(w, own)
  {
  }

  lemma ReadEnds(w: World, own: Key, w': World)
    requires own in w.inFlight && Advances(w, own, w')
    requires w.inFlight[own].Begin? || w.inFlight[own].GotListener? || w.inFlight[own].Serviced? || w.inFlight[own].Described?
    ensures Ends(w, own, w')
  {
  }

  lemma WriteEnds(w: World, own: Key, w': World)
    requires own in w.inFlight && Advances(w, own, w') && (w.inFlight[own].Built? || w.inFlight[own].Fetched?)
    ensures Ends(w, own, w')
  {
  }

  lemma AdvanceEnds(w: World, own: Key, w': World)
    requires own in w.inFlight && Advances(w, own, w')
    ensures Ends(w, own, w')
  {
    var stage := w.inFlight[own];
    if stage.GotClass? {
      ServiceStageEnds(w, own, stage.decl, stage.cls, w');
    } else if stage.Resolved? {
      ComputeEnds(w, own, stage.decl, stage.svc, stage.preferred, w');
    } else if stage.Built? || stage.Fetched? {
      WriteEnds(w, own, w');
    } else {
      ReadEnds(w, own, w');
    }
  }

  lemma EndKeepsOthers(w: World, own: Key, w': World, k: Key)
    requires own in w.inFlight && Ends(w, own, w') && k != own
    ensures (k in w'.inFlight <==> k in w.inFlight) && (k in w.inFlight ==> w'.inFlight[k] == w.inFlight[k])
    ensures (k in w'.listeners <==> k in w.listeners) && (k in w.listeners ==> w'.listeners[k] == w.listeners[k])
    ensures (k in w'.queue <==> k in w.queue) && (ListenerEvent(k) in w'.events <==> ListenerEvent(k) in w.events)
  {
    if own in w'.inFlight {
      assert w' == At(w, own, w'.inFlight[own]);
    } else if w' == Done(w, own) {
    } else if w' == Requeued(w, own).(services := w'.services) {
    } else {
      var status := w.inFlight[own].status;
      assert w' == Done(StatusWritten(w, own, status), own);
    }
  }

  /**
   * No failure is forgotten: in any run, a reconcile that ends leaves its key queued, unless its listener was gone when
   * it began or the status it computed is now the stored one.
   */
  lemma FailuresAreRetried(worlds: seq<World>, actions: seq<Action>, i: nat, k: Key)
    requires IsRun(worlds, actions) && i < |actions| && k in worlds[i].inFlight && k !in worlds[i + 1].inFlight
    ensures var stage, w' := worlds[i].inFlight[k], worlds[i + 1];
            || k in w'.queue
            || (stage.Begin? && k !in w'.listeners)
            || (stage.Fetched? && k in w'.listeners && w'.listeners[k].listener.status == stage.status)
  {
    RunStep(worlds, actions, i);
    if actions[i].Advance? {
      AdvanceEnds(worlds[i], actions[i].key, worlds[i + 1]);
      if actions[i].key != k {
        EndKeepsOthers(worlds[i], actions[i].key, worlds[i + 1], k);
      }
    }
  }

  // ---------------------------------------------------------------- deleted listeners

  /** The listener is gone and nothing is left to do for it. */
  predicate Gone(w: World, k: Key) {
    k !in w.listeners && ListenerEvent(k) !in w.events && k !in w.queue && k !in w.inFlight
  }

  /** A reconcile that finds no listener ends there: the key is not queued again and nothing else is touched. */
  lemma MissingListenerEnds(w: World, k: Key, w1: World, w2: World)
    requires k !in w.listeners && Next(w, Start(k), w1) && Next(w1, Advance(k), w2)
    ensures k !in w2.queue && k !in w2.inFlight && w2 == w.(queue := w2.queue)
    ensures ListenerEvent(k) !in w.events ==> Gone(w2, k)
  {
    assert w.inFlight[k := Begin] - {k} == w.inFlight;
  }

  lemma NextKeepsGone(w: World, a: Action, w': World, k: Key)
    requires Gone(w, k) && Next(w, a, w') && !(a.PutListener? && a.decl.key == k)
    ensures Gone(w', k)
  {
    if a.Advance? {
      AdvanceEnds(w, a.key, w');
      EndKeepsOthers(w, a.key, w', k);
    }
  }

  /** Once a deleted listener is done with, nothing brings it back to the queue until it is put again. */
  lemma {:induction false} GoneStaysGone(worlds: seq<World>, actions: seq<Action>, start: nat, k: Key)
    requires IsRun(worlds, actions) && start <= |actions| && Gone(worlds[start], k)
    requires forall i :: start <= i < |actions| ==> !(actions[i].PutListener? && actions[i].decl.key == k)
    ensures Gone(worlds[|actions|], k)
    decreases |actions|
  {
    if start < |actions| {
      GoneStaysGone(worlds[..|actions|], actions[..|actions| - 1], start, k);
      NextKeepsGone(worlds[|actions| - 1], actions[|actions| - 1], worlds[|actions|], k);
    }
  }

  // ---------------------------------------------------------------- the version check

  predicate ClockInv(w: World, k: Key) {
    && (k in w.listeners ==> w.listeners[k].version <= w.clock)
    && (k in w.inFlight && w.inFlight[k].Fetched? ==> w.inFlight[k].version <= w.clock)
  }

  lemma EndKeepsClock(w: World, own: Key, w': World, k: Key)
    requires ClockInv(w, k) && own in w.inFlight && Ends(w, own, w')
    ensures ClockInv(w', k) && w.clock <= w'.clock
  {
    if k != own {
      EndKeepsOthers(w, own, w', k);
    }
  }

  lemma NextKeepsClock(w: World, a: Action, w': World, k: Key)
    requires ClockInv(w, k) && Next(w, a, w')
    ensures ClockInv(w', k)
  {
    if a.Advance? {
      AdvanceEnds(w, a.key, w');
      EndKeepsClock(w, a.key, w', k);
    }
  }

  lemma {:induction false} RunKeepsClock(worlds: seq<World>, actions: seq<Action>, n: nat, k: Key)
    requires IsRun(worlds, actions) && n <= |actions|
    ensures ClockInv(worlds[n], k)
  {
    if n == 0 {
      RunStarts(worlds, actions);
    } else {
      RunKeepsClock(worlds, actions, n - 1, k);
      RunStep(worlds, actions, n - 1);
      NextKeepsClock(worlds[n - 1], actions[n - 1], worlds[n], k);
    }
  }

  /** The step takes the version of the listener that is stored, for a status that was computed before. */
  predicate Fetches(w: World, a: Action, w': World, k: Key) {
    && a == Advance(k) && k in w.inFlight && w.inFlight[k].Built? && k in w.listeners && k in w'.listeners
    && k in w'.inFlight && w'.inFlight[k] == Fetched(w.inFlight[k].decl, w.inFlight[k].status, w.listeners[k].version)
    && w'.listeners[k] == w.listeners[k]
  }

  /** A version that was fetched goes out of date with every change to the listener. */
  lemma FetchedStep(w: World, a: Action, w': World, k: Key)
    requires ClockInv(w, k) && Next(w, a, w') && k in w'.inFlight && w'.inFlight[k].Fetched? && !Fetches(w, a, w', k)
    ensures k in w.inFlight && w.inFlight[k] == w'.inFlight[k]
    ensures k in w'.listeners && w'.listeners[k].version == w'.inFlight[k].version ==>
              k in w.listeners && w.listeners[k] == w'.listeners[k]
  {
    if a.Advance? {
      AdvanceEnds(w, a.key, w');
      if a.key != k {
        EndKeepsOthers(w, a.key, w', k);
      }
    }
  }

  /** The listener that is stored at step `n` has been there, unchanged, since step `j`. */
  predicate Unchanged(worlds: seq<World>, j: nat, n: nat, k: Key) {
    && j <= n < |worlds| && k in worlds[n].listeners
    && forall m :: j <= m <= n ==> k in worlds[m].listeners && worlds[m].listeners[k] == worlds[n].listeners[k]
  }

  /** Unless step `i` fetches, a version held after it was held before, and is still good only if nothing changed. */
  predicate HoldsVersion(worlds: seq<World>, actions: seq<Action>, i: nat, k: Key)
    requires |worlds| == |actions| + 1 && i < |actions|
  {
    var w, w' := worlds[i], worlds[i + 1];
    k in w'.inFlight && w'.inFlight[k].Fetched? ==>
      || Fetches(w, actions[i], w', k)
      || (k in w.inFlight && w.inFlight[k] == w'.inFlight[k] &&
          (k in w'.listeners && w'.listeners[k].version == w'.inFlight[k].version ==>
             k in w.listeners && w.listeners[k] == w'.listeners[k]))
  }

  lemma RunHoldsVersions(worlds: seq<World>, actions: seq<Action>, k: Key)
    requires IsRun(worlds, actions)
    ensures k !in worlds[0].inFlight
    ensures forall i :: 0 <= i < |actions| ==> HoldsVersion(worlds, actions, i, k)
  {
    RunStarts(worlds, actions);
    forall i | 0 <= i < |actions|
      ensures HoldsVersion(worlds, actions, i, k)
    {
      RunKeepsClock(worlds, actions, i, k);
      RunStep(worlds, actions, i);
      if k in worlds[i + 1].inFlight && worlds[i + 1].inFlight[k].Fetched? && !Fetches(worlds[i], actions[i], worlds[i + 1], k) {
        FetchedStep(worlds[i], actions[i], worlds[i + 1], k);
      }
    }
  }

  lemma {:induction false} FetchedFrom(worlds: seq<World>, actions: seq<Action>, n: nat, k: Key) returns (j: nat)
    requires |worlds| == |actions| + 1 && k !in worlds[0].inFlight
    requires forall i :: 0 <= i < |actions| ==> HoldsVersion(worlds, actions, i, k)
    requires n <= |actions| && k in worlds[n].inFlight && worlds[n].inFlight[k].Fetched?
    ensures j < n && Fetches(worlds[j], actions[j], worlds[j + 1], k) && worlds[n].inFlight[k] == worlds[j + 1].inFlight[k]
    ensures k in worlds[n].listeners && worlds[n].listeners[k].version == worlds[n].inFlight[k].version ==>
              Unchanged(worlds, j, n, k)
    decreases n
  {
    j := n - 1;
    assert HoldsVersion(worlds, actions, j, k);
    if !Fetches(worlds[j], actions[j], worlds[n], k) {
      j := FetchedFrom(worlds, actions, n - 1, k);
    }
  }

  lemma StatusChanges(w: World, k: Key, w': World)
    requires k in w.inFlight && Advances(w, k, w') && k in w.listeners && k in w'.listeners
    requires w'.listeners[k].listener.status != w.listeners[k].listener.status
    ensures w.inFlight[k].Fetched? && w.inFlight[k].version == w.listeners[k].version
    ensures w'.listeners[k].listener == w.listeners[k].listener.(status := w.inFlight[k].status)
  {
    AdvanceEnds(w, k, w');
  }

  /**
   * No status write overwrites a listener it has not seen: the listener is as it was when the write fetched it, and only
   * the status changes, to the one that was computed before the fetch.
   */
  lemma StatusWriteIsGuarded(worlds: seq<World>, actions: seq<Action>, k: Key) returns (j: nat)
    requires IsRun(worlds, actions) && actions != [] && actions[|actions| - 1] == Advance(k)
    requires k in worlds[|actions| - 1].listeners && k in worlds[|actions|].listeners
    requires worlds[|actions|].listeners[k].listener.status != worlds[|actions| - 1].listeners[k].listener.status
    ensures j < |actions| - 1 && Fetches(worlds[j], actions[j], worlds[j + 1], k) && Unchanged(worlds, j, |actions| - 1, k)
    ensures worlds[|actions|].listeners[k].listener ==
            worlds[j].listeners[k].listener.(status := worlds[j].inFlight[k].status)
  {
    var n := |actions| - 1;
    StatusChanges(worlds[n], k, worlds[n + 1]);
    RunHoldsVersions(worlds, actions, k);
    j := FetchedFrom(worlds, actions, n, k);
  }

  /** A conflict does not end the pass: left alone it fetches again and stores the status it has. */
  lemma ConflictIsRetried(worlds: seq<World>, k: Key)
    requires |worlds| == 4 && k in worlds[0].inFlight && worlds[0].inFlight[k].Fetched? && k in worlds[0].listeners
    requires worlds[0].inFlight[k].version != worlds[0].listeners[k].version
    requires forall i :: 0 <= i < 3 ==> C.Proceeds(worlds[i], k, worlds[i + 1])
    ensures k !in worlds[3].inFlight && worlds[3].queue == worlds[0].queue
    ensures k in worlds[3].listeners && worlds[3].listeners[k].listener ==
            worlds[0].listeners[k].listener.(status := worlds[0].inFlight[k].status)
  {
    var Fetched(decl, status, _) := worlds[0].inFlight[k];
    assert C.Proceeds(worlds[0], k, worlds[0 + 1]) && C.Proceeds(worlds[1], k, worlds[1 + 1]);
    assert C.Proceeds(worlds[2], k, worlds[2 + 1]);
    assert worlds[1] == At(worlds[0], k, Built(decl, status));
    assert worlds[2] == At(worlds[1], k, Fetched(decl, status, worlds[0].listeners[k].version));
  }
}
