/** The soot controller as it is written: an object with a map of running managers. */
module SootReconciler {
  import opened Common
  import opened SootManager

  /** A reconciliation of `key` with nobody interfering between its interactions. */
  function Undisturbed(w: World, key: Key): World
    requires w.worker == Free
  {
    var held := WorkerStep(w, Get(key)).value;
    var decided := WorkerStep(held, Decide).value;
    if decided.worker == Free then decided else FinalizeStep(decided).value
  }

  /** `n` undisturbed reconciliations in a row. */
  function Reconciled(w: World, key: Key, n: nat): World
    requires w.worker == Free
    ensures Reconciled(w, key, n).worker == Free
  {
    if n == 0 then w else Undisturbed(Reconciled(w, key, n - 1), key)
  }

  /** The map holds a running manager of the tenant, made for its kubeconfig. */
  predicate Serves(w: World, key: Key) {
    && key in w.tcps && key in w.soots && w.soots[key].id < |w.mgrs|
    && w.mgrs[w.soots[key].id] == Mgr(key, false, false) && w.soots[key].certificateSha == w.tcps[key].checksum
  }

  /** One reconciliation, written out: what becomes of a tenant that is read and not disturbed. */
  lemma UndisturbedExactly(w: World, key: Key)
    requires Inv(w) && w.worker == Free && key in w.tcps
    ensures
      var t, w' := w.tcps[key], Undisturbed(w, key);
      && key in w'.tcps && w'.tcps.Keys == w.tcps.Keys && w'.worker == Free
      && (Wanted(t) && key !in w.soots && !t.sootFinalizer ==>
            w'.soots == w.soots && w'.mgrs == w.mgrs && w'.tcps[key] == t.(sootFinalizer := true))
      && (Wanted(t) && key !in w.soots && t.sootFinalizer ==> Serves(w', key) && w'.tcps == w.tcps)
      && (Wanted(t) && key in w.soots && t.failed && !t.paused ==>
            key !in w'.soots && w'.tcps[key] == t.(failed := false))
      && (Wanted(t) && key in w.soots && !t.failed && t.checksum != w.soots[key].certificateSha && !t.paused ==>
            key !in w'.soots && w'.tcps[key] == t.(sootFinalizer := false))
      && (!Wanted(t) && key in w.soots && !t.paused && (t.failed ==> t.deleting || t.status == Sleeping) ==>
            key !in w'.soots && w'.tcps[key] == t.(sootFinalizer := false))
  {}

  lemma UndisturbedKeepsInv(w: World, key: Key)
    requires Inv(w) && w.worker == Free
    ensures Inv(Undisturbed(w, key))
  {
    var held := WorkerStep(w, Get(key)).value;
    StepKeeps(w, Get(key), held);
    var decided := WorkerStep(held, Decide).value;
    StepKeeps(held, Decide, decided);
    if decided.worker != Free { StepKeeps(decided, Finalize, FinalizeStep(decided).value); }
  }

  /** A tenant alive and online without an entry has its manager after two reconciliations. */
  lemma ManagerIsStarted(w: World, key: Key)
    requires Inv(w) && w.worker == Free && key in w.tcps && Wanted(w.tcps[key]) && key !in w.soots
    ensures Serves(Reconciled(w, key, if w.tcps[key].sootFinalizer then 1 else 2), key)
  {
    var w0 := Reconciled(w, key, 0);
    UndisturbedExactly(w, key);
    if !w.tcps[key].sootFinalizer {
      var w1 := Reconciled(w, key, 1);
      UndisturbedKeepsInv(w, key);
      UndisturbedExactly(w1, key);
    }
  }

  /** A manager that failed is replaced in two reconciliations, one for a former kubeconfig in three. */
  lemma ManagerIsReplaced(w: World, key: Key)
    requires Inv(w) && w.worker == Free && key in w.tcps && Wanted(w.tcps[key]) && key in w.soots && !w.tcps[key].paused
    requires w.tcps[key].failed || w.tcps[key].checksum != w.soots[key].certificateSha
    ensures Serves(Reconciled(w, key, if w.tcps[key].failed then 2 else 3), key)
  {
    var w0, w1 := Reconciled(w, key, 0), Reconciled(w, key, 1);
    assert w.tcps[key].sootFinalizer by { assert EntryIsSound(w, key); }
    UndisturbedExactly(w, key);
    UndisturbedKeepsInv(w, key);
    UndisturbedExactly(w1, key);
    if !w.tcps[key].failed {
      var w2 := Reconciled(w, key, 2);
      UndisturbedKeepsInv(w1, key);
      UndisturbedExactly(w2, key);
    }
  }

  /** A manager that crashes has its tenant marked, and is replaced in two reconciliations. */
  lemma CrashedManagerIsReplaced(w: World, key: Key)
    requires Inv(w) && w.worker == Free && key in w.tcps && Wanted(w.tcps[key]) && key in w.soots && !w.tcps[key].paused
    requires w.mgrs[w.soots[key].id] == Mgr(key, false, false)
    ensures
      var crashed := Step(w, Crash(w.soots[key].id));
      && crashed.Some? && Step(crashed.value, Complain(key)).Some?
      && var marked := Step(crashed.value, Complain(key)).value;
      && marked.worker == Free && Serves(Reconciled(marked, key, 2), key)
  {
    var crash := Crash(w.soots[key].id);
    var crashed := Step(w, crash).value;
    StepKeeps(w, crash, crashed);
    var marked := Step(crashed, Complain(key)).value;
    StepKeeps(crashed, Complain(key), marked);
    ManagerIsReplaced(marked, key);
  }

  /** A tenant that is deleted or put to sleep loses its manager and then the finalizer, in one reconciliation. */
  lemma ManagerIsReleased(w: World, key: Key)
    requires Inv(w) && w.worker == Free && key in w.tcps && key in w.soots && !w.tcps[key].paused
    requires w.tcps[key].deleting || w.tcps[key].status == Sleeping
    ensures
      var w' := Undisturbed(w, key);
      key !in w'.soots && w'.mgrs[w.soots[key].id].cancelled && !w'.tcps[key].sootFinalizer
  {
    assert EntryIsSound(w, key);
    UndisturbedExactly(w, key);
  }

  class Manager {
    var sootMap: map<Key, Item>
    var mgrs: seq<Mgr>
    var tcps: map<Key, Tcp>        // the API server's objects
    var complaints: set<Key>

    ghost function View(): World
      reads this
    {
      World(tcps, sootMap, mgrs, Free, complaints)
    }

    constructor (tcps: map<Key, Tcp>)
      ensures View() == World(tcps, map[], [], Free, {})
    {
      this.tcps, sootMap, mgrs, complaints := tcps, map[], [], {};
    }

    /** Cancels the manager before removing it: once out of the map, nothing could stop it. */
    method StopManager(key: Key)
      requires Inv(View())
      modifies this`sootMap, this`mgrs
      ensures View() == Stop(old(View()), key)
    {
      if key !in sootMap {
        assert sootMap - {key} == sootMap;
        return;
      }
      mgrs := mgrs[sootMap[key].id := mgrs[sootMap[key].id].(cancelled := true)];
      sootMap := sootMap - {key};
    }

    method RemoveFinalizer(key: Key)
      modifies this`tcps
      ensures FinalizeStep(old(View()).(worker := DroppingFinalizer(key))) == Some(View())
    {
      if key in tcps && !tcps[key].paused {
        tcps := tcps[key := tcps[key].(sootFinalizer := false)];
      }
    }

    method Cleanup(key: Key, seen: Option<Tcp>)
      requires Inv(View())
      modifies this`sootMap, this`mgrs, this`tcps
      ensures seen == None ==> View() == Stop(old(View()), key)
      ensures seen.Some? && seen.value.sootFinalizer ==>
                FinalizeStep(CleanUp(old(View()), key, seen.value)) == Some(View())
      ensures seen.Some? && !seen.value.sootFinalizer ==> View() == CleanUp(old(View()), key, seen.value)
    {
      StopManager(key);
      if seen.Some? && seen.value.sootFinalizer {
        RemoveFinalizer(key);
      }
    }

    /** One reconciliation; the result tells whether the controllers of a running manager were nudged. */
    method Reconcile(key: Key) returns (nudged: bool)
      requires Inv(View())
      modifies this`sootMap, this`mgrs, this`tcps
      ensures View() == Undisturbed(old(View()), key)
      ensures nudged <==>
        && key in old(tcps) && key in old(sootMap) && Wanted(old(tcps)[key]) && !old(tcps)[key].failed
        && old(tcps)[key].checksum == old(sootMap)[key].certificateSha
      ensures nudged ==> View() == old(View())
    {
      nudged := false;
      if key !in tcps {
        Cleanup(key, None);
        return;
      }
      var tcp := tcps[key];
      if tcp.deleting || tcp.status == Sleeping {
        if tcp.sootFinalizer {
          Cleanup(key, Some(tcp));
        }
        return;
      }
      if key in sootMap {
        if tcp.failed {
          StopManager(key);
          if !tcps[key].paused {
            tcps := tcps[key := tcps[key].(failed := false)];
          }
        } else if tcp.status == CARotating || tcp.status == NotReady || tcp.checksum != sootMap[key].certificateSha {
          Cleanup(key, Some(tcp));
        } else {
          nudged := true;
        }
        return;
      }
      if Offline(tcp.status) {
        return;
      }
      if !tcp.sootFinalizer {
        tcps := tcps[key := tcp.(sootFinalizer := true)];
        return;
      }
      mgrs := mgrs + [Mgr(key, false, false)];
      sootMap := sootMap[key := Item(tcp.checksum, |mgrs| - 1)];
    }
  }
}
