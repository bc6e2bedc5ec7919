/**
 * The life cycle of the in-memory soot managers: one controller worker reconciles tenants one
 * at a time over a map of running managers, while manager goroutines fail or exit, users edit
 * and delete tenants, and the API server garbage-collects objects without finalizers.
 */
module SootManager {
  import opened Common

  type Key = string

  datatype Tcp = Tcp(
    deleting: bool,
    sootFinalizer: bool,
    otherFinalizers: bool,
    paused: bool,
    status: Status,
    failed: bool,        // the soot annotation says "failed"
    checksum: string)    // status.kubeConfig.admin.checksum

  datatype Item = Item(certificateSha: string, id: nat)

  /** A manager that was started; `id` is its index in the registry. */
  datatype Mgr = Mgr(tenant: Key, cancelled: bool, exited: bool)

  /** Where the single reconcile worker is between two interactions with the API server. */
  datatype Worker =
    | Free
    | Holding(key: Key, seen: Option<Tcp>)
    | DroppingFinalizer(key: Key)
    | DroppingAnnotation(key: Key)
    | AddingFinalizer(key: Key)

  datatype World = World(
    tcps: map<Key, Tcp>,
    soots: map<Key, Item>,
    mgrs: seq<Mgr>,
    worker: Worker,
    complaints: set<Key>)   // goroutines about to write the "failed" annotation

  datatype Action =
    // worker
    | Get(key: Key)
    | Decide
    | Fail
    | Finalize
    // manager goroutines
    | Crash(id: nat)
    | Complain(key: Key)
    | Exit(id: nat)
    // users, other controllers and the garbage collector
    | Create(key: Key, tcp: Tcp)
    | Change(key: Key, tcp: Tcp)
    | Vanish(key: Key)

  function Cancel(mgrs: seq<Mgr>, id: nat): seq<Mgr>
    requires id < |mgrs|
  {
    mgrs[id := mgrs[id].(cancelled := true)]
  }

  /** `stop`: cancel the manager, wait for it or for the deadline, take it out of the map. */
  function Stop(w: World, key: Key): World {
    if key in w.soots && w.soots[key].id < |w.mgrs|
    then w.(mgrs := Cancel(w.mgrs, w.soots[key].id), soots := w.soots - {key})
    else w.(soots := w.soots - {key})
  }

  /** `cleanup`: stop, then drop the finalizer the tenant was seen with. */
  function CleanUp(w: World, key: Key, seen: Tcp): World {
    Stop(w, key).(worker := if seen.sootFinalizer then DroppingFinalizer(key) else Free)
  }

  predicate Offline(st: Status) {
    st == NotReady || st == CARotating || st == Sleeping
  }

  /** What Reconcile does once it has read the tenant. */
  function React(w: World, key: Key, seen: Tcp): World {
    if seen.deleting || seen.status == Sleeping then
      if seen.sootFinalizer then CleanUp(w, key, seen) else w.(worker := Free)
    else if key in w.soots then
      if seen.failed then Stop(w, key).(worker := DroppingAnnotation(key))
      else if seen.status == CARotating || seen.status == NotReady then CleanUp(w, key, seen)
      else if seen.checksum != w.soots[key].certificateSha then CleanUp(w, key, seen)
      else w.(worker := Free)    // the controllers of the manager are nudged
    else if Offline(seen.status) then w.(worker := Free)
    else if !seen.sootFinalizer then w.(worker := AddingFinalizer(key))
    else w.(worker := Free,
            mgrs := w.mgrs + [Mgr(key, false, false)],
            soots := w.soots[key := Item(seen.checksum, |w.mgrs|)])
  }

  function WorkerStep(w: World, a: Action): Option<World> {
    match a
    case Get(key) =>
      if w.worker != Free then None
      else Some(w.(worker := Holding(key, if key in w.tcps then Some(w.tcps[key]) else None)))
    case Decide =>
      if !w.worker.Holding? then None
      else
        (match w.worker.seen
         case None => Some(Stop(w, w.worker.key).(worker := Free))
         case Some(seen) => Some(React(w, w.worker.key, seen)))
    case Fail =>
      // an API error, a missing kubeconfig or a manager that cannot be built: no manager was started
      if w.worker == Free then None
      else if w.worker.Holding? && w.worker.seen.Some? && w.worker.key in w.soots then None
      else Some(w.(worker := Free))
    case Finalize => FinalizeStep(w)
    case _ => None
  }

  /** The update that follows a decision; each re-reads the tenant and gives up when it is gone or paused. */
  function FinalizeStep(w: World): Option<World> {
    match w.worker
    case DroppingFinalizer(key) =>
      if key !in w.tcps || w.tcps[key].paused then Some(w.(worker := Free))
      else Some(w.(worker := Free, tcps := w.tcps[key := w.tcps[key].(sootFinalizer := false)]))
    case DroppingAnnotation(key) =>
      if key !in w.tcps || w.tcps[key].paused then Some(w.(worker := Free))
      else Some(w.(worker := Free, tcps := w.tcps[key := w.tcps[key].(failed := false)]))
    case AddingFinalizer(key) =>
      if key !in w.tcps || w.tcps[key].deleting then Some(w.(worker := Free))
      else Some(w.(worker := Free, tcps := w.tcps[key := w.tcps[key].(sootFinalizer := true)]))
    case _ => None
  }

  function ManagerStep(w: World, a: Action): Option<World> {
    match a
    case Crash(id) =>
      if id < |w.mgrs| && !w.mgrs[id].exited && !w.mgrs[id].cancelled
      then Some(w.(mgrs := w.mgrs[id := w.mgrs[id].(exited := true)], complaints := w.complaints + {w.mgrs[id].tenant}))
      else None
    case Complain(key) =>
      if key !in w.complaints then None
      else if key in w.tcps && !w.tcps[key].paused
      then Some(w.(complaints := w.complaints - {key}, tcps := w.tcps[key := w.tcps[key].(failed := true)]))
      else Some(w.(complaints := w.complaints - {key}))
    case Exit(id) =>
      if id < |w.mgrs| && w.mgrs[id].cancelled
      then Some(w.(mgrs := w.mgrs[id := w.mgrs[id].(exited := true)])) else None
    case _ => None
  }

  function EnvironmentStep(w: World, a: Action): Option<World> {
    match a
    case Create(key, tcp) =>
      if key in w.tcps || tcp.sootFinalizer || tcp.deleting then None
      else Some(w.(tcps := w.tcps[key := tcp]))
    case Change(key, tcp) =>
      // anything but the soot finalizer, which only this controller touches; deletion is not undone
      if key in w.tcps && tcp.sootFinalizer == w.tcps[key].sootFinalizer && (w.tcps[key].deleting ==> tcp.deleting)
      then Some(w.(tcps := w.tcps[key := tcp])) else None
    case Vanish(key) =>
      if key in w.tcps && w.tcps[key].deleting && !w.tcps[key].sootFinalizer && !w.tcps[key].otherFinalizers
      then Some(w.(tcps := w.tcps - {key})) else None
    case _ => None
  }

  function Step(w: World, a: Action): Option<World> {
    if a.Get? || a.Decide? || a.Fail? || a.Finalize? then WorkerStep(w, a)
    else if a.Crash? || a.Complain? || a.Exit? then ManagerStep(w, a)
    else EnvironmentStep(w, a)
  }

  predicate Initial(w: World) {
    && w.soots == map[] && w.mgrs == [] && w.worker == Free && w.complaints == {}
    && forall k :: k in w.tcps ==> !w.tcps[k].sootFinalizer
  }

  predicate Run(trace: seq<World>, actions: seq<Action>) {
    && |trace| == |actions| + 1 && Initial(trace[0])
    && forall i {:trigger actions[i]} :: 0 <= i < |actions| ==> Step(trace[i], actions[i]) == Some(trace[i + 1])
  }

  // ---------- what every run keeps ----------

  /** A manager that was not cancelled is the map entry of its tenant. */
  predicate ManagersAreMapped(w: World) {
    forall id :: 0 <= id < |w.mgrs| && !w.mgrs[id].cancelled ==>
      w.mgrs[id].tenant in w.soots && w.soots[w.mgrs[id].tenant].id == id
  }

  predicate EntryIsSound(w: World, k: Key)
    requires k in w.soots
  {
    && w.soots[k].id < |w.mgrs| && w.mgrs[w.soots[k].id].tenant == k
    && k in w.tcps && w.tcps[k].sootFinalizer
  }

  /** An entry is a manager of its tenant, and its tenant carries the finalizer. */
  predicate EntriesAreSound(w: World) {
    forall k :: k in w.soots ==> EntryIsSound(w, k)
  }

  /** The worker's copy of the finalizer is still right, and a pending update finds the map clean. */
  predicate WorkerIsSound(w: World) {
    match w.worker
    case Holding(key, Some(seen)) =>
      seen.sootFinalizer <==> key in w.tcps && w.tcps[key].sootFinalizer
    case Holding(key, None) => key !in w.soots
    case DroppingFinalizer(key) => key !in w.soots
    case _ => true
  }

  predicate Inv(w: World) {
    ManagersAreMapped(w) && EntriesAreSound(w) && WorkerIsSound(w)
  }

  lemma StopKeeps(w: World, key: Key)
    requires Inv(w)
    ensures ManagersAreMapped(Stop(w, key)) && EntriesAreSound(Stop(w, key))
    ensures key !in Stop(w, key).soots
  {
  }

  lemma ReactKeeps(w: World, key: Key, seen: Tcp)
    requires Inv(w) && w.worker == Holding(key, Some(seen))
    ensures Inv(React(w, key, seen))
  {
    StopKeeps(w, key);
  }

  lemma WorkerStepKeeps(w: World, a: Action, w': World)
    requires Inv(w) && WorkerStep(w, a) == Some(w')
    ensures Inv(w')
  {
    if a.Decide? {
      match w.worker.seen
      case None => StopKeeps(w, w.worker.key);
      case Some(seen) => ReactKeeps(w, w.worker.key, seen);
    }
  }

  lemma ManagerStepKeeps(w: World, a: Action, w': World)
    requires Inv(w) && ManagerStep(w, a) == Some(w')
    ensures Inv(w')
  {
  }

  lemma EnvironmentStepKeeps(w: World, a: Action, w': World)
    requires Inv(w) && EnvironmentStep(w, a) == Some(w')
    ensures Inv(w')
  {
  }

  lemma StepKeeps(w: World, a: Action, w': World)
    requires Inv(w) && Step(w, a) == Some(w')
    ensures Inv(w')
  {
    if a.Get? || a.Decide? || a.Fail? || a.Finalize? {
      WorkerStepKeeps(w, a, w');
    } else if a.Crash? || a.Complain? || a.Exit? {
      ManagerStepKeeps(w, a, w');
    } else {
      EnvironmentStepKeeps(w, a, w');
    }
  }

  lemma {:induction false} InvHolds(trace: seq<World>, actions: seq<Action>, i: nat)
    requires Run(trace, actions) && i < |trace|
    ensures Inv(trace[i])
  {
    if i > 0 {
      InvHolds(trace, actions, i - 1);
      assert Step(trace[i - 1], actions[i - 1]) == Some(trace[i]);
      StepKeeps(trace[i - 1], actions[i - 1], trace[i]);
    }
  }

  /** In every reachable state a tenant has at most one manager that was not cancelled: its map entry. */
  lemma OneManagerPerTenant(trace: seq<World>, actions: seq<Action>, i: nat, a: nat, b: nat)
    requires Run(trace, actions) && i < |trace|
    requires a < |trace[i].mgrs| && b < |trace[i].mgrs|
    requires !trace[i].mgrs[a].cancelled && !trace[i].mgrs[b].cancelled
    requires trace[i].mgrs[a].tenant == trace[i].mgrs[b].tenant
    ensures a == b
    ensures trace[i].mgrs[a].tenant in trace[i].soots && trace[i].soots[trace[i].mgrs[a].tenant].id == a
  {
    InvHolds(trace, actions, i);
  }

  /** A tenant object disappears only after every manager it ever had was cancelled. */
  lemma VanishedTenantIsStopped(trace: seq<World>, actions: seq<Action>, i: nat, k: Key, id: nat)
    requires Run(trace, actions) && i < |actions|
    requires k in trace[i].tcps && k !in trace[i + 1].tcps
    requires id < |trace[i + 1].mgrs| && trace[i + 1].mgrs[id].tenant == k
    ensures trace[i + 1].mgrs[id].cancelled
  {
    InvHolds(trace, actions, i + 1);
  }

  /** A cancelled manager is never brought back, and managers are never forgotten. */
  lemma {:induction false} CancelIsFinal(trace: seq<World>, actions: seq<Action>, i: nat, j: nat, id: nat)
    requires Run(trace, actions) && i <= j < |trace| && id < |trace[i].mgrs| && trace[i].mgrs[id].cancelled
    ensures id < |trace[j].mgrs| && trace[j].mgrs[id].cancelled
  {
    if i < j {
      CancelIsFinal(trace, actions, i, j - 1, id);
      assert Step(trace[j - 1], actions[j - 1]) == Some(trace[j]);
    }
  }

  /** A tenant that is to have a manager: not deleted, and its status is none of the three in which it is left alone. */
  predicate Wanted(t: Tcp) {
    !t.deleting && t.status != Sleeping && t.status != CARotating && t.status != NotReady
  }

  /**
   * A reconciliation that read the tenant leaves an entry exactly for a tenant it saw alive and online
   * that either has a healthy one for the kubeconfig it read, or has none and carries the finalizer.
   * An entry that is kept is the former one; a new one is a fresh manager of this tenant with the
   * checksum that was read.
   */
  lemma EntryMatchesKubeconfig(trace: seq<World>, actions: seq<Action>, i: nat)
    requires Run(trace, actions) && i < |actions| && actions[i].Decide? && trace[i].worker.seen.Some?
    ensures
      var w, w', key, seen := trace[i], trace[i + 1], trace[i].worker.key, trace[i].worker.seen.value;
      var healthy := key in w.soots && !seen.failed && w.soots[key].certificateSha == seen.checksum;
      && (key in w'.soots <==> Wanted(seen) && (healthy || (key !in w.soots && seen.sootFinalizer)))
      && (key in w'.soots ==> w'.soots[key].certificateSha == seen.checksum && w'.soots[key].id < |w'.mgrs|)
      && (key in w'.soots && key in w.soots ==> w'.soots[key] == w.soots[key] && w'.mgrs == w.mgrs)
      && (key in w'.soots && key !in w.soots ==>
            w'.soots[key].id == |w.mgrs| && w'.mgrs == w.mgrs + [Mgr(key, false, false)])
  {
    InvHolds(trace, actions, i);
    assert Step(trace[i], actions[i]) == Some(trace[i + 1]);
    StopKeeps(trace[i], trace[i].worker.key);
    ReactKeeps(trace[i], trace[i].worker.key, trace[i].worker.seen.value);
  }

  /** Whatever is decided about one tenant, the entries of all others stay. */
  lemma OthersStay(w: World, key: Key, seen: Tcp, other: Key)
    requires other != key
    ensures other in React(w, key, seen).soots <==> other in w.soots
    ensures other in w.soots ==> React(w, key, seen).soots[other] == w.soots[other]
  {}
}
