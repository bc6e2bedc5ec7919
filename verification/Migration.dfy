/**
 * The datastore migration protocol as a state machine.
 *
 * Three parties interleave over one tenant: the reconcile pass, the migration
 * Job, and the soot controller that installs or removes the freeze webhook.  One
 * action of this machine is one interaction with an API server, so every
 * interleaving between two interactions is a run.  Passes come one at a time: the
 * work queue serialises them per tenant, so the tenant that a pass reads before
 * it acquires the mutex is not changed by another pass in between.
 */
module Migration {
  import opened Common

  type Content = map<string, string>

  /** What the user can edit; `options` stands for the Job arguments that come from annotations. */
  datatype Spec = Spec(
    dataStore: string,
    options: nat,
    cleanUp: bool,
    version: string,
    writeLimited: bool,
    replicas: Option<nat>)

  datatype Phase =
    | Pending
    | Running(origin: string, copied: bool)
    | Complete(origin: string)

  /** The Job named after the tenant's UID; its template cannot be updated. */
  datatype Job = Job(target: string, options: nat, cleanUp: bool, phase: Phase)

  /** The part of a pod template that matters here; `rest` is everything else in it. */
  datatype Template = Template(dataStore: string, version: string, rest: nat)

  datatype Deployment = Deployment(
    template: Template,
    desired: Option<nat>,
    generation: nat,
    observed: nat,
    updated: nat,
    ready: nat,
    total: nat,
    unavailable: nat)

  /** The tenant object a pass holds in memory, and the DataStore it connected to. */
  datatype Memory = Memory(spec: Spec, dataStore: string)

  datatype Pass =
    | Idle
    | Started(mem: Memory)
    | Freezing(mem: Memory)                       // the freeze webhook was written
    | JobLaunched(mem: Memory)                    // the Job was created, its status write is due
    | PastMigrate(mem: Memory)
    | PastUpgrade(mem: Memory)
    | Configured(mem: Memory)                     // the storage status was written
    | Deployed(mem: Memory, view: Deployment)     // the Deployment was written, its status write is due
    | Reported(mem: Memory)

  /** A soot reconciliation between its read of the tenant and its write of the webhook. */
  datatype Soot = Resting | Saw(status: Status)

  datatype World = World(
    fallback: string,            // default DataStore of the installation
    spec: Spec,
    recorded: string,            // status.storage.dataStoreName, "" when never written
    version: string,             // status.kubernetes.version.version
    status: Status,
    job: Option<Job>,
    webhook: bool,
    soot: Soot,
    pass: Pass,
    deployment: Option<Deployment>,
    live: set<string>,           // the DataStores that running API servers write to
    data: map<string, Content>)  // objects guarded by the webhook, per DataStore

  datatype Action =
    // reconcile pass
    | PassStart
    | PassAbort
    | MigrateSkip
    | InstallFreeze
    | JobCreate
    | JobRefused
    | JobWait
    | JobDone
    | RecordMigrating
    | Upgrade(refetch: bool)
    | RotateCA
    | RecordStorage(refetch: bool)
    | WriteDeployment(rest: nat)
    | RecordDeployment(refetch: bool)
    | CleanJob
    // migration Job
    | JobStart
    | JobCopy
    | JobFinish
    | JobRetry
    // soot controller
    | SootRead
    | SootAct
    // user, tenant and Deployment controller
    | EditSpec(spec: Spec)
    | TenantWrite(store: string, key: string, val: string)
    | Pods(live: set<string>)
    | Observe(updated: nat, ready: nat, total: nat, unavailable: nat)

  function Effective(name: string, fallback: string): string {
    if name == "" then fallback else name
  }

  function DataOf(w: World, store: string): Content {
    if store in w.data then w.data[store] else map[]
  }

  function Deref(n: Option<nat>, default: nat): nat {
    if n.Some? then n.value else default
  }

  /** The pass found a rollout that is not finished. */
  predicate Progressing(d: Deployment) {
    || d.generation != d.observed
    || d.unavailable > 0
    || d.updated != Deref(d.desired, 2)
    || d.ready != Deref(d.desired, 2)
    || d.total != Deref(d.desired, 2)
  }

  /** The status the Deployment handler reports. */
  function ComputeStatus(spec: Spec, version: string, d: Deployment): Status {
    if Deref(spec.replicas, 2) == 0 then Sleeping
    else if d.ready == 0 then NotReady
    else if spec.writeLimited then WriteLimited
    else if !Progressing(d) then Ready
    else if version != "" && spec.version != version then Upgrading
    else if version == "" then Provisioning
    else Unknown
  }

  /** `CreateOrUpdate` of the Deployment: any change of the spec bumps the generation. */
  function WriteTemplate(prior: Option<Deployment>, t: Template, desired: Option<nat>): Deployment {
    match prior
    case None => Deployment(t, desired, 1, 0, 0, 0, 0, 0)
    case Some(d) =>
      if d.template == t && d.desired == desired then d
      else d.(template := t, desired := desired, generation := d.generation + 1)
  }

  /** A status write that hits a conflict re-reads the tenant before it is repeated. */
  function Reload(w: World, mem: Memory, refetch: bool): Memory {
    if refetch then mem.(spec := w.spec) else mem
  }

  predicate SameArguments(j: Job, spec: Spec) {
    j.target == spec.dataStore && j.options == spec.options && j.cleanUp == spec.cleanUp
  }

  /** The leading migrate handler has something to do. */
  predicate Moving(w: World, mem: Memory) {
    w.recorded != "" && w.recorded != mem.spec.dataStore
  }

  /** The migrate handler, from the pass's read of the tenant to its decision to go on. */
  function MigrateStep(w: World, mem: Memory, a: Action): Option<World> {
    match a
    case MigrateSkip =>
      if w.pass.Started? && !Moving(w, mem) then Some(w.(pass := PastMigrate(mem))) else None
    case InstallFreeze =>
      if w.pass.Started? && Moving(w, mem) then Some(w.(pass := Freezing(mem), webhook := true)) else None
    case JobCreate =>
      if w.pass.Freezing? && w.job.None?
      then Some(w.(pass := JobLaunched(mem),
                   job := Some(Job(mem.spec.dataStore, mem.spec.options, mem.spec.cleanUp, Pending))))
      else None
    case JobRefused =>
      if w.pass.Freezing? && w.job.Some? && !SameArguments(w.job.value, mem.spec)
      then Some(w.(pass := Idle, job := None)) else None
    case JobWait =>
      if w.pass.Freezing? && w.job.Some? && SameArguments(w.job.value, mem.spec) && !w.job.value.phase.Complete?
      then Some(w.(pass := Idle)) else None
    case JobDone =>
      if w.pass.Freezing? && w.job.Some? && SameArguments(w.job.value, mem.spec) && w.job.value.phase.Complete?
      then Some(w.(pass := PastMigrate(mem))) else None
    case RecordMigrating =>
      if w.pass.JobLaunched? then Some(w.(pass := Idle, status := Migrating)) else None
    case _ => None
  }

  /** The upgrade handler. */
  function UpgradeStep(w: World, mem: Memory, a: Action): Option<World> {
    if !a.Upgrade? then None
    else if w.version == "" || w.version == mem.spec.version || w.status == Upgrading || Deref(mem.spec.replicas, 0) == 0
    then Some(w.(pass := PastUpgrade(mem)))
    else
      var mem' := Reload(w, mem, a.refetch);
      Some(w.(pass := PastUpgrade(mem'), status := if mem'.spec.version == w.version then Ready else Upgrading))
  }

  /** The certificate handlers, as far as the status goes, and the storage handler. */
  function StorageStep(w: World, mem: Memory, a: Action): Option<World> {
    match a
    case RotateCA =>
      if w.status == Unset || w.status == Provisioning then None else Some(w.(status := CARotating))
    case RecordStorage(refetch) =>
      Some(w.(pass := Configured(Reload(w, mem, refetch)), recorded := mem.dataStore))
    case _ => None
  }

  /** The Deployment handler and the trailing clean-up of the Job. */
  function DeployStep(w: World, mem: Memory, a: Action): Option<World> {
    match a
    case WriteDeployment(rest) =>
      if !w.pass.Configured? then None
      else
        var d := WriteTemplate(w.deployment, Template(w.recorded, mem.spec.version, rest), mem.spec.replicas);
        Some(w.(pass := Deployed(mem, d), deployment := Some(d)))
    case RecordDeployment(refetch) =>
      if !w.pass.Deployed? then None
      else
        var mem' := Reload(w, mem, refetch);
        var st := ComputeStatus(mem'.spec, w.version, w.pass.view);
        Some(w.(pass := Reported(mem'), status := st,
                version := if st == Ready || st == Sleeping then mem'.spec.version else w.version))
    case CleanJob =>
      if w.pass.Reported?
      then Some(w.(pass := Idle, job := if w.status == Migrating then None else w.job)) else None
    case _ => None
  }

  function PassStep(w: World, a: Action): Option<World> {
    if w.pass.Idle? then
      var name := Effective(w.spec.dataStore, w.fallback);
      if a == PassStart && name != ""
      then Some(w.(pass := Started(Memory(w.spec.(dataStore := name), name))))
      else None
    else if a == PassAbort then Some(w.(pass := Idle))
    else if w.pass.Started? || w.pass.Freezing? || w.pass.JobLaunched? then MigrateStep(w, w.pass.mem, a)
    else if w.pass.PastMigrate? then UpgradeStep(w, w.pass.mem, a)
    else if w.pass.PastUpgrade? then StorageStep(w, w.pass.mem, a)
    else DeployStep(w, w.pass.mem, a)
  }

  function JobStep(w: World, a: Action): Option<World> {
    if w.job.None? then None else
    var j := w.job.value;
    match (a, j.phase)
    case (JobStart, Pending) =>
      if w.recorded == "" || w.recorded == j.target then None
      else Some(w.(job := Some(j.(phase := Running(w.recorded, false)))))
    case (JobCopy, Running(origin, false)) =>
      var kept := if j.cleanUp then map[] else DataOf(w, j.target);
      Some(w.(job := Some(j.(phase := Running(origin, true))),
              data := w.data[j.target := kept + DataOf(w, origin)]))
    case (JobFinish, Running(origin, true)) =>
      Some(w.(job := Some(j.(phase := Complete(origin)))))
    case (JobRetry, Running(origin, copied)) =>
      Some(w.(job := Some(j.(phase := Pending))))
    case _ => None
  }

  function SootStep(w: World, a: Action): Option<World> {
    match (a, w.soot)
    case (SootRead, Resting) => Some(w.(soot := Saw(w.status)))
    case (SootAct, Saw(st)) =>
      Some(w.(soot := Resting,
              webhook := match st
                         case Migrating => true
                         case Ready => false
                         case WriteLimited => false
                         case _ => w.webhook))
    case _ => None
  }

  function EnvironmentStep(w: World, a: Action): Option<World> {
    match a
    case EditSpec(spec) => Some(w.(spec := spec))
    case TenantWrite(store, key, val) =>
      if w.webhook || store !in w.live then None
      else Some(w.(data := w.data[store := DataOf(w, store)[key := val]]))
    case Pods(live) =>
      // a new pod is started from the current template only
      if w.deployment.Some? && live <= w.live + {w.deployment.value.template.dataStore}
      then Some(w.(live := live)) else None
    case Observe(updated, ready, total, unavailable) =>
      // counts are truthful: when every pod is up to date, no pod of an older template is left
      if w.deployment.Some? && (updated == total ==> w.live <= {w.deployment.value.template.dataStore})
      then Some(w.(deployment := Some(w.deployment.value.(
                     observed := w.deployment.value.generation,
                     updated := updated, ready := ready, total := total, unavailable := unavailable))))
      else None
    case _ => None
  }

  /** One interaction; `None` when the action is not possible in `w`. */
  function Step(w: World, a: Action): Option<World> {
    if a.JobStart? || a.JobCopy? || a.JobFinish? || a.JobRetry? then JobStep(w, a)
    else if a.SootRead? || a.SootAct? then SootStep(w, a)
    else if a.EditSpec? || a.TenantWrite? || a.Pods? || a.Observe? then EnvironmentStep(w, a)
    else PassStep(w, a)
  }

  /** A new tenant: nothing recorded, no Job, no webhook, no Deployment. */
  predicate Initial(w: World) {
    && w.recorded == "" && w.version == "" && w.status == Unset
    && w.job.None? && !w.webhook && w.soot.Resting? && w.pass.Idle?
    && w.deployment.None? && w.live == {}
  }

  /** `trace` lists the states met while `actions` happen one after the other. */
  predicate Execution(trace: seq<World>, actions: seq<Action>) {
    && |trace| == |actions| + 1
    && forall i {:trigger actions[i]} :: 0 <= i < |actions| ==> Step(trace[i], actions[i]) == Some(trace[i + 1])
  }

  predicate Run(trace: seq<World>, actions: seq<Action>) {
    Execution(trace, actions) && Initial(trace[0])
  }
}
