/**
 * The migrate handler and the soot reconciliation as they are written: objects whose
 * methods update fields.  Each is proved to be a path of the protocol in Migration.
 */
module MigrationHandlers {
  import opened Common
  import opened Migration

  /** Everything the two parties read and write about one tenant. */
  class Tenant {
    const fallback: string
    var spec: Spec
    var recorded: string
    var version: string
    var status: Status
    var job: Option<Job>
    var webhook: bool
    var soot: Soot
    var pass: Pass
    var deployment: Option<Deployment>
    var live: set<string>
    var data: map<string, Content>

    ghost function View(): World
      reads this
    {
      World(fallback, spec, recorded, version, status, job, webhook, soot, pass, deployment, live, data)
    }

    constructor (w: World)
      ensures View() == w
    {
      fallback, spec, recorded, version, status := w.fallback, w.spec, w.recorded, w.version, w.status;
      job, webhook, soot, pass := w.job, w.webhook, w.soot, w.pass;
      deployment, live, data := w.deployment, w.live, w.data;
    }
  }

  datatype Outcome =
    | Proceed       // nothing to do, or the Job is complete: the pass goes on
    | EnqueueBack   // the Job was created
    | InProcess     // sentinel error: the Job is still running
    | Recreate      // the Job has other arguments and was deleted

  /** The freeze webhook is written, then `next` happens to the Job, with nobody in between. */
  function FreezeThen(w: World, mem: Memory, next: Action): Option<World> {
    match MigrateStep(w, mem, InstallFreeze)
    case None => None
    case Some(w') => MigrateStep(w', mem, next)
  }

  /** Steps of the migrate handler are steps of the protocol. */
  lemma HandlerStepIsStep(w: World, a: Action)
    requires w.pass.Started? || w.pass.Freezing? || w.pass.JobLaunched?
    requires MigrateStep(w, w.pass.mem, a).Some?
    ensures Step(w, a) == MigrateStep(w, w.pass.mem, a)
  {
  }

  class MigrateHandler {
    var actual: string
    var desired: Option<string>
    var inProgress: bool

    constructor ()
      ensures desired == None && !inProgress
    {
      actual, desired, inProgress := "", None, false;
    }

    /** Reads the recorded and the desired DataStore, unless none was recorded yet. */
    method Define(t: Tenant, mem: Memory)
      modifies this
      ensures inProgress == old(inProgress)
      ensures desired.Some? <==> t.recorded != "" || old(desired).Some?
      ensures t.recorded != "" ==> actual == t.recorded && desired == Some(mem.spec.dataStore)
    {
      if t.recorded == "" {
        return;
      }
      actual := t.recorded;
      desired := Some(mem.spec.dataStore);
    }

    /** Installs the freeze, then creates, checks or gives up the Job. */
    method CreateOrUpdate(t: Tenant, mem: Memory) returns (r: Outcome)
      requires t.pass == Started(mem) && !inProgress
      requires desired == if t.recorded == "" then None else Some(mem.spec.dataStore)
      requires t.recorded != "" ==> actual == t.recorded
      modifies this, t
      ensures match r
              case Proceed =>
                || MigrateStep(old(t.View()), mem, MigrateSkip) == Some(t.View())
                || FreezeThen(old(t.View()), mem, JobDone) == Some(t.View())
              case EnqueueBack => FreezeThen(old(t.View()), mem, JobCreate) == Some(t.View())
              case InProcess => FreezeThen(old(t.View()), mem, JobWait) == Some(t.View())
              case Recreate => FreezeThen(old(t.View()), mem, JobRefused) == Some(t.View())
      ensures inProgress <==> r == EnqueueBack || r == InProcess
      ensures actual == old(actual) && desired == old(desired)
    {
      if desired.None? || actual == desired.value {
        t.pass := PastMigrate(mem);
        return Proceed;
      }
      t.webhook := true;
      if t.job.None? {
        t.job := Some(Job(mem.spec.dataStore, mem.spec.options, mem.spec.cleanUp, Pending));
        t.pass := JobLaunched(mem);
        inProgress := true;
        return EnqueueBack;
      }
      if !SameArguments(t.job.value, mem.spec) {
        t.job := None;
        t.pass := Idle;
        return Recreate;
      }
      if t.job.value.phase.Complete? {
        t.pass := PastMigrate(mem);
        return Proceed;
      }
      inProgress := true;
      t.pass := Idle;
      return InProcess;
    }

    method UpdateStatus(t: Tenant)
      requires t.pass.JobLaunched? && inProgress
      modifies t
      ensures MigrateStep(old(t.View()), old(t.pass.mem), RecordMigrating) == Some(t.View())
    {
      if inProgress {
        t.status := Migrating;
      }
      t.pass := Idle;
    }

    /**
     * The handler as the pass drives it, undisturbed.  Whenever it launches a Job it leaves the
     * tenant frozen and Migrating, and it lets the pass go on only if there is nothing to move or
     * the Job for the desired DataStore is complete.
     */
    method Handle(t: Tenant) returns (r: Outcome)
      requires t.pass.Started? && desired == None && !inProgress
      modifies this, t
      ensures r == EnqueueBack ==> t.webhook && t.status == Migrating && t.job.Some? && t.pass == Idle
      ensures r == Proceed <==> t.pass.PastMigrate?
      ensures r == Proceed && old(t.recorded) != "" && old(t.recorded) != old(t.pass.mem.spec.dataStore) ==>
                && t.webhook && t.job.Some? && t.job.value.phase.Complete?
                && t.job.value.target == old(t.pass.mem.spec.dataStore)
      ensures t.recorded == old(t.recorded)
    {
      var mem := t.pass.mem;
      Define(t, mem);
      r := CreateOrUpdate(t, mem);
      if r == EnqueueBack {
        UpdateStatus(t);
      }
    }
  }

  /** The tenant-side controller: level triggered, it looks at the status and sets the webhook. */
  class SootMigrate {
    method Reconcile(t: Tenant)
      requires t.soot.Resting?
      modifies t
      ensures SootStep(old(t.View()), SootRead).Some?
      ensures SootStep(SootStep(old(t.View()), SootRead).value, SootAct) == Some(t.View())
    {
      match t.status
      case Migrating => t.webhook := true;
      case Ready => t.webhook := false;
      case WriteLimited => t.webhook := false;
      case _ =>
    }
  }
}
