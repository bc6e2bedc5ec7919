/** What every run of the migration protocol keeps. */
module MigrationSafety {
  import opened Common
  import opened Migration

  /** A Job that has started copies from the recorded DataStore, and the record moves at most to its target. */
  predicate JobFollowsRecord(w: World) {
    w.job.Some? ==>
      && w.recorded != ""
      && match w.job.value.phase
         case Pending => true
         case Running(origin, _) => origin == w.recorded && origin != w.job.value.target
         case Complete(origin) =>
           && origin != "" && origin != w.job.value.target
           && (w.recorded == origin || w.recorded == w.job.value.target)
  }

  /** There is a complete Job that copied `origin` into `target`. */
  predicate Copied(w: World, origin: string, target: string) {
    && w.job.Some?
    && w.job.value.target == target
    && w.job.value.phase == Complete(origin)
  }

  predicate PassIsSound(w: World) {
    match w.pass
    case Idle => true
    case Started(mem) => mem.dataStore != "" && mem.spec.dataStore == mem.dataStore
    case Freezing(mem) => mem.dataStore != "" && mem.spec.dataStore == mem.dataStore && Moving(w, mem)
    case JobLaunched(mem) =>
      && mem.dataStore != "" && mem.spec.dataStore == mem.dataStore && Moving(w, mem)
      && w.job.Some? && SameArguments(w.job.value, mem.spec)
    case PastMigrate(mem) => mem.dataStore != "" && MayRecord(w, mem)
    case PastUpgrade(mem) => mem.dataStore != "" && MayRecord(w, mem)
    case Configured(mem) => w.recorded == mem.dataStore != ""
    case Deployed(mem, view) =>
      && w.recorded == mem.dataStore != ""
      && view.template.dataStore == w.recorded && ShowsCurrent(w, view)
    case Reported(mem) => w.status != Migrating
  }

  /** A pass beyond the migrate handler records a new DataStore only on the strength of a complete Job. */
  predicate MayRecord(w: World, mem: Memory) {
    w.recorded == "" || w.recorded == mem.dataStore || Copied(w, w.recorded, mem.dataStore)
  }

  /** The pass looks at the current generation, and a finished rollout has left no other pod. */
  predicate ShowsCurrent(w: World, view: Deployment) {
    && w.deployment.Some?
    && w.deployment.value.template == view.template && w.deployment.value.generation == view.generation
    && (!Progressing(view) ==> w.live <= {view.template.dataStore})
  }

  /** Replica counts that look complete are about pods of the current template. */
  predicate RolloutIsTruthful(w: World) {
    match w.deployment
    case None => w.live == {}
    case Some(d) =>
      && d.observed <= d.generation
      && (d.observed == d.generation && d.updated == d.total ==> w.live <= {d.template.dataStore})
  }

  predicate Inv(w: World) {
    JobFollowsRecord(w) && PassIsSound(w) && RolloutIsTruthful(w)
  }

  lemma InvMigrate(w: World, a: Action, w': World)
    requires Inv(w) && (w.pass.Started? || w.pass.Freezing? || w.pass.JobLaunched?)
    requires MigrateStep(w, w.pass.mem, a) == Some(w')
    ensures Inv(w')
  {
  }

  lemma InvUpgrade(w: World, a: Action, w': World)
    requires Inv(w) && w.pass.PastMigrate? && UpgradeStep(w, w.pass.mem, a) == Some(w')
    ensures Inv(w')
  {
  }

  lemma InvStorage(w: World, a: Action, w': World)
    requires Inv(w) && w.pass.PastUpgrade? && StorageStep(w, w.pass.mem, a) == Some(w')
    ensures Inv(w')
  {
  }

  lemma InvDeploy(w: World, a: Action, w': World)
    requires Inv(w) && (w.pass.Configured? || w.pass.Deployed? || w.pass.Reported?)
    requires DeployStep(w, w.pass.mem, a) == Some(w')
    ensures Inv(w')
  {
  }

  lemma InvJob(w: World, a: Action, w': World)
    requires Inv(w) && JobStep(w, a) == Some(w')
    ensures Inv(w')
  {
  }

  lemma InvOther(w: World, a: Action, w': World)
    requires Inv(w) && (SootStep(w, a) == Some(w') || EnvironmentStep(w, a) == Some(w'))
    ensures Inv(w')
  {
  }

  lemma InvPass(w: World, a: Action, w': World)
    requires Inv(w) && PassStep(w, a) == Some(w')
    ensures Inv(w')
  {
    if w.pass.Idle? || a == PassAbort {
    } else if w.pass.Started? || w.pass.Freezing? || w.pass.JobLaunched? {
      InvMigrate(w, a, w');
    } else if w.pass.PastMigrate? {
      InvUpgrade(w, a, w');
    } else if w.pass.PastUpgrade? {
      InvStorage(w, a, w');
    } else {
      InvDeploy(w, a, w');
    }
  }

  lemma InvStep(w: World, a: Action, w': World)
    requires Inv(w) && Step(w, a) == Some(w')
    ensures Inv(w')
  {
    if a.JobStart? || a.JobCopy? || a.JobFinish? || a.JobRetry? {
      InvJob(w, a, w');
    } else if a.SootRead? || a.SootAct? || a.EditSpec? || a.TenantWrite? || a.Pods? || a.Observe? {
      InvOther(w, a, w');
    } else {
      InvPass(w, a, w');
    }
  }

  /** Every state an execution meets satisfies the invariant, when its first one does. */
  lemma {:induction false} InvHolds(trace: seq<World>, actions: seq<Action>, i: nat)
    requires Execution(trace, actions) && Inv(trace[0]) && i < |trace|
    ensures Inv(trace[i])
  {
    if i > 0 {
      InvHolds(trace, actions, i - 1);
      assert Step(trace[i - 1], actions[i - 1]) == Some(trace[i]);
      InvStep(trace[i - 1], actions[i - 1], trace[i]);
    }
  }

  /**
   * In every run, the recorded DataStore moves from A to B only in the storage handler of a pass
   * connected to B, while a complete Job stands whose target is B and whose origin was A.
   */
  lemma SwitchNeedsCompleteJob(trace: seq<World>, actions: seq<Action>, i: nat)
    requires Run(trace, actions) && i < |actions|
    requires trace[i].recorded != "" && trace[i + 1].recorded != trace[i].recorded
    ensures actions[i].RecordStorage?
    ensures trace[i].pass.PastUpgrade? && trace[i].pass.mem.dataStore == trace[i + 1].recorded
    ensures Copied(trace[i], trace[i].recorded, trace[i + 1].recorded)
  {
    InvHolds(trace, actions, i);
    assert Step(trace[i], actions[i]) == Some(trace[i + 1]);
  }

  /** A pass that is about to create a Job has installed the freeze webhook, and done nothing since. */
  lemma {:induction false} FreezePrecedes(trace: seq<World>, actions: seq<Action>, i: nat) returns (j: nat)
    requires Run(trace, actions) && i < |actions|
    requires trace[i].pass.Freezing?
    ensures j < i && actions[j].InstallFreeze? && trace[j + 1].webhook
    ensures forall k :: j < k <= i ==> trace[k].pass == trace[i].pass
  {
    var k := i - 1;
    assert Step(trace[k], actions[k]) == Some(trace[k + 1]);
    if trace[k].pass == trace[i].pass {
      j := FreezePrecedes(trace, actions, k);
    } else {
      j := k;
    }
  }

  lemma JobAppears(w: World, a: Action, w': World)
    requires Step(w, a) == Some(w') && w.job.None? && w'.job.Some?
    ensures a.JobCreate? && w.pass.Freezing?
  {}

  /**
   * Every Job was created by a pass that had installed the freeze webhook, with no step of that
   * pass in between.
   */
  lemma JobCreatedAfterFreeze(trace: seq<World>, actions: seq<Action>, i: nat) returns (j: nat)
    requires Run(trace, actions) && i < |actions|
    requires trace[i].job.None? && trace[i + 1].job.Some?
    ensures actions[i].JobCreate? && trace[i].pass.Freezing?
    ensures j < i && actions[j].InstallFreeze? && trace[j + 1].webhook
    ensures forall k :: j < k <= i ==> trace[k].pass == trace[i].pass
  {
    assert Step(trace[i], actions[i]) == Some(trace[i + 1]);
    JobAppears(trace[i], actions[i], trace[i + 1]);
    j := FreezePrecedes(trace, actions, i);
  }

  /** The clean-up handler at the end of a pass never deletes the Job: the status it tests was rewritten just before. */
  lemma CleanUpNeverDeletes(trace: seq<World>, actions: seq<Action>, i: nat)
    requires Run(trace, actions) && i < |actions| && actions[i].CleanJob?
    ensures trace[i + 1].job == trace[i].job
  {
    InvHolds(trace, actions, i);
    assert Step(trace[i], actions[i]) == Some(trace[i + 1]);
  }

  /** A status on which soot leaves the webhook alone or installs it. */
  predicate Quiet(st: Status) {
    st != Ready && st != WriteLimited
  }

  /** The webhook is there, and nobody is about to remove it. */
  predicate Guarded(w: World) {
    w.webhook && Quiet(w.status) && (w.soot.Saw? ==> Quiet(w.soot.status))
  }

  /**
   * The upgrade handler meets a conflict, fetches the tenant again, finds that the desired version is
   * back at the recorded one, and records Ready in the middle of the migration.
   */
  predicate UpgradeWithdrawn(w: World, a: Action) {
    && w.pass.PastMigrate? && a == Upgrade(true)
    && w.version != "" && w.status != Upgrading && Deref(w.pass.mem.spec.replicas, 0) > 0
    && w.pass.mem.spec.version != w.version && w.spec.version == w.version
  }

  lemma GuardedStep(w: World, a: Action, w': World)
    requires Guarded(w) && Step(w, a) == Some(w')
    ensures w'.webhook
    ensures Quiet(w'.status) ==> Guarded(w')
    ensures !Quiet(w'.status) ==> a.RecordDeployment? || UpgradeWithdrawn(w, a)
  {
  }

  /** Once guarded, the webhook stays until Ready or WriteLimited is recorded, whatever interleaves. */
  lemma {:induction false} FreezeHolds(trace: seq<World>, actions: seq<Action>, i: nat)
    requires Execution(trace, actions) && Guarded(trace[0]) && i < |trace|
    requires forall k :: 0 <= k < i ==> Quiet(trace[k].status)
    ensures trace[i].webhook
    ensures Quiet(trace[i].status) ==> Guarded(trace[i])
  {
    if i > 0 {
      FreezeHolds(trace, actions, i - 1);
      assert Step(trace[i - 1], actions[i - 1]) == Some(trace[i]);
      GuardedStep(trace[i - 1], actions[i - 1], trace[i]);
    }
  }

  /** Every replica asked for is up to date and ready, no other is left, and the controller has seen the last change. */
  predicate RolledOut(d: Deployment) {
    && d.observed == d.generation && d.unavailable == 0
    && d.updated == d.ready == d.total == (if d.desired.Some? then d.desired.value else 2)
  }

  /** The status that is reported, case by case, on the fields of the specification and of the Deployment. */
  lemma StatusExactly(spec: Spec, version: string, d: Deployment)
    ensures
      var st := ComputeStatus(spec, version, d);
      var awake := spec.replicas != Some(0);
      var settled := awake && d.ready > 0 && !spec.writeLimited;
      && (st == Sleeping <==> !awake)
      && (st == NotReady <==> awake && d.ready == 0)
      && (st == WriteLimited <==> awake && d.ready > 0 && spec.writeLimited)
      && (st == Ready <==> settled && RolledOut(d))
      && (st == Upgrading <==> settled && !RolledOut(d) && version != "" && version != spec.version)
      && (st == Provisioning <==> settled && !RolledOut(d) && version == "")
      && (st == Unknown <==> settled && !RolledOut(d) && version != "" && version == spec.version)
  {}

  /** Writes are not limited, in the spec and in the memory of the pass. */
  predicate Unlimited(w: World) {
    !w.spec.writeLimited && (!w.pass.Idle? ==> !w.pass.mem.spec.writeLimited)
  }

  /** The step that ends the guarded time, without write limitations and withdrawn upgrades. */
  lemma ThawStep(w: World, a: Action, w': World)
    requires Inv(w) && Guarded(w) && Step(w, a) == Some(w') && !Quiet(w'.status)
    requires Unlimited(w) && Unlimited(w') && !UpgradeWithdrawn(w, a)
    ensures a.RecordDeployment? && w'.status == Ready
    ensures w.pass.Deployed? && RolledOut(w.pass.view) && ShowsCurrent(w, w.pass.view) && w.live <= {w.recorded}
  {
    GuardedStep(w, a, w');
  }

  /** The last quiet state of an execution that leaves the quiet ones. */
  lemma LastQuiet(trace: seq<World>, i: nat) returns (j: nat)
    requires i < |trace| && Quiet(trace[0].status)
    ensures j <= i && (forall l :: 0 <= l <= j ==> Quiet(trace[l].status))
    ensures j < i ==> !Quiet(trace[j + 1].status)
  {
    j := 0;
    while j < i && Quiet(trace[j + 1].status)
      invariant j <= i && forall l :: 0 <= l <= j ==> Quiet(trace[l].status)
    {
      j := j + 1;
    }
  }

  /** `ThawStep` inside an execution. */
  lemma ThawAt(trace: seq<World>, actions: seq<Action>, j: nat)
    requires Execution(trace, actions) && Inv(trace[0]) && Guarded(trace[0]) && j < |actions|
    requires forall l :: 0 <= l <= j ==> Quiet(trace[l].status)
    requires !Quiet(trace[j + 1].status)
    requires Unlimited(trace[j]) && Unlimited(trace[j + 1]) && !UpgradeWithdrawn(trace[j], actions[j])
    ensures actions[j].RecordDeployment? && trace[j + 1].status == Ready
    ensures trace[j].pass.Deployed? && RolledOut(trace[j].pass.view) && ShowsCurrent(trace[j], trace[j].pass.view)
    ensures trace[j].live <= {trace[j].recorded}
  {
    FreezeHolds(trace, actions, j);
    InvHolds(trace, actions, j);
    assert Step(trace[j], actions[j]) == Some(trace[j + 1]);
    ThawStep(trace[j], actions[j], trace[j + 1]);
  }

  /**
   * Without write limitations and withdrawn upgrades a freeze that held is lifted only after a pass
   * found the current generation of the Deployment fully rolled out, with no pod of another DataStore
   * left.
   */
  lemma ThawNeedsRollout(trace: seq<World>, actions: seq<Action>, i: nat) returns (j: nat)
    requires Execution(trace, actions) && Inv(trace[0]) && Guarded(trace[0]) && i < |trace|
    requires forall k :: 0 <= k <= i ==> Unlimited(trace[k])
    requires forall k :: 0 <= k < i ==> !UpgradeWithdrawn(trace[k], actions[k])
    requires !trace[i].webhook
    ensures j < i && actions[j].RecordDeployment? && trace[j + 1].status == Ready
    ensures trace[j].pass.Deployed? && ShowsCurrent(trace[j], trace[j].pass.view)
    ensures
      var d := trace[j].pass.view;
      && d.observed == d.generation && d.unavailable == 0
      && d.updated == d.ready == d.total == (if d.desired.Some? then d.desired.value else 2)
    ensures trace[j].live <= {trace[j].recorded}
  {
    j := LastQuiet(trace, i);
    FreezeHolds(trace, actions, j);
    ThawAt(trace, actions, j);
  }

  /** Every object of `origin` is in `copy`, and nothing else when the target was cleaned first. */
  predicate Carries(copy: Content, origin: Content, cleaned: bool) {
    && (forall k :: k in origin ==> k in copy && copy[k] == origin[k])
    && (cleaned ==> copy == origin)
  }

  /**
   * What a migration from `origin`, which held `objects`, to `target` is about; `cleaned` when the
   * target is asked to be cleaned all along.
   */
  datatype Move = Move(target: string, fallback: string, origin: string, objects: Content, cleaned: bool) {
    predicate Proper() {
      target != "" && origin != "" && target != origin
    }
    /** The user may edit anything else meanwhile. */
    predicate Allows(spec: Spec) {
      Effective(spec.dataStore, fallback) == target && !spec.writeLimited && (cleaned ==> spec.cleanUp)
    }
    predicate Owns(mem: Memory) {
      mem.dataStore == target && Allows(mem.spec)
    }
    predicate Untouched(w: World) {
      Allows(w.spec) && w.fallback == fallback
    }
    predicate Arrived(w: World) {
      Carries(DataOf(w, target), objects, cleaned)
    }
    /** A Job, if there is one, serves the move, and has brought the objects once it copied. */
    predicate Served(w: World) {
      w.job.Some? ==>
        var j := w.job.value;
        && j.target == target && (cleaned ==> j.cleanUp)
        && (j.phase.Complete? || (j.phase.Running? && j.phase.copied) ==> Arrived(w))
    }
  }

  /** Migrating, and the record still names the origin. */
  predicate Before(w: World, m: Move) {
    && m.Untouched(w) && Guarded(w) && w.recorded == m.origin && DataOf(w, m.origin) == m.objects && m.Served(w)
    && match w.pass
       case Idle => true
       case Started(mem) => m.Owns(mem)
       case Freezing(mem) => m.Owns(mem)
       case JobLaunched(mem) => m.Owns(mem)
       case PastMigrate(mem) => m.Owns(mem)
       case PastUpgrade(mem) => m.Owns(mem)
       case _ => false
  }

  /** No Job can copy into the target any more, and every pass in flight serves it. */
  predicate Settling(w: World, m: Move) {
    && m.Untouched(w) && w.recorded == m.target && m.Arrived(w)
    && (w.job.Some? ==> w.job.value.phase.Complete?)
    && match w.pass
       case Idle => true
       case Started(mem) => m.Owns(mem)
       case PastMigrate(mem) => m.Owns(mem)
       case PastUpgrade(mem) => m.Owns(mem)
       case Configured(mem) => m.Owns(mem)
       case Deployed(mem, _) => m.Owns(mem)
       case Reported(mem) => m.Owns(mem)
       case _ => false
  }

  /** The record names the target, and old API servers may still run. */
  predicate After(w: World, m: Move) {
    Settling(w, m) && Guarded(w)
  }

  /** Only API servers of the target run. */
  predicate Moved(w: World, m: Move) {
    && Settling(w, m)
    && w.live <= {m.target}
    && w.deployment.Some? && w.deployment.value.template.dataStore == m.target
  }

  /** A migration under way, seen at any point up to the removal of the webhook. */
  predicate Journey(w: World, m: Move) {
    m.Proper() && Inv(w) && w.webhook && (Before(w, m) || After(w, m) || Moved(w, m))
  }

  /** A step keeps the migration on its way; the webhook goes only at the end of it. */
  predicate OnTheWay(w: World, m: Move) {
    if w.webhook then Before(w, m) || After(w, m) || Moved(w, m) else Moved(w, m)
  }

  lemma JourneyMigrate(w: World, a: Action, w': World, m: Move)
    requires Journey(w, m) && (w.pass.Started? || w.pass.Freezing? || w.pass.JobLaunched?)
    requires MigrateStep(w, w.pass.mem, a) == Some(w')
    ensures OnTheWay(w', m)
  {
    assert w'.data == w.data;
  }

  lemma JourneyUpgrade(w: World, a: Action, w': World, m: Move)
    requires Journey(w, m) && w.pass.PastMigrate? && UpgradeStep(w, w.pass.mem, a) == Some(w') && !UpgradeWithdrawn(w, a)
    ensures OnTheWay(w', m)
  {
    assert w'.data == w.data;
  }

  lemma JourneyStorage(w: World, a: Action, w': World, m: Move)
    requires Journey(w, m) && w.pass.PastUpgrade? && StorageStep(w, w.pass.mem, a) == Some(w')
    ensures OnTheWay(w', m)
  {
    assert w'.data == w.data;
    if a.RecordStorage? && Before(w, m) {
      assert After(w', m);
    }
  }

  lemma JourneyDeploy(w: World, a: Action, w': World, m: Move)
    requires Journey(w, m) && (w.pass.Configured? || w.pass.Deployed? || w.pass.Reported?)
    requires DeployStep(w, w.pass.mem, a) == Some(w')
    ensures OnTheWay(w', m)
  {
    assert w'.data == w.data;
    InvDeploy(w, a, w');
    if After(w, m) && a.RecordDeployment? && !Quiet(w'.status) {
      assert Moved(w', m);
    } else if After(w, m) {
      assert After(w', m);
    }
  }

  lemma JourneyJob(w: World, a: Action, w': World, m: Move)
    requires Journey(w, m) && JobStep(w, a) == Some(w')
    ensures OnTheWay(w', m)
  {
    if Before(w, m) {
      assert DataOf(w', m.origin) == m.objects;
      assert Before(w', m);
    }
  }

  lemma JourneySoot(w: World, a: Action, w': World, m: Move)
    requires Journey(w, m) && SootStep(w, a) == Some(w')
    ensures OnTheWay(w', m)
  {
    assert w'.data == w.data;
  }

  lemma JourneyEnvironment(w: World, a: Action, w': World, m: Move)
    requires Journey(w, m) && EnvironmentStep(w, a) == Some(w') && m.Allows(w'.spec)
    ensures OnTheWay(w', m)
  {
    assert w'.data == w.data;
  }

  lemma JourneyPass(w: World, a: Action, w': World, m: Move)
    requires Journey(w, m) && PassStep(w, a) == Some(w') && !UpgradeWithdrawn(w, a)
    ensures OnTheWay(w', m)
  {
    if w.pass.Idle? || a == PassAbort {
      assert w'.data == w.data;
    } else if w.pass.Started? || w.pass.Freezing? || w.pass.JobLaunched? {
      JourneyMigrate(w, a, w', m);
    } else if w.pass.PastMigrate? {
      JourneyUpgrade(w, a, w', m);
    } else if w.pass.PastUpgrade? {
      JourneyStorage(w, a, w', m);
    } else {
      JourneyDeploy(w, a, w', m);
    }
  }

  lemma JourneyStep(w: World, a: Action, w': World, m: Move)
    requires Journey(w, m) && Step(w, a) == Some(w') && m.Allows(w'.spec) && !UpgradeWithdrawn(w, a)
    ensures OnTheWay(w', m)
    ensures w'.webhook ==> Journey(w', m)
  {
    InvStep(w, a, w');
    if a.JobStart? || a.JobCopy? || a.JobFinish? || a.JobRetry? {
      JourneyJob(w, a, w', m);
    } else if a.SootRead? || a.SootAct? {
      JourneySoot(w, a, w', m);
    } else if a.EditSpec? || a.TenantWrite? || a.Pods? || a.Observe? {
      JourneyEnvironment(w, a, w', m);
    } else {
      JourneyPass(w, a, w', m);
    }
  }

  lemma {:induction false} JourneyHolds(trace: seq<World>, actions: seq<Action>, m: Move, i: nat)
    requires Execution(trace, actions) && i < |trace|
    requires Journey(trace[0], m)
    requires forall k :: 0 <= k <= i ==> m.Allows(trace[k].spec)
    requires forall k :: 0 <= k < i ==> trace[k].webhook && !UpgradeWithdrawn(trace[k], actions[k])
    ensures OnTheWay(trace[i], m)
    ensures trace[i].webhook ==> Journey(trace[i], m)
  {
    if i > 0 {
      JourneyHolds(trace, actions, m, i - 1);
      assert Step(trace[i - 1], actions[i - 1]) == Some(trace[i]);
      JourneyStep(trace[i - 1], actions[i - 1], trace[i], m);
    }
  }

  /** From the creation of the Job to the write of the Migrating status: the Job may already be anywhere. */
  predicate Launching(w: World, m: Move) {
    && m.Proper() && Inv(w) && w.webhook
    && m.Untouched(w) && w.recorded == m.origin && DataOf(w, m.origin) == m.objects && m.Served(w)
    && w.pass.JobLaunched? && m.Owns(w.pass.mem)
  }

  lemma LaunchBegins(w: World, w': World, m: Move)
    requires Inv(w) && Step(w, JobCreate) == Some(w') && w.webhook
    requires m.Untouched(w) && m.Owns(w.pass.mem) && m.origin == w.recorded && m.objects == DataOf(w, w.recorded)
    ensures Launching(w', m)
  {
    InvStep(w, JobCreate, w');
  }

  lemma LaunchEnds(w: World, w': World, m: Move)
    requires Launching(w, m) && Step(w, RecordMigrating) == Some(w') && (w.soot.Saw? ==> Quiet(w.soot.status))
    ensures Journey(w', m)
  {
    InvStep(w, RecordMigrating, w');
    assert Before(w', m);
  }

  lemma LaunchStep(w: World, a: Action, w': World, m: Move)
    requires Launching(w, m) && Step(w, a) == Some(w')
    requires w'.webhook && m.Allows(w'.spec) && w'.pass.JobLaunched?
    ensures Launching(w', m)
  {
    InvStep(w, a, w');
    assert DataOf(w', m.origin) == m.objects;
  }

  lemma {:induction false} LaunchHolds(trace: seq<World>, actions: seq<Action>, m: Move, i: nat)
    requires Execution(trace, actions) && 1 <= i < |trace| && Launching(trace[1], m)
    requires forall k :: 1 <= k <= i ==> trace[k].webhook && m.Allows(trace[k].spec) && trace[k].pass.JobLaunched?
    ensures Launching(trace[i], m)
  {
    if i > 1 {
      LaunchHolds(trace, actions, m, i - 1);
      assert Step(trace[i - 1], actions[i - 1]) == Some(trace[i]);
      LaunchStep(trace[i - 1], actions[i - 1], trace[i], m);
    }
  }

  /** The rest of an execution is one. */
  lemma SuffixExecution(trace: seq<World>, actions: seq<Action>, n: nat)
    requires Execution(trace, actions) && n <= |actions|
    ensures Execution(trace[n..], actions[n..])
  {
    forall k {:trigger actions[n..][k]} | 0 <= k < |actions[n..]|
      ensures Step(trace[n..][k], actions[n..][k]) == Some(trace[n..][k + 1])
    {
      assert Step(trace[n + k], actions[n + k]) == Some(trace[n + k + 1]);
    }
  }

  /** A pass that creates the Job and gets to record Migrating has the journey begin. */
  lemma LaunchLeads(trace: seq<World>, actions: seq<Action>, m: Move, r: nat)
    requires Execution(trace, actions) && Inv(trace[0]) && 0 < r < |actions|
    requires actions[0] == JobCreate && actions[r] == RecordMigrating
    requires m.Owns(trace[0].pass.mem) && m.fallback == trace[0].fallback
    requires m.origin == trace[0].recorded && m.objects == DataOf(trace[0], trace[0].recorded)
    requires forall k :: 0 < k <= r ==> trace[k].pass.JobLaunched?
    requires trace[r].soot.Saw? ==> Quiet(trace[r].soot.status)
    requires forall k :: 0 <= k <= r + 1 ==> m.Allows(trace[k].spec)
    requires forall k :: 0 <= k <= r ==> trace[k].webhook
    ensures Journey(trace[r + 1], m)
  {
    assert Step(trace[0], actions[0]) == Some(trace[1]);
    LaunchBegins(trace[0], trace[1], m);
    LaunchHolds(trace, actions, m, r);
    assert Step(trace[r], actions[r]) == Some(trace[r + 1]);
    LaunchEnds(trace[r], trace[r + 1], m);
  }

  /**
   * No tenant write is lost.  Take an execution that starts with the creation of the Job, in which
   * that pass gets to record Migrating, at `r`, however far the Job is by then, and no soot step still
   * remembers Ready.  Whatever the user edits, as long as the target stays the same, writes are not
   * limited, and no upgrade is withdrawn under the upgrade handler, the first state without the
   * webhook has the record on the target, runs only API servers of the target, and the target holds
   * every object the origin held when the Job was created, and nothing else if cleaning it was asked
   * for all along.
   */
  lemma MigrationLosesNothing(trace: seq<World>, actions: seq<Action>, r: nat, i: nat, m: Move)
    requires Execution(trace, actions) && Inv(trace[0]) && 0 < r < i < |trace|
    requires actions[0] == JobCreate && actions[r] == RecordMigrating
    requires m.Owns(trace[0].pass.mem) && m.fallback == trace[0].fallback
    requires m.origin == trace[0].recorded && m.objects == DataOf(trace[0], trace[0].recorded)
    requires forall k :: 0 < k <= r ==> trace[k].pass.JobLaunched?
    requires trace[r].soot.Saw? ==> Quiet(trace[r].soot.status)
    requires forall k :: 0 <= k <= i ==> m.Allows(trace[k].spec)
    requires forall k :: r < k < i ==> !UpgradeWithdrawn(trace[k], actions[k])
    requires (forall k :: 0 <= k < i ==> trace[k].webhook) && !trace[i].webhook
    ensures trace[i].recorded == m.target && trace[i].live <= {m.target}
    ensures Carries(DataOf(trace[i], m.target), DataOf(trace[0], trace[0].recorded), m.cleaned)
  {
    LaunchLeads(trace, actions, m, r);
    SuffixExecution(trace, actions, r + 1);
    JourneyHolds(trace[r + 1..], actions[r + 1..], m, i - r - 1);
  }
}
