/** What the parties of the migration get done when nobody disturbs them. */
module MigrationProgress {
  import opened Common
  import opened Migration
  import opened MigrationSafety

  /** The state after a sequence of actions, if each is possible. */
  function Play(w: World, actions: seq<Action>): Option<World>
    decreases |actions|
  {
    if actions == [] then Some(w)
    else if Step(w, actions[0]).None? then None
    else Play(Step(w, actions[0]).value, actions[1..])
  }

  lemma {:induction false} PlayAppend(w: World, a: seq<Action>, b: seq<Action>)
    ensures Play(w, a + b) == if Play(w, a).None? then None else Play(Play(w, a).value, b)
    decreases |a|
  {
    if a == [] {
      assert a + b == b;
    } else {
      assert (a + b)[0] == a[0] && (a + b)[1..] == a[1..] + b;
      if Step(w, a[0]).Some? { PlayAppend(Step(w, a[0]).value, a[1..], b); }
    }
  }

  lemma Play1(w: World, a: Action)
    ensures Play(w, [a]) == Step(w, a)
  {
    assert [a][1..] == [];
    if Step(w, a).Some? { assert Play(Step(w, a).value, []) == Some(Step(w, a).value); }
  }

  lemma Play2(w: World, a: Action, b: Action)
    ensures Play(w, [a, b]) == if Step(w, a).None? then None else Step(Step(w, a).value, b)
  {
    assert [a, b] == [a] + [b];
    PlayAppend(w, [a], [b]);
    Play1(w, a);
    if Step(w, a).Some? { Play1(Step(w, a).value, b); }
  }

  lemma Play3(w: World, a: Action, b: Action, c: Action)
    ensures Play(w, [a, b, c]) == if Play(w, [a, b]).None? then None else Step(Play(w, [a, b]).value, c)
  {
    assert [a, b, c] == [a, b] + [c];
    PlayAppend(w, [a, b], [c]);
    if Play(w, [a, b]).Some? { Play1(Play(w, [a, b]).value, c); }
  }

  // ---------- soot ----------

  /** Soot brings the webhook in line with the recorded status: there under Migrating, gone under Ready and WriteLimited, else as it was. */
  lemma SootFollowsStatus(w: World)
    requires w.soot.Resting?
    ensures
      var frozen := w.status == Migrating || (w.webhook && w.status != Ready && w.status != WriteLimited);
      Play(w, [SootRead, SootAct]) == Some(w.(webhook := frozen))
  {
    Play2(w, SootRead, SootAct);
  }

  // ---------- the migrate handler ----------

  /** The recorded data store is `origin`, the desired one is another, and no pass is under way. */
  predicate Due(w: World) {
    && w.pass.Idle? && w.recorded != "" && Effective(w.spec.dataStore, w.fallback) != ""
    && w.recorded != Effective(w.spec.dataStore, w.fallback)
  }

  /** The tenant as a pass reads it. */
  function Seen(w: World): Memory {
    var name := Effective(w.spec.dataStore, w.fallback);
    Memory(w.spec.(dataStore := name), name)
  }

  /** A pass starts exactly when a data store is named or there is a default, and works with the default where none is named. */
  lemma PassUsesDefault(w: World)
    requires w.pass.Idle?
    ensures
      var name := if w.spec.dataStore != "" then w.spec.dataStore else w.fallback;
      Step(w, PassStart) == if name == "" then None else Some(w.(pass := Started(Memory(w.spec.(dataStore := name), name))))
  {}

  lemma PassFreezes(w: World)
    requires Due(w)
    ensures Play(w, [PassStart, InstallFreeze]) == Some(w.(pass := Freezing(Seen(w)), webhook := true))
  {
    Play2(w, PassStart, InstallFreeze);
  }

  /** A Job made for the wanted target with the wanted options. */
  function Wanted(w: World): Job {
    Job(Effective(w.spec.dataStore, w.fallback), w.spec.options, w.spec.cleanUp, Pending)
  }

  /** Behind the freeze exactly one thing can happen to the Job: it is created, refused and deleted, waited for or accepted. */
  lemma FrozenPassDecides(w: World, mem: Memory)
    requires w.pass == Freezing(mem)
    ensures
      var fits := w.job.Some? && w.job.value.target == mem.spec.dataStore && w.job.value.options == mem.spec.options
                  && w.job.value.cleanUp == mem.spec.cleanUp;
      && Step(w, JobCreate) == (if w.job.Some? then None
           else Some(w.(pass := JobLaunched(mem), job := Some(Job(mem.spec.dataStore, mem.spec.options, mem.spec.cleanUp, Pending)))))
      && Step(w, JobRefused) == (if w.job.Some? && !fits then Some(w.(pass := Idle, job := None)) else None)
      && Step(w, JobWait) == (if fits && !w.job.value.phase.Complete? then Some(w.(pass := Idle)) else None)
      && Step(w, JobDone) == (if fits && w.job.value.phase.Complete? then Some(w.(pass := PastMigrate(mem))) else None)
  {}

  /** A pass that finds no Job leaves the tenant frozen and Migrating, with the wanted Job. */
  lemma PassLaunches(w: World)
    requires Due(w) && w.job.None?
    ensures Play(w, [PassStart, InstallFreeze] + [JobCreate, RecordMigrating])
      == Some(w.(webhook := true, status := Migrating, job := Some(Wanted(w))))
  {
    PassFreezes(w);
    PlayAppend(w, [PassStart, InstallFreeze], [JobCreate, RecordMigrating]);
    Play2(w.(pass := Freezing(Seen(w)), webhook := true), JobCreate, RecordMigrating);
  }

  /** A Job made for something else is deleted by one pass and replaced by the next. */
  lemma StaleJobIsReplaced(w: World)
    requires Due(w) && w.job.Some? && !SameArguments(w.job.value, Seen(w).spec)
    ensures Play(w, [PassStart, InstallFreeze] + [JobRefused]) == Some(w.(webhook := true, job := None))
    ensures Play(w, [PassStart, InstallFreeze] + [JobRefused] + ([PassStart, InstallFreeze] + [JobCreate, RecordMigrating]))
      == Some(w.(webhook := true, status := Migrating, job := Some(Wanted(w))))
  {
    var pass := [PassStart, InstallFreeze] + [JobRefused];
    PassFreezes(w);
    PlayAppend(w, [PassStart, InstallFreeze], [JobRefused]);
    Play1(w.(pass := Freezing(Seen(w)), webhook := true), JobRefused);
    var w' := w.(webhook := true, job := None);
    PlayAppend(w, pass, [PassStart, InstallFreeze] + [JobCreate, RecordMigrating]);
    PassLaunches(w');
  }

  // ---------- the Job ----------

  /** The Job leaves the origin's objects in the target, next to what it held unless it was to be cleaned. */
  lemma JobCopies(w: World)
    requires w.job.Some? && w.job.value.phase == Pending && w.recorded != "" && w.recorded != w.job.value.target
    ensures
      var j := w.job.value;
      Play(w, [JobStart, JobCopy, JobFinish]) == Some(w.(
        job := Some(j.(phase := Complete(w.recorded))),
        data := w.data[j.target := (if j.cleanUp then map[] else DataOf(w, j.target)) + DataOf(w, w.recorded)]))
  {
    Play2(w, JobStart, JobCopy);
    Play3(w, JobStart, JobCopy, JobFinish);
  }

  // ---------- the switch ----------

  /** A pass that finds the wanted Job complete records the new data store, when no upgrade is due. */
  lemma PassSwitches(w: World)
    requires Due(w) && w.job.Some? && SameArguments(w.job.value, Seen(w).spec) && w.job.value.phase.Complete?
    requires w.version == "" || w.version == w.spec.version
    ensures Play(w, [PassStart, InstallFreeze] + [JobDone, Upgrade(false), RecordStorage(false)])
      == Some(w.(webhook := true, recorded := Effective(w.spec.dataStore, w.fallback), pass := Configured(Seen(w))))
  {
    PassFreezes(w);
    var f := w.(pass := Freezing(Seen(w)), webhook := true);
    PlayAppend(w, [PassStart, InstallFreeze], [JobDone, Upgrade(false), RecordStorage(false)]);
    Play2(f, JobDone, Upgrade(false));
    Play3(f, JobDone, Upgrade(false), RecordStorage(false));
  }

  /**
   * An undisturbed migration arrives: from any state in which one is due and no Job is left over, the
   * passes and the Job take the record to the target, with the origin's objects copied.
   */
  lemma UndisturbedMigrationArrives(w: World)
    requires Due(w) && w.job.None? && (w.version == "" || w.version == w.spec.version)
    ensures
      var target := Effective(w.spec.dataStore, w.fallback);
      var launch, copy := [PassStart, InstallFreeze] + [JobCreate, RecordMigrating], [JobStart, JobCopy, JobFinish];
      var arrive := [PassStart, InstallFreeze] + [JobDone, Upgrade(false), RecordStorage(false)];
      var end := Play(w, launch + (copy + arrive));
      && end.Some? && end.value.recorded == target && end.value.status == Migrating && end.value.webhook
      && DataOf(end.value, target) == (if w.spec.cleanUp then map[] else DataOf(w, target)) + DataOf(w, w.recorded)
  {
    var launch, copy := [PassStart, InstallFreeze] + [JobCreate, RecordMigrating], [JobStart, JobCopy, JobFinish];
    var arrive := [PassStart, InstallFreeze] + [JobDone, Upgrade(false), RecordStorage(false)];
    PassLaunches(w);
    var w1 := Play(w, launch).value;
    JobCopies(w1);
    var w2 := Play(w1, copy).value;
    PassSwitches(w2);
    PlayAppend(w, launch, copy + arrive);
    PlayAppend(w1, copy, arrive);
  }

  // ---------- the rollout ----------

  /** The Deployment handler finds its template in place and every replica up. */
  predicate Finished(w: World, rest: nat) {
    && w.pass.Configured? && w.pass.mem.spec.replicas != Some(0) && !w.pass.mem.spec.writeLimited
    && w.deployment.Some? && RolledOut(w.deployment.value) && w.deployment.value.ready > 0
    && w.deployment.value.template == Template(w.recorded, w.pass.mem.spec.version, rest)
    && w.deployment.value.desired == w.pass.mem.spec.replicas
  }

  lemma FinishedRolloutReports(w: World, rest: nat)
    requires Finished(w, rest)
    ensures Play(w, [WriteDeployment(rest), RecordDeployment(false), CleanJob])
      == Some(w.(pass := Idle, status := Ready, version := w.pass.mem.spec.version))
  {
    StatusExactly(w.pass.mem.spec, w.version, w.deployment.value);
    Play2(w, WriteDeployment(rest), RecordDeployment(false));
    Play3(w, WriteDeployment(rest), RecordDeployment(false), CleanJob);
  }

  /** A finished rollout is reported Ready, and soot ends the freeze. */
  lemma FinishedRolloutThaws(w: World, rest: nat)
    requires Finished(w, rest) && w.soot.Resting?
    ensures Play(w, [WriteDeployment(rest), RecordDeployment(false), CleanJob] + [SootRead, SootAct])
      == Some(w.(pass := Idle, status := Ready, version := w.pass.mem.spec.version, webhook := false))
  {
    FinishedRolloutReports(w, rest);
    PlayAppend(w, [WriteDeployment(rest), RecordDeployment(false), CleanJob], [SootRead, SootAct]);
    SootFollowsStatus(w.(pass := Idle, status := Ready, version := w.pass.mem.spec.version));
  }

  /** A changed template or number of replicas starts a rollout, which keeps the tenant out of Ready until it is observed. */
  lemma ChangedTemplateRollsOut(w: World, rest: nat)
    requires w.pass.Configured? && Inv(w) && w.deployment.Some?
    requires
      var mem := w.pass.mem;
      w.deployment.value.template != Template(w.recorded, mem.spec.version, rest) || w.deployment.value.desired != mem.spec.replicas
    ensures
      var end := Play(w, [WriteDeployment(rest), RecordDeployment(false)]);
      && end.Some? && end.value.status != Ready && end.value.deployment.Some?
      && end.value.deployment.value.template == Template(w.recorded, w.pass.mem.spec.version, rest)
      && end.value.deployment.value.generation > end.value.deployment.value.observed
  {
    Play2(w, WriteDeployment(rest), RecordDeployment(false));
    var w1 := Step(w, WriteDeployment(rest)).value;
    StatusExactly(w.pass.mem.spec, w.version, w1.pass.view);
  }

  /** A rotation of the CA shows in the status of a pass past the upgrade handler, unless the tenant was never up. */
  lemma RotationShows(w: World)
    ensures Step(w, RotateCA) ==
      if w.pass.PastUpgrade? && w.status != Unset && w.status != Provisioning then Some(w.(status := CARotating)) else None
  {}

  /** The version becomes the recorded one exactly when the tenant is reported asleep or is fully rolled out and writable. */
  lemma VersionIsRecorded(w: World)
    requires w.pass.Deployed?
    ensures
      var spec, d, w' := w.pass.mem.spec, w.pass.view, Step(w, RecordDeployment(false));
      var asleep := spec.replicas == Some(0);
      && w'.Some?
      && w'.value.version == if asleep || (d.ready > 0 && !spec.writeLimited && RolledOut(d)) then spec.version else w.version
  {
    StatusExactly(w.pass.mem.spec, w.version, w.pass.view);
  }

  /** The upgrade handler records Upgrading exactly for a changed version of a tenant with replicas that is not upgrading yet. */
  lemma UpgradeHandlerRecords(w: World)
    requires w.pass.PastMigrate?
    ensures
      var mem := w.pass.mem;
      var starts := w.version != "" && w.version != mem.spec.version && w.status != Upgrading && mem.spec.replicas.Some? && mem.spec.replicas != Some(0);
      Step(w, Upgrade(false)) == Some(w.(pass := PastUpgrade(mem), status := if starts then Upgrading else w.status))
  {}
}
