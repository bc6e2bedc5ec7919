/**
 * Runs of a new tenant on which the freeze does not protect its writes.  Each drops one condition of
 * MigrationSafety.MigrationLosesNothing: the target stays the same, no soot step remembers Ready when
 * Migrating is recorded, writes are not limited, the pass that created the Job records Migrating, and
 * no upgrade is withdrawn under the upgrade handler.
 */
module MigrationLimits {
  import opened Common
  import opened Migration
  import opened MigrationSafety

  /** Some execution leads from `w` to `w'`. */
  ghost predicate Leads(w: World, w': World) {
    exists trace, actions :: Execution(trace, actions) && trace[0] == w && trace[|actions|] == w'
  }

  const OnA := Spec("a", 0, true, "v1", false, Some(2))

  function OnB(limited: bool): Spec { OnA.(dataStore := "b", writeLimited := limited) }

  const RolledOut := Deployment(Template("a", "v1", 0), Some(2), 1, 1, 2, 2, 2, 0)

  /** A tenant that runs on DataStore "a", fully rolled out, with one object stored. */
  const Settled := World(
    "", OnA, "a", "v1", Ready, None, false, Resting, Idle, Some(RolledOut), {"a"}, map["a" := map["x" := "1"]])

  lemma Begin(w: World)
    ensures Leads(w, w)
  {
    assert Execution([w], []);
  }

  lemma Then(w: World, w': World, a: Action) returns (w'': World)
    requires Leads(w, w') && Step(w', a).Some?
    ensures Leads(w, w'') && w'' == Step(w', a).value
  {
    var trace, actions :| Execution(trace, actions) && trace[0] == w && trace[|actions|] == w';
    w'' := Step(w', a).value;
    var trace', actions' := trace + [w''], actions + [a];
    forall i {:trigger actions'[i]} | 0 <= i < |actions'|
      ensures Step(trace'[i], actions'[i]) == Some(trace'[i + 1])
    {
      if i < |actions| {
        assert actions'[i] == actions[i];
      }
    }
    assert Execution(trace', actions');
  }

  /** The same tenant when it was created. */
  const Fresh := World("", OnA, "", "", Unset, None, false, Resting, Idle, None, {}, map[])

  /** A first pass records "a" and writes the Deployment, whose pods are not up yet. */
  lemma FirstPass() returns (w: World)
    ensures Leads(Fresh, w)
    ensures var d := Deployment(Template("a", "v1", 0), Some(2), 1, 0, 0, 0, 0, 0);
            w == Fresh.(recorded := "a", status := NotReady, deployment := Some(d))
  {
    Begin(Fresh);
    w := Start(Fresh, Fresh);
    w := Skip(Fresh, w);
    w := Then(Fresh, w, Upgrade(false));
    w := Then(Fresh, w, RecordStorage(false));
    w := Deploy(Fresh, w);
    w := Then(Fresh, w, RecordDeployment(false));
    w := Finish(Fresh, w);
  }

  /** The pods come up, and the tenant writes an object. */
  lemma ComeUp() returns (w: World)
    ensures Leads(Fresh, w) && w == Settled.(version := "", status := NotReady)
  {
    w := FirstPass();
    w := Then(Fresh, w, Pods({"a"}));
    w := Then(Fresh, w, Observe(2, 2, 2, 0));
    w := Then(Fresh, w, TenantWrite("a", "x", "1"));
  }

  /** A second pass reports Ready. */
  lemma SettledIsReachable()
    ensures Initial(Fresh) && Leads(Fresh, Settled)
  {
    var w := ComeUp();
    w := Start(Fresh, w);
    w := Skip(Fresh, w);
    w := Then(Fresh, w, Upgrade(false));
    w := Then(Fresh, w, RecordStorage(false));
    w := Deploy(Fresh, w);
    w := Then(Fresh, w, RecordDeployment(false));
    w := Finish(Fresh, w);
  }

  /** A tenant write accepted on "a" that the new home of the tenant does not have. */
  predicate LostWrite(w: World, key: string) {
    w.recorded == "b" && key in DataOf(w, "a") && key !in DataOf(w, "b")
  }

  // Single steps, as far as the scenarios below need them.

  lemma Edit(o: World, w: World, spec: Spec) returns (w': World)
    requires Leads(o, w)
    ensures Leads(o, w') && w' == w.(spec := spec)
  {
    w' := Then(o, w, EditSpec(spec));
  }

  lemma Start(o: World, w: World) returns (w': World)
    requires Leads(o, w) && w.pass == Idle && w.spec.dataStore != ""
    ensures Leads(o, w') && w' == w.(pass := Started(Memory(w.spec, w.spec.dataStore)))
  {
    w' := Then(o, w, PassStart);
  }

  lemma Freeze(o: World, w: World) returns (w': World)
    requires Leads(o, w) && w.pass.Started? && Moving(w, w.pass.mem)
    ensures Leads(o, w') && w' == w.(pass := Freezing(w.pass.mem), webhook := true)
  {
    w' := Then(o, w, InstallFreeze);
  }

  lemma Create(o: World, w: World) returns (w': World)
    requires Leads(o, w) && w.pass.Freezing? && w.job.None?
    ensures Leads(o, w')
    ensures var s := w.pass.mem.spec;
            w' == w.(pass := JobLaunched(w.pass.mem), job := Some(Job(s.dataStore, s.options, s.cleanUp, Pending)))
  {
    w' := Then(o, w, JobCreate);
  }

  lemma Announce(o: World, w: World) returns (w': World)
    requires Leads(o, w) && w.pass.JobLaunched?
    ensures Leads(o, w') && w' == w.(pass := Idle, status := Migrating)
  {
    w' := Then(o, w, RecordMigrating);
  }

  lemma Accept(o: World, w: World) returns (w': World)
    requires Leads(o, w) && w.pass.Freezing? && w.job.Some?
    requires SameArguments(w.job.value, w.pass.mem.spec) && w.job.value.phase.Complete?
    ensures Leads(o, w') && w' == w.(pass := PastMigrate(w.pass.mem))
  {
    w' := Then(o, w, JobDone);
  }

  lemma Skip(o: World, w: World) returns (w': World)
    requires Leads(o, w) && w.pass.Started? && !Moving(w, w.pass.mem)
    ensures Leads(o, w') && w' == w.(pass := PastMigrate(w.pass.mem))
  {
    w' := Then(o, w, MigrateSkip);
  }

  lemma Record(o: World, w: World) returns (w': World)
    requires Leads(o, w) && w.pass.PastMigrate? && w.version == w.pass.mem.spec.version
    ensures Leads(o, w') && w' == w.(pass := Configured(w.pass.mem), recorded := w.pass.mem.dataStore)
  {
    w' := Then(o, w, Upgrade(false));
    w' := Then(o, w', RecordStorage(false));
  }

  lemma Deploy(o: World, w: World) returns (w': World)
    requires Leads(o, w) && w.pass.Configured?
    ensures Leads(o, w')
    ensures var mem := w.pass.mem;
            var d := WriteTemplate(w.deployment, Template(w.recorded, mem.spec.version, 0), mem.spec.replicas);
            w' == w.(pass := Deployed(mem, d), deployment := Some(d))
  {
    w' := Then(o, w, WriteDeployment(0));
  }

  lemma Report(o: World, w: World, st: Status) returns (w': World)
    requires Leads(o, w) && w.pass.Deployed? && w.version == w.pass.mem.spec.version
    requires st == ComputeStatus(w.pass.mem.spec, w.version, w.pass.view)
    ensures Leads(o, w') && w' == w.(pass := Reported(w.pass.mem), status := st)
  {
    w' := Then(o, w, RecordDeployment(false));
  }

  lemma Finish(o: World, w: World) returns (w': World)
    requires Leads(o, w) && w.pass.Reported? && w.status != Migrating
    ensures Leads(o, w') && w' == w.(pass := Idle)
  {
    w' := Then(o, w, CleanJob);
  }

  lemma Look(o: World, w: World) returns (w': World)
    requires Leads(o, w) && w.soot == Resting
    ensures Leads(o, w') && w' == w.(soot := Saw(w.status))
  {
    w' := Then(o, w, SootRead);
  }

  lemma Remove(o: World, w: World) returns (w': World)
    requires Leads(o, w) && (w.soot == Saw(Ready) || w.soot == Saw(WriteLimited))
    ensures Leads(o, w') && w' == w.(soot := Resting, webhook := false)
  {
    w' := Then(o, w, SootAct);
  }

  lemma Put(o: World, w: World, key: string, val: string) returns (w': World)
    requires Leads(o, w) && !w.webhook && w.live == {"a"}
    ensures Leads(o, w') && w' == w.(data := w.data["a" := DataOf(w, "a")[key := val]])
  {
    w' := Then(o, w, TenantWrite("a", key, val));
  }

  /** The Job runs from start to end. */
  lemma Copy(o: World, w: World) returns (w': World)
    requires Leads(o, w) && w.job.Some? && w.job.value.phase == Pending && w.job.value.cleanUp
    requires w.recorded != "" && w.recorded != w.job.value.target
    ensures Leads(o, w')
    ensures w' == w.(job := Some(w.job.value.(phase := Complete(w.recorded))),
                     data := w.data[w.job.value.target := map[] + DataOf(w, w.recorded)])
  {
    w' := Then(o, w, JobStart);
    w' := Then(o, w', JobCopy);
    w' := Then(o, w', JobFinish);
  }

  /** The user asks for "b", and a pass freezes the tenant and launches the Job. */
  lemma Launch(o: World, w: World, limited: bool) returns (w': World)
    requires Leads(o, w) && w.pass == Idle && w.recorded == "a" && w.job == None
    ensures Leads(o, w')
    ensures w' == w.(spec := OnB(limited), webhook := true, status := Migrating, job := Some(Job("b", 0, true, Pending)))
  {
    w' := Edit(o, w, OnB(limited));
    w' := Start(o, w');
    w' := Freeze(o, w');
    w' := Create(o, w');
    w' := Announce(o, w');
  }

  /** A pass finds the complete Job for "b" and records it. */
  lemma Switch(o: World, w: World) returns (w': World)
    requires Leads(o, w) && w.pass == Idle && w.recorded == "a" && w.version == w.spec.version && w.spec.dataStore == "b"
    requires w.job.Some? && SameArguments(w.job.value, w.spec) && w.job.value.phase.Complete?
    ensures Leads(o, w') && w' == w.(webhook := true, recorded := "b", pass := Configured(Memory(w.spec, "b")))
  {
    w' := Start(o, w);
    w' := Freeze(o, w');
    w' := Accept(o, w');
    w' := Record(o, w');
  }

  /** The user returns to "a": the pass has nothing to migrate, reports Ready, and soot lifts the freeze. */
  lemma GoBack(o: World, w: World) returns (w': World)
    requires Leads(o, w) && w.pass == Idle && w.recorded == "a" && w.version == "v1" && w.soot == Resting
    requires w.deployment == Some(RolledOut)
    ensures Leads(o, w') && w' == w.(spec := OnA, status := Ready, webhook := false)
  {
    w' := Edit(o, w, OnA);
    w' := Start(o, w');
    w' := Skip(o, w');
    w' := Record(o, w');
    w' := Deploy(o, w');
    w' := Report(o, w', Ready);
    w' := Finish(o, w');
    w' := Look(o, w');
    w' := Remove(o, w');
  }

  /**
   * The spec goes to "b", back to "a" and to "b" again.  The complete Job of the first attempt is
   * never deleted, so the second one switches at once to the stale copy.
   */
  lemma SpecMovedBack() returns (w: World)
    ensures Initial(Fresh) && Leads(Fresh, w) && LostWrite(w, "y")
  {
    SettledIsReachable();
    w := Launch(Fresh, Settled, false);
    w := Copy(Fresh, w);
    w := GoBack(Fresh, w);
    w := Put(Fresh, w, "y", "2");
    w := Edit(Fresh, w, OnB(false));
    w := Switch(Fresh, w);
  }

  /** A soot step that read Ready before the migration removes the webhook while Migrating is recorded. */
  lemma SootRemembersReady() returns (w: World)
    ensures Initial(Fresh) && Leads(Fresh, w) && LostWrite(w, "y")
  {
    SettledIsReachable();
    w := Look(Fresh, Settled);
    w := Launch(Fresh, w, false);
    w := Copy(Fresh, w);
    w := Remove(Fresh, w);
    w := Put(Fresh, w, "y", "2");
    w := Switch(Fresh, w);
  }

  /** With write limitations the freeze goes before the old API servers do. */
  lemma WriteLimitedThawsEarly() returns (w: World)
    ensures Initial(Fresh) && Leads(Fresh, w) && LostWrite(w, "y")
  {
    SettledIsReachable();
    w := Launch(Fresh, Settled, true);
    w := Copy(Fresh, w);
    w := Switch(Fresh, w);
    w := Deploy(Fresh, w);
    w := Report(Fresh, w, WriteLimited);
    w := Look(Fresh, w);
    w := Remove(Fresh, w);
    w := Put(Fresh, w, "y", "2");
  }

  /**
   * The pass is cut short between the creation of the Job and the write of Migrating.  Later passes
   * wait for the Job without writing a status, so Ready stays recorded and soot lifts the freeze.
   */
  lemma AbortedPassStaysReady() returns (w: World)
    ensures Initial(Fresh) && Leads(Fresh, w) && LostWrite(w, "y")
  {
    SettledIsReachable();
    w := Edit(Fresh, Settled, OnB(false));
    w := Start(Fresh, w);
    w := Freeze(Fresh, w);
    w := Create(Fresh, w);
    w := Then(Fresh, w, PassAbort);
    w := Copy(Fresh, w);
    w := Look(Fresh, w);
    w := Remove(Fresh, w);
    w := Put(Fresh, w, "y", "2");
    w := Switch(Fresh, w);
  }

  /**
   * The desired version goes to "v2" and back while a pass is past the migrate handler.  The upgrade
   * handler meets the conflict, finds the recorded version desired, and records Ready; the record
   * still names "a", and soot lifts the freeze.
   */
  lemma UpgradeWithdrawnThawsEarly() returns (w: World, w': World)
    ensures Initial(Fresh) && Leads(Fresh, w) && UpgradeWithdrawn(w, Upgrade(true))
    ensures Leads(Fresh, w') && LostWrite(w', "y")
  {
    SettledIsReachable();
    w := Launch(Fresh, Settled, false);
    w := Copy(Fresh, w);
    w := Edit(Fresh, w, OnB(false).(version := "v2"));
    w := Start(Fresh, w);
    w := Freeze(Fresh, w);
    w := Accept(Fresh, w);
    w := Edit(Fresh, w, OnB(false));
    w' := WithdrawnWriteIsLost(w);
  }

  lemma Withdraw(w: World) returns (w': World)
    requires Leads(Fresh, w) && UpgradeWithdrawn(w, Upgrade(true))
    ensures Leads(Fresh, w') && w' == w.(pass := PastUpgrade(w.pass.mem.(spec := w.spec)), status := Ready)
  {
    w' := Then(Fresh, w, Upgrade(true));
  }

  lemma WithdrawnWriteIsLost(w: World) returns (w': World)
    requires Leads(Fresh, w) && UpgradeWithdrawn(w, Upgrade(true)) && w.pass.mem.dataStore == "b"
    requires w.recorded == "a" && w.live == {"a"} && w.soot == Resting && "y" !in DataOf(w, "b")
    ensures Leads(Fresh, w') && LostWrite(w', "y")
  {
    w' := Withdraw(w);
    w' := Look(Fresh, w');
    w' := Remove(Fresh, w');
    w' := Put(Fresh, w', "y", "2");
    w' := Then(Fresh, w', RecordStorage(false));
  }
}
