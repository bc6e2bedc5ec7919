/** What a build leaves in each container, and where each mounts its volumes. */
module PodContents {
  import opened NamedLists
  import opened PodBuilder
  import opened PodMounts
  import opened PodSafety
  import opened PodSettles
  import ExtraArguments

  /** A build starts from the containers of the Deployment, of which a reset touches the kube-apiserver's only. */
  lemma StartGet(d: Deployment, c: Config, n: Name)
    requires Inv(d) && n in CONTAINERS && n != KubeApiServer
    ensures Get(Start(d, c), n, NOCONTAINER) == Get(d.containers, n, NOCONTAINER)
  {
    var s := d.containers;
    var u, t := Front(s, KubeApiServer), Tail(s, KubeApiServer);
    FrontTail(s, KubeApiServer);
    GetBehind(u, t, CONTAINERS, n, NOCONTAINER);
    GetBehind(u, t, CONTAINERS, KubeApiServer, NOCONTAINER);
    var f := ExtraArguments.Reset(FlagsOf(d), SetupOf(c));
    if f.args.Some? {
      var b := Get(s, KubeApiServer, NOCONTAINER).(args := f.args.value);
      PutBehind(u, t, CONTAINERS, KubeApiServer, b);
      var t' := Put(t, KubeApiServer, b);
      TailKeeps(s, KubeApiServer, CONTAINERS);
      PutKeeps(t, KubeApiServer, b, CONTAINERS);
      GetBehind(u, t', CONTAINERS, KubeApiServer, NOCONTAINER);
      PutGet(t, KubeApiServer, b, n, NOCONTAINER);
    }
  }

  /** Each container besides the kube-apiserver is what its edit makes of the one that was there. */
  lemma BuiltGet(d: Deployment, c: Config, i: nat)
    requires Proper(c) && Inv(d) && i < |OtherOps(c)|
    ensures
      var s, op := Build(d, c).containers, OtherOps(c)[i];
      && Has(s, op.name) == op.Write?
      && (op.Write? ==> Get(s, op.name, NOCONTAINER) == op.f(Get(d.containers, op.name, NOCONTAINER)))
  {
    var t, op := Start(d, c), OtherOps(c)[i];
    ResetFormed(d, c);
    ContainersAfter(d, c);
    OtherOpsAreTame(c);
    SystemGet(t, c, i);
    GetBehind(c.containers, System(t, c), CONTAINERS, op.name, NOCONTAINER);
    StartGet(d, c, op.name);
  }

  // ---------- scheduler and controller manager ----------

  /** What a script of a component leaves of its mounts. */
  lemma OwnMountAt(s: Mounts, user: Mounts, first: Name, ops: seq<Op<Name, Mount>>, i: nat)
    requires Clear(user, VOLUMES) && Neat(s, first) && Leads(ops, first) && i < |ops|
    ensures
      var r := Refresh(s, user, first, ops, NOMOUNT);
      Has(r, ops[i].name) && Get(r, ops[i].name, NOMOUNT) == ops[i].f(Get(Tail(s, first), ops[i].name, NOMOUNT))
  {
    assert ops[0].name in VOLUMES;
    RefreshSplits(s, user, first, ops, VOLUMES, NOMOUNT);
    ApplyAt(Tail(s, first), ops, i, NOMOUNT);
    GetBehind(user, Apply(Tail(s, first), ops, NOMOUNT), VOLUMES, ops[i].name, NOMOUNT);
  }

  predicate MountedAt(m: Mounts, n: Name, path: string) {
    Has(m, n) && Get(m, n, NOMOUNT) == Mount(path, true, "")
  }

  lemma SchedulerExactly(d: Deployment, c: Config)
    requires Proper(c) && Inv(d)
    ensures
      var s := Build(d, c).containers;
      var b := Get(s, KubeScheduler, NOCONTAINER);
      && Has(s, KubeScheduler) && b.image == c.scheduler.image && b.args == c.scheduler.args && b.settings == c.scheduler.settings
      && b.other == Get(d.containers, KubeScheduler, NOCONTAINER).other
      && MountedAt(b.mounts, SchedulerConf, "/etc/kubernetes")
  {
    BuiltGet(d, c, 0);
    SchedulerOpsLead();
    OwnMountAt(Get(d.containers, KubeScheduler, NOCONTAINER).mounts, c.schedulerMounts, SchedulerConf, SchedulerMountOps(), 0);
  }

  lemma ManagerMountsExactly(s: Mounts, user: Mounts)
    requires Clear(user, VOLUMES) && Neat(s, ManagerConf)
    ensures
      var m := Refresh(s, user, ManagerConf, ManagerMountOps(), NOMOUNT);
      && MountedAt(m, ManagerConf, "/etc/kubernetes") && MountedAt(m, Pki, "/etc/kubernetes/pki")
      && MountedAt(m, EtcCa, "/etc/ca-certificates") && MountedAt(m, UsrShareCa, "/usr/share/ca-certificates")
      && MountedAt(m, UsrLocalCa, "/usr/local/share/ca-certificates")
  {
    ManagerOpsLead();
    forall i | 0 <= i < 5 ensures
      var r, op := Refresh(s, user, ManagerConf, ManagerMountOps(), NOMOUNT), ManagerMountOps()[i];
      Has(r, op.name) && Get(r, op.name, NOMOUNT) == op.f(Get(Tail(s, ManagerConf), op.name, NOMOUNT))
    {
      OwnMountAt(s, user, ManagerConf, ManagerMountOps(), i);
    }
    ManagerOpsAre();
  }

  lemma ManagerOpsAre()
    ensures
      var ops := ManagerMountOps();
      && |ops| == 5 && ops[0] == Ensure(ManagerConf, "/etc/kubernetes", true) && ops[1] == Ensure(Pki, "/etc/kubernetes/pki", true)
      && ops[2] == Ensure(EtcCa, "/etc/ca-certificates", true) && ops[3] == Ensure(UsrShareCa, "/usr/share/ca-certificates", true)
      && ops[4] == Ensure(UsrLocalCa, "/usr/local/share/ca-certificates", true)
  {}

  /** A container that runs the controller manager as specified, mounts included, with the rest of `before`. */
  predicate RunsManager(b: Container, c: Config, before: Container) {
    && b.image == c.manager.image && b.args == c.manager.args && b.settings == c.manager.settings && b.other == before.other
    && MountedAt(b.mounts, ManagerConf, "/etc/kubernetes") && MountedAt(b.mounts, Pki, "/etc/kubernetes/pki")
    && MountedAt(b.mounts, EtcCa, "/etc/ca-certificates") && MountedAt(b.mounts, UsrShareCa, "/usr/share/ca-certificates")
    && MountedAt(b.mounts, UsrLocalCa, "/usr/local/share/ca-certificates")
  }

  lemma ManagerOpExactly(c: Config, b: Container)
    requires Clear(c.managerMounts, VOLUMES) && Neat(b.mounts, ManagerConf)
    ensures var op := OtherOps(c)[1]; op.name == KubeControllerManager && op.Write? && RunsManager(op.f(b), c, b)
  {
    ManagerMountsExactly(b.mounts, c.managerMounts);
  }

  lemma ManagerExactly(d: Deployment, c: Config)
    requires Proper(c) && Inv(d)
    ensures
      var s := Build(d, c).containers;
      Has(s, KubeControllerManager)
      && RunsManager(Get(s, KubeControllerManager, NOCONTAINER), c, Get(d.containers, KubeControllerManager, NOCONTAINER))
  {
    ManagerOpExactly(c, Get(d.containers, KubeControllerManager, NOCONTAINER));
    BuiltGet(d, c, 1);
  }

  // ---------- kine and Konnectivity ----------

  function BuiltKine(c: Config, before: Container): Container {
    Container(
      if before.image == "" then c.kine.image else before.image, c.kine.args,
      [Item(KineCerts, Mount("/certs", false, "")), Item(KineUds, Mount("/uds", false, ""))],
      c.kine.settings, before.other)
  }

  function BuiltKonnectivity(c: Config, before: Container): Container {
    Container(
      c.konnectivity.image, c.konnectivity.args,
      [Item(Pki, Mount("/etc/kubernetes/pki", true, "")),
       Item(KonnectivityConf, Mount("/etc/kubernetes/konnectivity-server.conf", true, "konnectivity-server.conf")),
       Item(KonnectivityUds, Mount("/run/konnectivity", false, ""))],
      c.konnectivity.settings, before.other)
  }

  lemma KineOpExactly(c: Config, b: Container)
    ensures
      var ops := OtherOps(c);
      && |ops| >= 3 && ops[2].name == Kine && (ops[2].Write? <==> c.driver.KineDriver?)
      && (ops[2].Write? ==> ops[2].f(b) == BuiltKine(c, b))
  {}

  lemma KonnectivityOpExactly(c: Config, b: Container)
    requires !c.addon.Off?
    ensures
      var ops := OtherOps(c);
      && |ops| == 4 && ops[3].name == KonnectivityServer && (ops[3].Write? <==> c.addon.On?)
      && (ops[3].Write? ==> ops[3].f(b) == BuiltKonnectivity(c, b))
  {}

  /** Kine is there exactly with its driver; its image, once set, stays. */
  lemma KineExactly(d: Deployment, c: Config)
    requires Proper(c) && Inv(d)
    ensures
      var s := Build(d, c).containers;
      && (Has(s, Kine) <==> c.driver.KineDriver?)
      && (c.driver.KineDriver? ==> Get(s, Kine, NOCONTAINER) == BuiltKine(c, Get(d.containers, Kine, NOCONTAINER)))
  {
    KineOpExactly(c, Get(d.containers, Kine, NOCONTAINER));
    BuiltGet(d, c, 2);
  }

  /** Konnectivity's server is there when it is on and gone when it is removed. */
  lemma KonnectivityExactly(d: Deployment, c: Config)
    requires Proper(c) && Inv(d) && !c.addon.Off?
    ensures
      var s := Build(d, c).containers;
      && (Has(s, KonnectivityServer) <==> c.addon.On?)
      && (c.addon.On? ==> Get(s, KonnectivityServer, NOCONTAINER) == BuiltKonnectivity(c, Get(d.containers, KonnectivityServer, NOCONTAINER)))
  {
    KonnectivityOpExactly(c, Get(d.containers, KonnectivityServer, NOCONTAINER));
    BuiltGet(d, c, 3);
  }

  // ---------- the init container ----------

  /** The init container that prepares kine's certificates is there exactly with kine over TLS; its image, once set, stays. */
  lemma ChmodExactly(d: Deployment, c: Config)
    requires Proper(c) && Inv(d)
    ensures
      var s, before := Build(d, c).inits, Get(Tail(d.inits, Chmod), Chmod, NOCONTAINER);
      && (Has(s, Chmod) <==> c.driver == KineDriver(true))
      && (c.driver == KineDriver(true) ==> Get(s, Chmod, NOCONTAINER) == Container(
            if before.image == "" then c.chmod.image else before.image, c.chmod.args,
            [Item(KineConfig, Mount("/kine", true, "")), Item(KineCerts, Mount("/certs", false, ""))],
            c.chmod.settings, before.other))
  {
    var s' := if c.driver.Etcd? then c.inits else d.inits;
    var t, ops := Tail(s', Chmod), InitOps(c);
    assert c.inits + [] == c.inits;
    FormedOf(c.inits, [], Chmod, INITS);
    RefreshSplits(s', c.inits, Chmod, ops, INITS, NOCONTAINER);
    OneOp(t, ops[0]);
    DoGet(t, ops[0], Chmod, NOCONTAINER);
    GetBehind(c.inits, Apply(t, ops, NOCONTAINER), INITS, Chmod, NOCONTAINER);
  }

  // ---------- the kube-apiserver ----------

  /** The mounts that Konnectivity adds to the kube-apiserver are writable, and keep what the builder does not set. */
  lemma AddonMountsExactly(s: Mounts, c: Config)
    requires Clear(c.apiMounts, VOLUMES) && Neat(s, Pki) && c.addon.On?
    ensures
      var m, t := FinalMounts(s, c), Tail(s, Pki);
      && Get(m, KonnectivityUds, NOMOUNT) == Mount("/run/konnectivity", false, Get(t, KonnectivityUds, NOMOUNT).other)
      && Get(m, EgressConf, NOMOUNT) == Mount("/etc/kubernetes/konnectivity/configurations", false, Get(t, EgressConf, NOMOUNT).other)
  {
    var ops, t, k := AllMountOps(c), Tail(s, Pki), if c.driver.Etcd? then 4 else 5;
    var r := Apply(t, ops, NOMOUNT);
    FinalMountsSplit(s, c);
    AllMountOpsAreTame(c);
    ApplyAt(t, ops, k, NOMOUNT);
    ApplyAt(t, ops, k + 1, NOMOUNT);
    GetBehind(c.apiMounts, r, VOLUMES, KonnectivityUds, NOMOUNT);
    GetBehind(c.apiMounts, r, VOLUMES, EgressConf, NOMOUNT);
  }
}
