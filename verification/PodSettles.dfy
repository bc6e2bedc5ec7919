/** Main results about the Deployment builder. */
module PodSettles {
  import opened Common
  import opened NamedLists
  import opened PodBuilder
  import opened PodMounts
  import opened PodSafety
  import ExtraArguments

  // ---------- init containers ----------

  lemma InitsSettle(s: Containers, c: Config)
    requires Clear(c.inits, INITS) && Formed(s, Chmod, INITS)
    ensures var r := BuildInits(s, c); BuildInits(r, c) == r && Formed(r, Chmod, INITS) && r == c.inits + Tail(r, Chmod)
  {
    var s' := if c.driver.Etcd? then c.inits else s;
    assert c.inits + [] == c.inits;
    FormedOf(c.inits, [], Chmod, INITS);
    var t, ops := Tail(s', Chmod), InitOps(c);
    TailKeeps(s', Chmod, INITS);
    RefreshSplits(s', c.inits, Chmod, ops, INITS, NOCONTAINER);
    var t' := Apply(t, ops, NOCONTAINER);
    OneOp(t, ops[0]);
    if c.driver == KineDriver(true) {
      DoKeeps(t, ops[0], INITS, NOCONTAINER);
      FormedOf(c.inits, t', Chmod, INITS);
      assert Once(ops) && Repeatable(ops) && Among(ops, INITS);
      RefreshTwice(s', c.inits, Chmod, ops, INITS, NOCONTAINER);
    } else {
      RemoveKeeps(t, Chmod, INITS);
      assert t' == [];
      OneOp([], ops[0]);
      RefreshSplits(c.inits, c.inits, Chmod, ops, INITS, NOCONTAINER);
    }
  }

  lemma OneOp(t: Containers, op: Op<Name, Container>)
    ensures Apply(t, [op], NOCONTAINER) == Do(t, op, NOCONTAINER)
  {
    assert [op][1..] == [];
    assert Apply(Do(t, op, NOCONTAINER), [], NOCONTAINER) == Do(t, op, NOCONTAINER);
  }

  // ---------- volumes ----------

  /** Where the script names a volume. */
  function VolumePlace(c: Config, n: Name): int {
    match n
    case Pki => 0 case EtcCa => 1 case UsrShareCa => 2 case UsrLocalCa => 3 case SchedulerConf => 4 case ManagerConf => 5
    case KineUds => 6 case KineConfig => 7 case KineCerts => 8
    case KonnectivityUds => if c.driver.Etcd? then 6 else 9
    case EgressConf => if c.driver.Etcd? then 7 else 10
    case KonnectivityConf => if c.driver.Etcd? then 8 else 11
    case _ => -1
  }

  lemma VolumeOpsAreOnce(c: Config)
    ensures Once(VolumeOps(c))
  {
    var ops := VolumeOps(c);
    forall i, j | 0 <= i < j < |ops| ensures ops[i].name != ops[j].name {
      VolumeAtPlace(c, i);
      VolumeAtPlace(c, j);
    }
  }

  lemma VolumeAtPlace(c: Config, i: nat)
    requires i < |VolumeOps(c)|
    ensures VolumePlace(c, VolumeOps(c)[i].name) == i
  {}

  lemma VolumeOpsAreTame(c: Config)
    ensures Among(VolumeOps(c), VOLUMES) && Repeatable(VolumeOps(c))
    ensures VolumeOps(c)[0] == Source(Pki, c)
    ensures forall i :: 0 <= i < |VolumeOps(c)| && VolumeOps(c)[i].Delete? ==> VolumeOps(c)[i].name != Pki
    ensures c.driver.Etcd? ==> Avoids(VolumeOps(c), KineUds) && Avoids(VolumeOps(c), KineConfig) && Avoids(VolumeOps(c), KineCerts)
  {}

  lemma KineVolumeOpsAreTame(c: Config)
    ensures Once(KineVolumeOps(c)) && Among(KineVolumeOps(c), VOLUMES)
    ensures forall i :: 0 <= i < |KineVolumeOps(c)| ==> KineVolumeOps(c)[i].Delete? && KineVolumeOps(c)[i].name != Pki
  {}

  lemma {:induction false} NothingToDelete(ops: seq<Op<Name, string>>)
    requires forall i :: 0 <= i < |ops| ==> ops[i].Delete?
    ensures Apply([], ops, "") == []
    decreases |ops|
  {
    if ops != [] { NothingToDelete(ops[1..]); }
  }

  /** The system's part without the volumes of a former kine. */
  lemma KineVolumesGo(s: Volumes, c: Config)
    requires Formed(s, Pki, VOLUMES)
    ensures
      var t := Apply(Tail(s, Pki), KineVolumeOps(c), "");
      && Tail(Apply(s, KineVolumeOps(c), ""), Pki) == t
      && Distinct(t) && Within(t, VOLUMES) && (t == [] || Starts(t, Pki))
      && forall i :: 0 <= i < |KineVolumeOps(c)| ==> !Has(t, KineVolumeOps(c)[i].name)
  {
    var u, t0, ops := Front(s, Pki), Tail(s, Pki), KineVolumeOps(c);
    FrontTail(s, Pki);
    KineVolumeOpsAreTame(c);
    TailKeeps(s, Pki, VOLUMES);
    ApplyBehind(u, t0, ops, VOLUMES, "");
    if t0 == [] { NothingToDelete(ops); } else { ApplyKeeps(t0, ops, VOLUMES, Pki, ""); }
    var t := Apply(t0, ops, "");
    GetBehind(u, t, VOLUMES, Pki, "");
    TailKeeps(t, Pki, VOLUMES);
    forall i | 0 <= i < |ops| ensures !Has(t, ops[i].name) { ApplyAt(t0, ops, i, ""); }
  }

  lemma VolumesSettle(s: Volumes, c: Config)
    requires Clear(c.volumes, VOLUMES) && Formed(s, Pki, VOLUMES)
    ensures var r := BuildVolumes(s, c); BuildVolumes(r, c) == r && Formed(r, Pki, VOLUMES) && r == c.volumes + Tail(r, Pki)
  {
    var ops, kine := VolumeOps(c), KineVolumeOps(c);
    var s' := Apply(s, kine, "");
    var t := Tail(s', Pki);
    var t' := Apply(t, ops, "");
    VolumeOpsAreOnce(c);
    VolumeOpsAreTame(c);
    KineVolumeOpsAreTame(c);
    KineVolumesGo(s, c);
    ApplyKeeps(t, ops, VOLUMES, Pki, "");
    RefreshSplits(s', c.volumes, Pki, ops, VOLUMES, "");
    FormedOf(c.volumes, t', Pki, VOLUMES);
    var r := BuildVolumes(s, c);
    assert r == c.volumes + t';
    forall i | 0 <= i < |kine| ensures Settled(r, kine[i], "") {
      ApplyGet(t, ops, kine[i].name, "");
      GetBehind(c.volumes, t', VOLUMES, kine[i].name, "");
    }
    ApplySettled(r, kine, "");
    RefreshTwice(s', c.volumes, Pki, ops, VOLUMES, "");
  }

  // ---------- the Deployment ----------

  lemma ResetFormed(d: Deployment, c: Config)
    requires Formed(d.containers, KubeApiServer, CONTAINERS) && NeatContainers(d.containers)
    ensures
      var r, t := ResetFlags(d, c), Tail(ResetFlags(d, c).containers, KubeApiServer);
      && Distinct(t) && Within(t, CONTAINERS) && (t == [] || Starts(t, KubeApiServer)) && NeatContainers(t)
      && Get(t, KubeApiServer, NOCONTAINER)
         == Get(d.containers, KubeApiServer, NOCONTAINER).(args := ExtraArguments.Base(FlagsOf(d), SetupOf(c)))
  {
    var s := d.containers;
    var u, t := Front(s, KubeApiServer), Tail(s, KubeApiServer);
    FrontTail(s, KubeApiServer);
    var f := ExtraArguments.Reset(FlagsOf(d), SetupOf(c));
    var b := Get(s, KubeApiServer, NOCONTAINER);
    TailKeeps(s, KubeApiServer, CONTAINERS);
    GetBehind(u, t, CONTAINERS, KubeApiServer, NOCONTAINER);
    GetBehind(u, t, CONTAINERS, KubeScheduler, NOCONTAINER);
    GetBehind(u, t, CONTAINERS, KubeControllerManager, NOCONTAINER);
    if f.args.Some? {
      var b' := b.(args := f.args.value);
      PutBehind(u, t, CONTAINERS, KubeApiServer, b');
      var t' := Put(t, KubeApiServer, b');
      PutKeeps(t, KubeApiServer, b', CONTAINERS);
      TailKeeps(t', KubeApiServer, CONTAINERS);
      GetBehind(u, t', CONTAINERS, KubeApiServer, NOCONTAINER);
      PutGet(t, KubeApiServer, b', KubeApiServer, NOCONTAINER);
      PutGet(t, KubeApiServer, b', KubeScheduler, NOCONTAINER);
      PutGet(t, KubeApiServer, b', KubeControllerManager, NOCONTAINER);
    }
  }

  /** The system's part of the containers that a build starts from. */
  function Start(d: Deployment, c: Config): Containers {
    Tail(ResetFlags(d, c).containers, KubeApiServer)
  }

  lemma ContainersAfter(d: Deployment, c: Config)
    requires Proper(c) && Formed(d.containers, KubeApiServer, CONTAINERS) && NeatContainers(d.containers)
    ensures
      var r := System(Start(d, c), c);
      && Build(d, c).containers == c.containers + r
      && Distinct(r) && Within(r, CONTAINERS) && Starts(r, KubeApiServer)
      && Formed(c.containers + r, KubeApiServer, CONTAINERS) && Tail(c.containers + r, KubeApiServer) == r
  {
    ResetFormed(d, c);
    BuildContainersSplits(ResetFlags(d, c).containers, c);
    SystemKeeps(Start(d, c), c);
    FormedOf(c.containers, System(Start(d, c), c), KubeApiServer, CONTAINERS);
  }

  lemma SystemNeat(t: Containers, c: Config)
    requires Proper(c) && Distinct(t) && NeatContainers(t)
    ensures NeatContainers(System(t, c))
    ensures
      var m := Get(System(t, c), KubeApiServer, NOCONTAINER).mounts;
      var m' := Apply(Tail(Get(t, KubeApiServer, NOCONTAINER).mounts, Pki), AllMountOps(c), NOMOUNT);
      m == c.apiMounts + m' && Within(m', VOLUMES)
    ensures var m := Get(System(t, c), KubeScheduler, NOCONTAINER).mounts; m == c.schedulerMounts + Tail(m, SchedulerConf)
    ensures var m := Get(System(t, c), KubeControllerManager, NOCONTAINER).mounts; m == c.managerMounts + Tail(m, ManagerConf)
  {
    OtherOpsAreTame(c);
    SystemGet(t, c, 0);
    SystemGet(t, c, 1);
    FinalMountsSplit(Get(t, KubeApiServer, NOCONTAINER).mounts, c);
    SchedulerOpsLead();
    ManagerOpsLead();
    OwnMountsSettle(Get(t, KubeScheduler, NOCONTAINER).mounts, c.schedulerMounts, SchedulerConf, SchedulerMountOps());
    OwnMountsSettle(Get(t, KubeControllerManager, NOCONTAINER).mounts, c.managerMounts, ManagerConf, ManagerMountOps());
  }

  lemma NeatBehind(u: Containers, r: Containers)
    requires Clear(u, CONTAINERS) && NeatContainers(r)
    ensures NeatContainers(u + r)
  {
    GetBehind(u, r, CONTAINERS, KubeApiServer, NOCONTAINER);
    GetBehind(u, r, CONTAINERS, KubeScheduler, NOCONTAINER);
    GetBehind(u, r, CONTAINERS, KubeControllerManager, NOCONTAINER);
  }

  lemma BuildKeepsInv(d: Deployment, c: Config)
    requires Proper(c) && Inv(d)
    ensures Inv(Build(d, c))
  {
    ContainersAfter(d, c);
    ResetFormed(d, c);
    SystemNeat(Start(d, c), c);
    NeatBehind(c.containers, System(Start(d, c), c));
    InitsSettle(d.inits, c);
    VolumesSettle(d.volumes, c);
  }

  // ---------- main results ----------

  /**
   * After every build, whatever earlier specifications held, each list starts with exactly the
   * current specification's items, and only names of Kamaji's follow.
   */
  lemma UserItemsComeFirst(d: Deployment, c: Config)
    requires Proper(c) && Inv(d)
    ensures
      var g := Build(d, c);
      var api, scheduler, manager := Get(g.containers, KubeApiServer, NOCONTAINER), Get(g.containers, KubeScheduler, NOCONTAINER),
                                     Get(g.containers, KubeControllerManager, NOCONTAINER);
      && Follows(g.containers, c.containers, CONTAINERS)
      && Follows(g.inits, c.inits, INITS)
      && Follows(g.volumes, c.volumes, VOLUMES)
      && Follows(api.mounts, c.apiMounts, VOLUMES)
      && Follows(scheduler.mounts, c.schedulerMounts, VOLUMES)
      && Follows(manager.mounts, c.managerMounts, VOLUMES)
  {
    var t := Start(d, c);
    ContainersAfter(d, c);
    ResetFormed(d, c);
    SystemNeat(t, c);
    var r := System(t, c);
    GetBehind(c.containers, r, CONTAINERS, KubeApiServer, NOCONTAINER);
    GetBehind(c.containers, r, CONTAINERS, KubeScheduler, NOCONTAINER);
    GetBehind(c.containers, r, CONTAINERS, KubeControllerManager, NOCONTAINER);
    InitsSettle(d.inits, c);
    VolumesSettle(d.volumes, c);
  }

  /** `s` is the user's items followed by items that carry names of Kamaji's. */
  ghost predicate Follows<T(!new)>(s: seq<Item<Name, T>>, user: seq<Item<Name, T>>, names: set<Name>) {
    user <= s && Within(s[|user|..], names)
  }

  predicate Carries(b: Container, w: Written) {
    b.image == w.image && b.args == w.args && b.settings == w.settings
  }

  /** The image of kine may be an older one, set by an earlier build. */
  predicate CarriesKine(b: Container, w: Written) {
    b.args == w.args && b.settings == w.settings && (b.image == w.image || b.image != "")
  }

  /** The containers a build leaves are those of the current specification, each with what is specified for it. */
  lemma SystemContainersAreCurrent(d: Deployment, c: Config)
    requires Proper(c) && Inv(d)
    ensures
      var s := Build(d, c).containers;
      var api := Get(s, KubeApiServer, NOCONTAINER);
      && Has(s, KubeApiServer) && api.image == c.api.image && api.settings == c.api.settings
      && api.args == ExtraArguments.Render(ExtraArguments.Base(FlagsOf(d), SetupOf(c)), SetupOf(c))
      && Has(s, KubeScheduler) && Carries(Get(s, KubeScheduler, NOCONTAINER), c.scheduler)
      && Has(s, KubeControllerManager) && Carries(Get(s, KubeControllerManager, NOCONTAINER), c.manager)
      && Has(s, Kine) == c.driver.KineDriver? && (Has(s, Kine) ==> CarriesKine(Get(s, Kine, NOCONTAINER), c.kine))
      && (c.addon.On? ==> Has(s, KonnectivityServer) && Carries(Get(s, KonnectivityServer, NOCONTAINER), c.konnectivity))
      && (c.addon.Removing? ==> !Has(s, KonnectivityServer))
  {
    var t := Start(d, c);
    var r := System(t, c);
    ResetFormed(d, c);
    ContainersAfter(d, c);
    forall n | n in CONTAINERS
      ensures Has(c.containers + r, n) == Has(r, n) && Get(c.containers + r, n, NOCONTAINER) == Get(r, n, NOCONTAINER)
    {
      GetBehind(c.containers, r, CONTAINERS, n, NOCONTAINER);
    }
    OthersAreCurrent(t, c);
  }

  lemma OthersAreCurrent(t: Containers, c: Config)
    requires Distinct(t)
    ensures
      var r := System(t, c);
      && Has(r, KubeApiServer) && Get(r, KubeApiServer, NOCONTAINER) == FinalApi(Get(t, KubeApiServer, NOCONTAINER), c)
      && Has(r, KubeScheduler) && Carries(Get(r, KubeScheduler, NOCONTAINER), c.scheduler)
      && Has(r, KubeControllerManager) && Carries(Get(r, KubeControllerManager, NOCONTAINER), c.manager)
      && Has(r, Kine) == c.driver.KineDriver? && (Has(r, Kine) ==> CarriesKine(Get(r, Kine, NOCONTAINER), c.kine))
      && (c.addon.On? ==> Has(r, KonnectivityServer) && Carries(Get(r, KonnectivityServer, NOCONTAINER), c.konnectivity))
      && (c.addon.Removing? ==> !Has(r, KonnectivityServer))
  {
    ComponentsAreCurrent(t, c);
    KineIsCurrent(t, c);
    KonnectivityIsCurrent(t, c);
  }

  // What the script writes into each container, whatever it finds there.

  lemma ComponentOps(c: Config, b: Container)
    ensures var op := OtherOps(c)[0]; op.name == KubeScheduler && op.Write? && Carries(op.f(b), c.scheduler)
    ensures var op := OtherOps(c)[1]; op.name == KubeControllerManager && op.Write? && Carries(op.f(b), c.manager)
  {}

  lemma KineOp(c: Config, b: Container)
    ensures |OtherOps(c)| >= 3
    ensures var op := OtherOps(c)[2]; op.name == Kine && op.Write? == c.driver.KineDriver? && (op.Write? ==> CarriesKine(op.f(b), c.kine))
  {}

  lemma KonnectivityOp(c: Config, b: Container)
    requires !c.addon.Off?
    ensures |OtherOps(c)| == 4
    ensures
      var op := OtherOps(c)[3];
      op.name == KonnectivityServer && op.Write? == c.addon.On? && (op.Write? ==> Carries(op.f(b), c.konnectivity))
  {}

  lemma ComponentsAreCurrent(t: Containers, c: Config)
    requires Distinct(t)
    ensures
      var r := System(t, c);
      && Has(r, KubeApiServer) && Get(r, KubeApiServer, NOCONTAINER) == FinalApi(Get(t, KubeApiServer, NOCONTAINER), c)
      && Has(r, KubeScheduler) && Carries(Get(r, KubeScheduler, NOCONTAINER), c.scheduler)
      && Has(r, KubeControllerManager) && Carries(Get(r, KubeControllerManager, NOCONTAINER), c.manager)
  {
    ComponentOps(c, Get(t, KubeScheduler, NOCONTAINER));
    ComponentOps(c, Get(t, KubeControllerManager, NOCONTAINER));
    SystemGet(t, c, 0);
    SystemGet(t, c, 1);
  }

  lemma KineIsCurrent(t: Containers, c: Config)
    requires Distinct(t)
    ensures
      var r := System(t, c);
      Has(r, Kine) == c.driver.KineDriver? && (Has(r, Kine) ==> CarriesKine(Get(r, Kine, NOCONTAINER), c.kine))
  {
    KineOp(c, Get(t, Kine, NOCONTAINER));
    SystemGet(t, c, 2);
  }

  lemma KonnectivityIsCurrent(t: Containers, c: Config)
    requires Distinct(t)
    ensures
      var r := System(t, c);
      && (c.addon.On? ==> Has(r, KonnectivityServer) && Carries(Get(r, KonnectivityServer, NOCONTAINER), c.konnectivity))
      && (c.addon.Removing? ==> !Has(r, KonnectivityServer))
  {
    if !c.addon.Off? {
      KonnectivityOp(c, Get(t, KonnectivityServer, NOCONTAINER));
      SystemGet(t, c, 3);
    }
  }

  /** Every volume of the current setup is there with its source, and those of kine and Konnectivity only with them. */
  lemma SystemVolumesAreCurrent(d: Deployment, c: Config)
    requires Proper(c) && Inv(d)
    ensures
      var s := Build(d, c).volumes;
      && (forall n :: n in {Pki, EtcCa, UsrShareCa, UsrLocalCa, SchedulerConf, ManagerConf} ==> Has(s, n) && Get(s, n, "") == c.source(n))
      && (forall n :: n in {KineUds, KineConfig, KineCerts} ==>
            Has(s, n) == c.driver.KineDriver? && (Has(s, n) ==> Get(s, n, "") == c.source(n)))
      && (forall n :: n in {KonnectivityUds, EgressConf, KonnectivityConf} ==>
            && (c.addon.On? ==> Has(s, n) && Get(s, n, "") == c.source(n))
            && (c.addon.Removing? ==> !Has(s, n)))
  {
    var s' := Apply(d.volumes, KineVolumeOps(c), "");
    var t := Tail(s', Pki);
    var r := Apply(t, VolumeOps(c), "");
    VolumeOpsAreTame(c);
    KineVolumesGo(d.volumes, c);
    RefreshSplits(s', c.volumes, Pki, VolumeOps(c), VOLUMES, "");
    forall n | n in VOLUMES ensures Has(c.volumes + r, n) == Has(r, n) && Get(c.volumes + r, n, "") == Get(r, n, "") {
      GetBehind(c.volumes, r, VOLUMES, n, "");
    }
    VolumesWritten(t, c);
    VolumePlaces(c);
    if c.driver.KineDriver? { KineVolumePlaces(c); } else { KineVolumesStayAway(t, c); }
    if !c.addon.Off? { AddonVolumePlaces(c); }
  }

  lemma VolumesWritten(t: Volumes, c: Config)
    requires Distinct(t)
    ensures forall i :: 0 <= i < |VolumeOps(c)| ==>
      var r, op := Apply(t, VolumeOps(c), ""), VolumeOps(c)[i];
      Has(r, op.name) == op.Write? && (op.Write? ==> Get(r, op.name, "") == c.source(op.name))
  {
    var ops := VolumeOps(c);
    VolumeOpsAreOnce(c);
    forall i | 0 <= i < |ops|
      ensures
        var r, op := Apply(t, ops, ""), ops[i];
        Has(r, op.name) == op.Write? && (op.Write? ==> Get(r, op.name, "") == c.source(op.name))
    {
      VolumeOpWrites(c, i);
      ApplyAt(t, ops, i, "");
    }
  }

  lemma KineVolumesStayAway(t: Volumes, c: Config)
    requires c.driver.Etcd? && Distinct(t) && forall i :: 0 <= i < |KineVolumeOps(c)| ==> !Has(t, KineVolumeOps(c)[i].name)
    ensures var r := Apply(t, VolumeOps(c), ""); !Has(r, KineUds) && !Has(r, KineConfig) && !Has(r, KineCerts)
  {
    assert KineVolumeOps(c)[0].name == KineCerts && KineVolumeOps(c)[1].name == KineConfig && KineVolumeOps(c)[2].name == KineUds;
    VolumeOpsAreTame(c);
    ApplyGet(t, VolumeOps(c), KineUds, "");
    ApplyGet(t, VolumeOps(c), KineConfig, "");
    ApplyGet(t, VolumeOps(c), KineCerts, "");
  }

  lemma VolumeOpWrites(c: Config, i: nat)
    requires i < |VolumeOps(c)|
    ensures VolumeOps(c)[i].Write? ==> forall v :: VolumeOps(c)[i].f(v) == c.source(VolumeOps(c)[i].name)
  {}

  /** Where the script of the volumes writes and deletes. */
  lemma VolumePlaces(c: Config)
    ensures
      var ops, k := VolumeOps(c), if c.driver.Etcd? then 6 else 9;
      && |ops| >= k && ops[0].name == Pki && ops[1].name == EtcCa && ops[2].name == UsrShareCa && ops[3].name == UsrLocalCa
      && ops[4].name == SchedulerConf && ops[5].name == ManagerConf && (forall i :: 0 <= i < 6 ==> ops[i].Write?)
  {}

  lemma KineVolumePlaces(c: Config)
    requires c.driver.KineDriver?
    ensures
      var ops := VolumeOps(c);
      |ops| >= 9 && ops[6] == Source(KineUds, c) && ops[7] == Source(KineConfig, c) && ops[8] == Source(KineCerts, c)
  {}

  lemma AddonVolumePlaces(c: Config)
    requires !c.addon.Off?
    ensures
      var ops, k := VolumeOps(c), if c.driver.Etcd? then 6 else 9;
      && |ops| == k + 3 && ops[k].name == KonnectivityUds && ops[k + 1].name == EgressConf && ops[k + 2].name == KonnectivityConf
      && (forall i :: k <= i < k + 3 ==> ops[i].Write? == c.addon.On?)
  {}

  /** What a further build leaves of the containers of a build: only the kube-apiserver may differ. */
  lemma ContainersAgain(d: Deployment, c: Config, r: Containers, b: Container)
    requires Proper(c) && Distinct(r) && Within(r, CONTAINERS) && Starts(r, KubeApiServer)
    requires Formed(d.containers, KubeApiServer, CONTAINERS) && NeatContainers(d.containers)
    requires d.containers == c.containers + Put(r, KubeApiServer, b)
    requires forall x :: System(Put(r, KubeApiServer, x), c) == Put(r, KubeApiServer, FinalApi(x, c))
    ensures FlagsOf(d) == ExtraArguments.Flags(d.annotation, Some(b.args))
    ensures
      var b' := FinalApi(b.(args := ExtraArguments.Base(FlagsOf(d), SetupOf(c))), c);
      Build(d, c).containers == c.containers + Put(r, KubeApiServer, b')
  {
    var s := d.containers;
    var t := Put(r, KubeApiServer, b);
    var f := ExtraArguments.Reset(FlagsOf(d), SetupOf(c));
    GetBehind(c.containers, t, CONTAINERS, KubeApiServer, NOCONTAINER);
    PutGet(r, KubeApiServer, b, KubeApiServer, NOCONTAINER);
    var b1 := b.(args := f.args.value);
    PutBehind(c.containers, t, CONTAINERS, KubeApiServer, b1);
    PutPut(r, KubeApiServer, b, b1);
    var t1 := Put(r, KubeApiServer, b1);
    PutKeeps(r, KubeApiServer, b1, CONTAINERS);
    GetBehind(c.containers, t1, CONTAINERS, KubeApiServer, NOCONTAINER);
    assert Tail(t1, KubeApiServer) == t1;
    BuildContainersSplits(ResetFlags(d, c).containers, c);
  }

  /** The arguments and the annotation evolve as `ExtraArguments` describes. */
  lemma FlagsAfter(d: Deployment, c: Config)
    requires Proper(c) && Inv(d)
    ensures FlagsOf(Build(d, c)) == ExtraArguments.Build(FlagsOf(d), SetupOf(c))
  {
    ContainersAfter(d, c);
    ResetFormed(d, c);
    SystemGet(Start(d, c), c, 0);
    GetBehind(c.containers, System(Start(d, c), c), CONTAINERS, KubeApiServer, NOCONTAINER);
  }

  /** The kube-apiserver container of three builds in a row. */
  lemma ApiSettles(b0: Container, f: ExtraArguments.Flags, c: Config)
    requires Proper(c) && Neat(b0.mounts, Pki) && b0.args == ExtraArguments.Base(f, SetupOf(c))
    ensures
      var f1 := ExtraArguments.Build(f, SetupOf(c));
      var f2 := ExtraArguments.Build(f1, SetupOf(c));
      var b1 := FinalApi(b0, c);
      var b2 := FinalApi(b1.(args := ExtraArguments.Base(f1, SetupOf(c))), c);
      var b3 := FinalApi(b2.(args := ExtraArguments.Base(f2, SetupOf(c))), c);
      b3 == b2 && (c.driver.Etcd? ==> b2 == b1)
  {
    MountsSettle(b0.mounts, c);
    ExtraArguments.FlagsSettle(f, SetupOf(c));
  }

  /**
   * Rebuilding from its own output leaves the pod specification alone after one build with etcd;
   * after two builds nothing changes any more, whatever the driver, annotation included.
   */
  lemma DeploymentSettles(d: Deployment, c: Config)
    requires Proper(c) && Inv(d)
    ensures
      var g1 := Build(d, c);
      var g2 := Build(g1, c);
      Build(g2, c) == g2 && (c.driver.Etcd? ==> g2 == g1.(annotation := g2.annotation))
  {
    var g1 := Build(d, c);
    var g2 := Build(g1, c);
    var t := Start(d, c);
    var r := System(t, c);
    var b0, b1 := Get(t, KubeApiServer, NOCONTAINER), Get(r, KubeApiServer, NOCONTAINER);
    BuildKeepsInv(d, c);
    BuildKeepsInv(g1, c);
    ResetFormed(d, c);
    ContainersAfter(d, c);
    SystemGet(t, c, 0);
    PutBack(r, KubeApiServer, NOCONTAINER);
    forall x ensures System(Put(r, KubeApiServer, x), c) == Put(r, KubeApiServer, FinalApi(x, c)) { SystemAgain(t, c, x); }
    ContainersAgain(g1, c, r, b1);
    var b2 := FinalApi(b1.(args := ExtraArguments.Base(FlagsOf(g1), SetupOf(c))), c);
    ContainersAgain(g2, c, r, b2);
    FlagsAfter(d, c);
    FlagsAfter(g1, c);
    FlagsAfter(g2, c);
    ExtraArguments.FlagsSettle(FlagsOf(d), SetupOf(c));
    ApiSettles(b0, FlagsOf(d), c);
    InitsSettle(d.inits, c);
    VolumesSettle(d.volumes, c);
  }

  // ---------- whole runs ----------

  ghost function Builder(): (Deployment, Config) -> Deployment {
    (d, c) => Build(d, c)
  }

  lemma BuilderKeepsInv()
    ensures forall d: Deployment, c: Config :: Inv(d) && Proper(c) ==> Inv(Builder()(d, c))
  {
    forall d: Deployment, c: Config | Inv(d) && Proper(c) ensures Inv(Builder()(d, c)) { BuildKeepsInv(d, c); }
  }

  /** Builds of any specifications keep a Deployment well formed; they may start from none. */
  lemma InvHolds(d: Deployment, configs: seq<Config>)
    requires Inv(d) && forall i :: 0 <= i < |configs| ==> Proper(configs[i])
    ensures Inv(Replay(Builder(), d, configs))
  {
    BuilderKeepsInv();
    ReplayKeeps(Builder(), (d: Deployment) => Inv(d), (c: Config) => Proper(c), d, configs);
  }

  /** A Deployment that does not exist yet is well formed. */
  lemma EmptyIsFormed()
    ensures Inv(EMPTY)
  {
    NothingIsFormed<Container>(Chmod, INITS);
    NothingIsFormed<string>(Pki, VOLUMES);
    NothingIsFormed<Container>(KubeApiServer, CONTAINERS);
    NothingIsNeat();
  }

  lemma NothingIsFormed<T>(first: Name, names: set<Name>)
    requires first in names
    ensures Formed<T>([], first, names)
  {
    var none: seq<Item<Name, T>> := [];
    FormedOf(none, none, first, names);
    assert none + none == none;
  }

  lemma NothingIsNeat()
    ensures NeatContainers([])
  {}

  /** Every Deployment that builds of any specifications lead to from none is well formed. */
  lemma RunsFromNothing(d: Deployment, configs: seq<Config>)
    requires d == EMPTY && forall i :: 0 <= i < |configs| ==> Proper(configs[i])
    ensures Inv(Replay(Builder(), d, configs))
  {
    EmptyIsFormed();
    InvHolds(d, configs);
  }
}
