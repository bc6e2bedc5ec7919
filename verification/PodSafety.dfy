/**
 * Rebuilding the Deployment from its own output settles, and every build puts exactly the user's
 * current items in front of the system's, whatever earlier specifications held.
 */
module PodSafety {
  import opened NamedLists
  import opened PodBuilder
  import opened PodMounts
  import ExtraArguments

  /** The user's names are not Kamaji's. */
  predicate Proper(c: Config) {
    && Clear(c.containers, CONTAINERS) && Clear(c.inits, INITS) && Clear(c.volumes, VOLUMES)
    && Clear(c.apiMounts, VOLUMES) && Clear(c.schedulerMounts, VOLUMES) && Clear(c.managerMounts, VOLUMES)
    && ExtraArguments.Proper(SetupOf(c))
  }

  /** Names that are not Kamaji's, then from `first` on names that are, once each. */
  predicate Formed<T>(s: seq<Item<Name, T>>, first: Name, names: set<Name>) {
    Clear(Front(s, first), names) && Distinct(Tail(s, first)) && Within(Tail(s, first), names)
  }

  predicate NeatContainers(s: Containers) {
    && Neat(Get(s, KubeApiServer, NOCONTAINER).mounts, Pki)
    && Neat(Get(s, KubeScheduler, NOCONTAINER).mounts, SchedulerConf)
    && Neat(Get(s, KubeControllerManager, NOCONTAINER).mounts, ManagerConf)
  }

  /** What every build leaves, and the next one relies on. */
  predicate Inv(d: Deployment) {
    && Formed(d.inits, Chmod, INITS) && Formed(d.volumes, Pki, VOLUMES)
    && Formed(d.containers, KubeApiServer, CONTAINERS) && NeatContainers(d.containers)
  }

  lemma {:induction false} FormedOf<T>(u: seq<Item<Name, T>>, t: seq<Item<Name, T>>, first: Name, names: set<Name>)
    requires Clear(u, names) && first in names && Distinct(t) && Within(t, names) && (t == [] || Starts(t, first))
    ensures Formed(u + t, first, names) && Tail(u + t, first) == t && Front(u + t, first) == u
  {
    if u == [] {
      assert u + t == t;
    } else {
      assert (u + t)[1..] == u[1..] + t;
      FormedOf(u[1..], t, first, names);
      assert u == [u[0]] + u[1..];
    }
  }

  // ---------- containers ----------

  lemma OtherOpsAreTame(c: Config)
    ensures Once(OtherOps(c)) && Among(OtherOps(c), CONTAINERS) && Avoids(OtherOps(c), KubeApiServer)
    ensures OtherOps(c)[0].Write? && OtherOps(c)[0].name == KubeScheduler && OtherOps(c)[1].Write? && OtherOps(c)[1].name == KubeControllerManager
  {}

  /** The kube-apiserver container after both of its edits. */
  ghost function FinalApi(b: Container, c: Config): Container {
    Container(c.api.image, ExtraArguments.Render(b.args, SetupOf(c)), FinalMounts(b.mounts, c), c.api.settings, b.other)
  }

  /** What a build does to the system's part of the containers. */
  ghost function System(t: Containers, c: Config): Containers {
    var b := Get(t, KubeApiServer, NOCONTAINER);
    Framed(t, OtherOps(c), KubeApiServer, ApiContainer(b, c), FinalApi(b, c), NOCONTAINER)
  }

  lemma AddonAfterApi(b: Container, c: Config)
    ensures AddonContainer(ApiContainer(b, c), c) == FinalApi(b, c)
  {}

  lemma BuildContainersSplits(s: Containers, c: Config)
    requires Clear(c.containers, CONTAINERS) && Distinct(Tail(s, KubeApiServer))
    ensures BuildContainers(s, c) == c.containers + System(Tail(s, KubeApiServer), c)
  {
    var u, t := c.containers, Tail(s, KubeApiServer);
    var b := Get(t, KubeApiServer, NOCONTAINER);
    GetBehind(u, t, CONTAINERS, KubeApiServer, NOCONTAINER);
    OtherOpsAreTame(c);
    AddonAfterApi(b, c);
    FramedBehind(u, t, OtherOps(c), CONTAINERS, KubeApiServer, ApiContainer(b, c), FinalApi(b, c), NOCONTAINER);
  }

  lemma SystemKeeps(t: Containers, c: Config)
    requires Distinct(t) && Within(t, CONTAINERS) && (t == [] || Starts(t, KubeApiServer))
    ensures Distinct(System(t, c)) && Within(System(t, c), CONTAINERS) && Starts(System(t, c), KubeApiServer)
  {
    var b := Get(t, KubeApiServer, NOCONTAINER);
    OtherOpsAreTame(c);
    FramedKeeps(t, OtherOps(c), CONTAINERS, KubeApiServer, ApiContainer(b, c), FinalApi(b, c), NOCONTAINER);
  }

  lemma SystemGet(t: Containers, c: Config, i: nat)
    requires Distinct(t) && i < |OtherOps(c)|
    ensures
      var r, op := System(t, c), OtherOps(c)[i];
      && Has(r, KubeApiServer) && Get(r, KubeApiServer, NOCONTAINER) == FinalApi(Get(t, KubeApiServer, NOCONTAINER), c)
      && Has(r, op.name) == op.Write?
      && (op.Write? ==> Get(r, op.name, NOCONTAINER) == op.f(Get(t, op.name, NOCONTAINER)))
  {
    var b := Get(t, KubeApiServer, NOCONTAINER);
    OtherOpsAreTame(c);
    FramedGet(t, OtherOps(c), KubeApiServer, ApiContainer(b, c), FinalApi(b, c), i, NOCONTAINER);
  }

  /** Rebuilding any other container of a neat list changes nothing. */
  lemma OtherAgain(t: Containers, c: Config, i: nat)
    requires Proper(c) && NeatContainers(t) && i < |OtherOps(c)| && OtherOps(c)[i].Write?
    ensures var op := OtherOps(c)[i]; var x := op.f(Get(t, op.name, NOCONTAINER)); op.f(x) == x
  {
    SchedulerAgain(Get(t, KubeScheduler, NOCONTAINER), c);
    ManagerAgain(Get(t, KubeControllerManager, NOCONTAINER), c);
  }

  lemma SchedulerAgain(b: Container, c: Config)
    requires Clear(c.schedulerMounts, VOLUMES) && Neat(b.mounts, SchedulerConf)
    ensures SchedulerContainer(SchedulerContainer(b, c), c) == SchedulerContainer(b, c)
  {
    SchedulerOpsLead();
    OwnMountsSettle(b.mounts, c.schedulerMounts, SchedulerConf, SchedulerMountOps());
  }

  lemma ManagerAgain(b: Container, c: Config)
    requires Clear(c.managerMounts, VOLUMES) && Neat(b.mounts, ManagerConf)
    ensures ManagerContainer(ManagerContainer(b, c), c) == ManagerContainer(b, c)
  {
    ManagerOpsLead();
    OwnMountsSettle(b.mounts, c.managerMounts, ManagerConf, ManagerMountOps());
  }

  lemma OthersSettled(t: Containers, c: Config, i: nat)
    requires Proper(c) && Distinct(t) && NeatContainers(t) && i < |OtherOps(c)|
    ensures Settled(System(t, c), OtherOps(c)[i], NOCONTAINER)
  {
    SystemGet(t, c, i);
    if OtherOps(c)[i].Write? { OtherAgain(t, c, i); }
  }

  /** The second build touches the kube-apiserver container at most. */
  lemma SystemAgain(t: Containers, c: Config, b: Container)
    requires Proper(c) && Distinct(t) && NeatContainers(t)
    ensures System(Put(System(t, c), KubeApiServer, b), c) == Put(System(t, c), KubeApiServer, FinalApi(b, c))
  {
    var r := System(t, c);
    OtherOpsAreTame(c);
    forall i | 0 <= i < |OtherOps(c)| ensures Settled(r, OtherOps(c)[i], NOCONTAINER) { OthersSettled(t, c, i); }
    SystemGet(t, c, 0);
    FramedSettled(r, OtherOps(c), KubeApiServer, b, ApiContainer(b, c), FinalApi(b, c), NOCONTAINER);
  }
}
