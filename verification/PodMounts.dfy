/** The mounts of the control plane containers settle. */
module PodMounts {
  import opened NamedLists
  import opened PodBuilder

  /** The system's part of a list of mounts names known volumes, once each. */
  predicate Neat(s: Mounts, first: Name) {
    Distinct(Tail(s, first)) && Within(Tail(s, first), VOLUMES)
  }

  /** Everything that is done to the mounts of the kube-apiserver. */
  function AllMountOps(c: Config): seq<Op<Name, Mount>> {
    ApiMountOps(c) + AddonMountOps(c)
  }

  function FinalMounts(s: Mounts, c: Config): Mounts {
    Apply(Refresh(s, c.apiMounts, Pki, ApiMountOps(c), NOMOUNT), AddonMountOps(c), NOMOUNT)
  }

  /** Where the script names a mount. */
  function MountPlace(c: Config, n: Name): int {
    var k := if c.driver.Etcd? then 0 else 1;
    match n
    case KineUds => 0
    case Pki => k case EtcCa => k + 1 case UsrShareCa => k + 2 case UsrLocalCa => k + 3
    case KonnectivityUds => k + 4 case EgressConf => k + 5 case KonnectivityConf => k + 6
    case _ => -1
  }

  lemma AllMountOpsAreOnce(c: Config)
    ensures Once(AllMountOps(c))
  {
    assert forall i :: 0 <= i < |AllMountOps(c)| ==> MountPlace(c, AllMountOps(c)[i].name) == i;
  }

  lemma AllMountOpsAreTame(c: Config)
    ensures Once(AllMountOps(c)) && Among(AllMountOps(c), VOLUMES) && Repeatable(AllMountOps(c))
    ensures forall i :: 0 <= i < |AllMountOps(c)| && AllMountOps(c)[i].Delete? ==> AllMountOps(c)[i].name != Pki
    ensures AllMountOps(c)[if c.driver.Etcd? then 0 else 1] == Ensure(Pki, "/etc/kubernetes/pki", true)
  {
    AllMountOpsAreOnce(c);
  }

  lemma SystemMountsKeep(t: Mounts, c: Config)
    requires Distinct(t) && Within(t, VOLUMES) && (t == [] || Starts(t, Pki))
    ensures var r := Apply(t, AllMountOps(c), NOMOUNT); Distinct(r) && Within(r, VOLUMES) && Has(r, Pki)
    ensures c.driver.Etcd? || t != [] ==> Starts(Apply(t, AllMountOps(c), NOMOUNT), Pki)
  {
    var ops := AllMountOps(c);
    AllMountOpsAreTame(c);
    if c.driver.Etcd? || t != [] {
      ApplyKeeps(t, ops, VOLUMES, Pki, NOMOUNT);
    } else {
      DoKeeps(t, ops[0], VOLUMES, NOMOUNT);
      ApplyKeeps(Do(t, ops[0], NOMOUNT), ops[1..], VOLUMES, KineUds, NOMOUNT);
    }
    ApplyAt(t, ops, if c.driver.Etcd? then 0 else 1, NOMOUNT);
  }

  /** The user's mounts come first, the known ones follow. */
  lemma FinalMountsSplit(s: Mounts, c: Config)
    requires Clear(c.apiMounts, VOLUMES) && Neat(s, Pki)
    ensures FinalMounts(s, c) == Refresh(s, c.apiMounts, Pki, AllMountOps(c), NOMOUNT)
    ensures FinalMounts(s, c) == c.apiMounts + Apply(Tail(s, Pki), AllMountOps(c), NOMOUNT)
    ensures Distinct(Apply(Tail(s, Pki), AllMountOps(c), NOMOUNT)) && Within(Apply(Tail(s, Pki), AllMountOps(c), NOMOUNT), VOLUMES)
    ensures Neat(FinalMounts(s, c), Pki) && Starts(Tail(FinalMounts(s, c), Pki), Pki)
    ensures c.driver.Etcd? || Starts(Tail(s, Pki), Pki) ==> Starts(Apply(Tail(s, Pki), AllMountOps(c), NOMOUNT), Pki)
  {
    var t := Tail(s, Pki);
    var r := Apply(t, AllMountOps(c), NOMOUNT);
    AllMountOpsAreTame(c);
    ApplyAppend(c.apiMounts + t, ApiMountOps(c), AddonMountOps(c), NOMOUNT);
    RefreshSplits(s, c.apiMounts, Pki, AllMountOps(c), VOLUMES, NOMOUNT);
    TailKeeps(s, Pki, VOLUMES);
    SystemMountsKeep(t, c);
    TailKeeps(r, Pki, VOLUMES);
    TailOfPresent(r, Pki);
  }

  /** The kube-apiserver mounts its volumes where they belong; kine's and Konnectivity's only with them. */
  lemma MountsAreCurrent(s: Mounts, c: Config)
    requires Clear(c.apiMounts, VOLUMES) && Neat(s, Pki)
    ensures
      var m := FinalMounts(s, c);
      && Has(m, Pki) && Get(m, Pki, NOMOUNT) == Mount("/etc/kubernetes/pki", true, "")
      && Has(m, EtcCa) && Get(m, EtcCa, NOMOUNT) == Mount("/etc/ca-certificates", true, "")
      && Has(m, UsrShareCa) && Get(m, UsrShareCa, NOMOUNT) == Mount("/usr/share/ca-certificates", true, "")
      && Has(m, UsrLocalCa) && Get(m, UsrLocalCa, NOMOUNT) == Mount("/usr/local/share/ca-certificates", true, "")
      && (c.driver.KineDriver? ==> Has(m, KineUds) && Get(m, KineUds, NOMOUNT) == Mount("/uds", false, ""))
      && (c.addon.On? ==>
            && Has(m, KonnectivityUds) && Get(m, KonnectivityUds, NOMOUNT).path == "/run/konnectivity"
            && Has(m, EgressConf) && Get(m, EgressConf, NOMOUNT).path == "/etc/kubernetes/konnectivity/configurations")
      && (c.addon.Removing? ==> !Has(m, KonnectivityUds) && !Has(m, EgressConf) && !Has(m, KonnectivityConf))
  {
    var ops, t := AllMountOps(c), Tail(s, Pki);
    var r := Apply(t, ops, NOMOUNT);
    FinalMountsSplit(s, c);
    AllMountOpsAreTame(c);
    forall n | n in VOLUMES
      ensures Has(c.apiMounts + r, n) == Has(r, n) && Get(c.apiMounts + r, n, NOMOUNT) == Get(r, n, NOMOUNT)
    {
      GetBehind(c.apiMounts, r, VOLUMES, n, NOMOUNT);
    }
    SystemMountsAreCurrent(t, c);
  }

  lemma SystemMountsAreCurrent(t: Mounts, c: Config)
    requires Distinct(t)
    ensures
      var m := Apply(t, AllMountOps(c), NOMOUNT);
      && Has(m, Pki) && Get(m, Pki, NOMOUNT) == Mount("/etc/kubernetes/pki", true, "")
      && Has(m, EtcCa) && Get(m, EtcCa, NOMOUNT) == Mount("/etc/ca-certificates", true, "")
      && Has(m, UsrShareCa) && Get(m, UsrShareCa, NOMOUNT) == Mount("/usr/share/ca-certificates", true, "")
      && Has(m, UsrLocalCa) && Get(m, UsrLocalCa, NOMOUNT) == Mount("/usr/local/share/ca-certificates", true, "")
      && (c.driver.KineDriver? ==> Has(m, KineUds) && Get(m, KineUds, NOMOUNT) == Mount("/uds", false, ""))
      && (c.addon.On? ==>
            && Has(m, KonnectivityUds) && Get(m, KonnectivityUds, NOMOUNT).path == "/run/konnectivity"
            && Has(m, EgressConf) && Get(m, EgressConf, NOMOUNT).path == "/etc/kubernetes/konnectivity/configurations")
      && (c.addon.Removing? ==> !Has(m, KonnectivityUds) && !Has(m, EgressConf) && !Has(m, KonnectivityConf))
  {
    var ops, k := AllMountOps(c), if c.driver.Etcd? then 0 else 1;
    AllMountOpsAreOnce(c);
    if k == 1 { ApplyAt(t, ops, 0, NOMOUNT); }
    ApplyAt(t, ops, k, NOMOUNT);
    ApplyAt(t, ops, k + 1, NOMOUNT);
    ApplyAt(t, ops, k + 2, NOMOUNT);
    ApplyAt(t, ops, k + 3, NOMOUNT);
    if !c.addon.Off? {
      ApplyAt(t, ops, k + 4, NOMOUNT);
      ApplyAt(t, ops, k + 5, NOMOUNT);
    }
    if c.addon.Removing? { ApplyAt(t, ops, k + 6, NOMOUNT); }
  }

  lemma {:induction false} TailOfPresent(s: Mounts, first: Name)
    requires Has(s, first)
    ensures Tail(s, first) != []
  {
    if s[0].name != first { TailOfPresent(s[1..], first); }
  }

  /** One build settles the mounts; with kine, whose socket is placed before the others at first, two do. */
  lemma MountsSettle(s: Mounts, c: Config)
    requires Clear(c.apiMounts, VOLUMES) && Neat(s, Pki)
    ensures c.driver.Etcd? || Starts(Tail(s, Pki), Pki) ==> FinalMounts(FinalMounts(s, c), c) == FinalMounts(s, c)
    ensures FinalMounts(FinalMounts(FinalMounts(s, c), c), c) == FinalMounts(FinalMounts(s, c), c)
  {
    var r := FinalMounts(s, c);
    AllMountOpsAreTame(c);
    FinalMountsSplit(s, c);
    FinalMountsSplit(r, c);
    FinalMountsSplit(FinalMounts(r, c), c);
    RefreshTwice(r, c.apiMounts, Pki, AllMountOps(c), VOLUMES, NOMOUNT);
    if c.driver.Etcd? || Starts(Tail(s, Pki), Pki) {
      RefreshTwice(s, c.apiMounts, Pki, AllMountOps(c), VOLUMES, NOMOUNT);
    }
  }

  /** With kine the first build without a system's part puts the socket in front of the other mounts. */
  lemma KineSocketComesFirst(s: Mounts, c: Config)
    requires Clear(c.apiMounts, VOLUMES) && c.driver.KineDriver? && Tail(s, Pki) == []
    ensures |FinalMounts(s, c)| > |c.apiMounts| && FinalMounts(s, c)[|c.apiMounts|].name == KineUds
  {
    var ops := AllMountOps(c);
    FinalMountsSplit(s, c);
    AllMountOpsAreTame(c);
    DoKeeps([], ops[0], VOLUMES, NOMOUNT);
    ApplyKeeps(Do([], ops[0], NOMOUNT), ops[1..], VOLUMES, KineUds, NOMOUNT);
  }

  /** One build is enough exactly with etcd or when the PKI is already mounted. */
  lemma OneBuildSettlesMountsExactly(s: Mounts, c: Config)
    requires Clear(c.apiMounts, VOLUMES) && Neat(s, Pki)
    ensures FinalMounts(FinalMounts(s, c), c) == FinalMounts(s, c) <==> c.driver.Etcd? || Tail(s, Pki) != []
  {
    TailKeeps(s, Pki, VOLUMES);
    MountsSettle(s, c);
    if c.driver.KineDriver? && Tail(s, Pki) == [] {
      var m, n := FinalMounts(s, c), |c.apiMounts|;
      KineSocketComesFirst(s, c);
      FinalMountsSplit(s, c);
      FinalMountsSplit(m, c);
      assert FinalMounts(m, c)[n].name == Pki;
    }
  }

  /** A script for a container whose first mount is always the same one. */
  ghost predicate Leads(ops: seq<Op<Name, Mount>>, first: Name) {
    && Once(ops) && Among(ops, VOLUMES) && Repeatable(ops)
    && ops != [] && ops[0].name == first && forall i :: 0 <= i < |ops| ==> ops[i].Write?
  }

  lemma OwnMountsSettle(s: Mounts, user: Mounts, first: Name, ops: seq<Op<Name, Mount>>)
    requires Clear(user, VOLUMES) && Neat(s, first) && Leads(ops, first)
    ensures
      var r := Refresh(s, user, first, ops, NOMOUNT);
      && Refresh(r, user, first, ops, NOMOUNT) == r
      && r == user + Tail(r, first) && Neat(r, first)
  {
    var t := Tail(s, first);
    assert ops[0].name in VOLUMES;
    TailKeeps(s, first, VOLUMES);
    ApplyKeeps(t, ops, VOLUMES, first, NOMOUNT);
    RefreshSplits(s, user, first, ops, VOLUMES, NOMOUNT);
    RefreshTwice(s, user, first, ops, VOLUMES, NOMOUNT);
  }

  lemma SchedulerOpsLead()
    ensures Leads(SchedulerMountOps(), SchedulerConf)
  {}

  lemma ManagerOpsLead()
    ensures Leads(ManagerMountOps(), ManagerConf)
  {}
}
