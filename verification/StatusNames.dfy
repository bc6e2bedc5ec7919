/**
 * A pass walks an ordered list of handlers.  Handlers look up objects by names that other handlers
 * recorded in the tenant's status, possibly in an earlier pass; any handler and any status write may
 * fail, which ends the pass.
 */
module StatusNames {
  import opened Common

  /** What a handler records; `Endpoint` covers the Service's name and the control plane endpoint. */
  datatype Field =
    | Endpoint | KubeadmConfig | CA | FrontProxyCA | ServiceAccount | APIServer | KubeletClient | FrontProxyClient
    | AdminKubeconfig | ManagerKubeconfig | SchedulerKubeconfig | StorageConfig | StorageSetup | StorageCertificate
    | Version | KonnectivityCertificate

  /** Fields recorded whatever the add-ons, in the order in which a first pass reaches them. */
  function Rank(f: Field): nat {
    match f
    case Endpoint => 0 case KubeadmConfig => 1 case CA => 2 case FrontProxyCA => 3 case ServiceAccount => 4
    case APIServer => 5 case KubeletClient => 6 case FrontProxyClient => 7 case AdminKubeconfig => 8
    case ManagerKubeconfig => 9 case SchedulerKubeconfig => 10 case StorageConfig => 11 case StorageSetup => 12
    case StorageCertificate => 13 case Version => 14 case KonnectivityCertificate => 15
  }

  datatype Handler =
    | Migrate | Upgrade
    | Record(field: Field)
    | Silent                    // records none of the names that are looked up
    | KonnectivityCert | KonnectivityConf

  function Overrides(n: nat): seq<Handler> {
    if n == 0 then [] else [Silent, Silent, Record(StorageSetup), Record(StorageCertificate)] + Overrides(n - 1)
  }

  function Core(): seq<Handler> {
    [Migrate, Upgrade, Record(Endpoint), Record(KubeadmConfig),
     Record(CA), Record(FrontProxyCA), Record(ServiceAccount), Record(APIServer), Record(KubeletClient), Record(FrontProxyClient),
     Record(AdminKubeconfig), Record(AdminKubeconfig), Record(ManagerKubeconfig), Record(SchedulerKubeconfig),
     Silent, Record(StorageConfig), Record(StorageSetup), Record(StorageCertificate)]
  }

  /** The handlers of a pass, for `n` overridden resources. */
  function Handlers(n: nat): seq<Handler> {
    Core() + Overrides(n) + [Silent, KonnectivityCert, KonnectivityConf, Record(Version), Silent, Silent, Silent]
  }

  type Status = map<Field, string>

  /** `konnectivity` comes from the copy of the tenant the pass works on; a status write may refresh it. */
  datatype Pass = Pass(handlers: seq<Handler>, next: nat, konnectivity: bool)

  datatype World = World(status: Status, pass: Option<Pass>)

  /**
   * The names a handler may look up.  The leading handlers use the tenant's kubeconfig only when a
   * data store or a version is recorded and differs from the specification.
   */
  function Needs(h: Handler, status: Status, konnectivity: bool): set<Field> {
    match h
    case Migrate => if StorageConfig in status then {AdminKubeconfig} else {}
    case Upgrade => if Version in status then {AdminKubeconfig} else {}
    case Silent => {}
    case KonnectivityCert => if konnectivity then {CA} else {}
    case KonnectivityConf => if konnectivity then {CA, KonnectivityCertificate} else {}
    case Record(f) =>
      match f
      case Endpoint => {}
      case KubeadmConfig => {Endpoint}
      case CA => {KubeadmConfig}
      case FrontProxyCA => {KubeadmConfig}
      case ServiceAccount => {KubeadmConfig}
      case APIServer => {KubeadmConfig, CA, Endpoint}
      case KubeletClient => {KubeadmConfig, CA}
      case FrontProxyClient => {KubeadmConfig, FrontProxyCA}
      case AdminKubeconfig => {KubeadmConfig, CA}
      case ManagerKubeconfig => {KubeadmConfig, CA}
      case SchedulerKubeconfig => {KubeadmConfig, CA}
      case StorageConfig => {}
      case StorageSetup => {StorageConfig}
      case StorageCertificate => {StorageSetup}
      case Version =>
        {Endpoint, CA, FrontProxyCA, ServiceAccount, APIServer, KubeletClient, FrontProxyClient,
         ManagerKubeconfig, SchedulerKubeconfig, StorageConfig, StorageSetup, StorageCertificate}
      case KonnectivityCertificate => {}
  }

  /** How a handler that changed no object decides whether to write its status. */
  datatype Rule = BySum | ByName | IfMissing

  function RuleOf(f: Field): Rule {
    match f
    case Endpoint => ByName case CA => ByName case ServiceAccount => ByName
    case AdminKubeconfig => IfMissing case ManagerKubeconfig => IfMissing case SchedulerKubeconfig => IfMissing
    case _ => BySum
  }

  /** What a handler reports: whether it changed its object, and that object's checksum or value. */
  datatype Outcome =
    | Fails
    | Handled(changed: bool, sum: string, saved: bool, refreshed: Option<bool>)

  function Recorded(status: Status, f: Field): string {
    if f in status then status[f] else ""
  }

  predicate MustWrite(status: Status, f: Field, o: Outcome)
    requires o.Handled?
  {
    || o.changed
    || (match RuleOf(f)
        case BySum => Recorded(status, f) != o.sum
        case ByName => f !in status || status[f] != o.sum
        case IfMissing => f !in status)
  }

  function Ended(w: World): World { w.(pass := None) }

  /** A write that is saved records the field; it may have had to fetch the tenant again. */
  function Write(w: World, p: Pass, f: Field, o: Outcome): World
    requires o.Handled?
  {
    if !o.saved then Ended(w)
    else
      var p' := p.(next := p.next + 1, konnectivity := if o.refreshed.Some? then o.refreshed.value else p.konnectivity);
      if f.KonnectivityCertificate? && !p'.konnectivity then w.(status := w.status - {f}, pass := Some(p'))
      else w.(status := w.status[f := o.sum], pass := Some(p'))
  }

  /** One handler of the pass. */
  function Handle(w: World, o: Outcome): World
    requires w.pass.Some? && w.pass.value.next < |w.pass.value.handlers|
  {
    var p := w.pass.value;
    var on := w.(pass := Some(p.(next := p.next + 1)));
    if o.Fails? then Ended(w)
    else
      match p.handlers[p.next]
      case Record(f) => if MustWrite(w.status, f, o) then Write(w, p, f, o) else on
      case KonnectivityCert =>
        // without the add-on nothing is changed and there is no checksum to compare with
        var o' := if p.konnectivity then o else o.(changed := false, sum := "");
        if MustWrite(w.status, KonnectivityCertificate, o') then Write(w, p, KonnectivityCertificate, o') else on
      case _ => if o.changed then (if o.saved then on else Ended(w)) else on
  }

  datatype Action =
    | Begin(overrides: nat, konnectivity: bool)
    | Do(o: Outcome)
    | Quit                      // the pass ends, asked back or complete

  function Step(w: World, a: Action): Option<World> {
    match a
    case Begin(n, k) => if w.pass.None? then Some(w.(pass := Some(Pass(Handlers(n), 0, k)))) else None
    case Do(o) => if w.pass.Some? && w.pass.value.next < |w.pass.value.handlers| then Some(Handle(w, o)) else None
    case Quit => if w.pass.Some? then Some(Ended(w)) else None
  }

  /** Objects were created by Kamaji, so they carry a checksum. */
  predicate Native(a: Action) {
    a.Do? && a.o.Handled? ==> a.o.sum != ""
  }

  predicate Run(trace: seq<World>, actions: seq<Action>) {
    && |trace| == |actions| + 1 && trace[0].status == map[] && trace[0].pass.None?
    && forall i {:trigger actions[i]} :: 0 <= i < |actions| ==> Step(trace[i], actions[i]) == Some(trace[i + 1]) && Native(actions[i])
  }

  // ---------- the order of the handlers ----------

  predicate Before(hs: seq<Handler>, n: nat, g: Field)
    requires n <= |hs|
  {
    exists i :: 0 <= i < n && hs[i] == Record(g)
  }

  /** Where a pass first records a field of the core. */
  function First(f: Field): nat
    requires Rank(f) < 14
  {
    match f
    case Endpoint => 2 case KubeadmConfig => 3 case CA => 4 case FrontProxyCA => 5 case ServiceAccount => 6
    case APIServer => 7 case KubeletClient => 8 case FrontProxyClient => 9 case AdminKubeconfig => 10
    case ManagerKubeconfig => 12 case SchedulerKubeconfig => 13 case StorageConfig => 15 case StorageSetup => 16
    case StorageCertificate => 17
  }

  lemma FirstRecords(f: Field)
    requires Rank(f) < 14
    ensures First(f) < |Core()| && Core()[First(f)] == Record(f)
  {}

  lemma FirstIsFirst(i: nat)
    requires i < |Core()| && Core()[i].Record?
    ensures Rank(Core()[i].field) < 14 && First(Core()[i].field) <= i
  {}

  lemma {:induction false} OverridesRecordNothingNew(n: nat, i: nat)
    requires i < |Overrides(n)| && Overrides(n)[i].Record?
    ensures Rank(Overrides(n)[i].field) < 14
  {
    if i >= 4 { OverridesRecordNothingNew(n - 1, i - 4); }
  }

  lemma {:induction false} OverridesAreQuiet(n: nat, i: nat)
    requires i < |Overrides(n)|
    ensures Overrides(n)[i].Silent? || Overrides(n)[i].Record?
  {
    if i >= 4 { OverridesAreQuiet(n - 1, i - 4); }
  }

  lemma CoreBefore(n: nat, i: nat, g: Field)
    requires i <= |Handlers(n)| && Rank(g) < 14 && First(g) < i
    ensures Before(Handlers(n), i, g)
  {
    FirstRecords(g);
    assert Handlers(n)[First(g)] == Core()[First(g)];
  }

  /** Whatever a handler records, every field of lower rank was recorded before in the same pass. */
  lemma LowerRanksBefore(n: nat, i: nat, g: Field)
    requires i < |Handlers(n)| && Handlers(n)[i].Record? && Rank(g) < Rank(Handlers(n)[i].field)
    ensures !Handlers(n)[i].field.KonnectivityCertificate? && Before(Handlers(n), i, g)
  {
    var hs, m := Handlers(n), |Core()|;
    if i < m {
      assert hs[i] == Core()[i];
      FirstIsFirst(i);
    } else if i < m + |Overrides(n)| {
      assert hs[i] == Overrides(n)[i - m];
      OverridesRecordNothingNew(n, i - m);
    } else {
      assert hs[i] == [Silent, KonnectivityCert, KonnectivityConf, Record(Version), Silent, Silent, Silent][i - m - |Overrides(n)|];
    }
    if Rank(g) < 14 {
      FirstRecords(g);
      CoreBefore(n, i, g);
    }
  }

  lemma CoreIsPlain(n: nat, i: nat)
    requires i < |Handlers(n)|
    ensures i < |Core()| ==> !Handlers(n)[i].KonnectivityCert? && !Handlers(n)[i].KonnectivityConf?
  {
    if i < |Core()| { assert Handlers(n)[i] == Core()[i]; }
  }

  /** The Konnectivity handlers stand side by side, behind the core. */
  lemma KonnectivityPlaces(n: nat, i: nat)
    requires i < |Handlers(n)| && (Handlers(n)[i].KonnectivityCert? || Handlers(n)[i].KonnectivityConf?)
    ensures i > |Core()| && (Handlers(n)[i].KonnectivityConf? ==> Handlers(n)[i - 1] == KonnectivityCert)
  {
    var hs, m, k := Handlers(n), |Core()|, |Overrides(n)|;
    CoreIsPlain(n, i);
    if m <= i < m + k {
      assert hs[i] == Overrides(n)[i - m];
      OverridesAreQuiet(n, i - m);
    } else if i >= m + k {
      var tail := [Silent, KonnectivityCert, KonnectivityConf, Record(Version), Silent, Silent, Silent];
      assert forall j :: 0 <= j < 7 ==> hs[m + k + j] == tail[j];
      assert hs[i] == tail[i - m - k];
    }
  }

  /** What the lookups rely on: lower ranks come first, and the Konnectivity handlers stand side by side behind the CA. */
  ghost predicate Sound(hs: seq<Handler>) {
    && (forall i :: 0 <= i < |hs| && hs[i].Record? ==> !hs[i].field.KonnectivityCertificate?)
    && (forall i, g :: 0 <= i < |hs| && hs[i].Record? && Rank(g) < Rank(hs[i].field) ==> Before(hs, i, g))
    && (forall i :: 0 <= i < |hs| && (hs[i].KonnectivityCert? || hs[i].KonnectivityConf?) ==> Before(hs, i, CA))
    && (forall i :: 0 <= i < |hs| && hs[i].KonnectivityConf? ==> i > 0 && hs[i - 1] == KonnectivityCert)
  }

  lemma HandlersAreSound(n: nat)
    ensures Sound(Handlers(n))
  {
    var hs := Handlers(n);
    forall i, g | 0 <= i < |hs| && hs[i].Record? && Rank(g) < Rank(hs[i].field) ensures Before(hs, i, g) {
      LowerRanksBefore(n, i, g);
    }
    forall i | 0 <= i < |hs| && hs[i].Record? ensures !hs[i].field.KonnectivityCertificate? {
      if hs[i].field.KonnectivityCertificate? { LowerRanksBefore(n, i, Endpoint); }
    }
    forall i | 0 <= i < |hs| && (hs[i].KonnectivityCert? || hs[i].KonnectivityConf?)
      ensures Before(hs, i, CA) && (hs[i].KonnectivityConf? ==> i > 0 && hs[i - 1] == KonnectivityCert)
    {
      KonnectivityPlaces(n, i);
      CoreBefore(n, i, CA);
    }
  }

  // ---------- the invariant ----------

  predicate Closed(status: Status) {
    forall f, g :: f in status && !f.KonnectivityCertificate? && Rank(g) < Rank(f) ==> g in status
  }

  ghost predicate Progress(status: Status, p: Pass) {
    && Sound(p.handlers)
    && p.next <= |p.handlers|
    && (forall i :: 0 <= i < p.next && p.handlers[i].Record? ==> p.handlers[i].field in status)
    && (p.next < |p.handlers| && p.handlers[p.next].KonnectivityConf? && p.konnectivity ==> KonnectivityCertificate in status)
  }

  ghost predicate Inv(w: World) {
    Closed(w.status) && (w.pass.Some? ==> Progress(w.status, w.pass.value))
  }

  /** The handler a pass stands at. */
  function Current(w: World): Option<Handler> {
    if w.pass.Some? && w.pass.value.next < |w.pass.value.handlers| then Some(w.pass.value.handlers[w.pass.value.next]) else None
  }

  lemma BeforeIsRecorded(status: Status, p: Pass, g: Field)
    requires Progress(status, p) && Before(p.handlers, p.next, g)
    ensures g in status
  {
    var i :| 0 <= i < p.next && p.handlers[i] == Record(g);
  }

  lemma RecordClosed(status: Status, p: Pass, f: Field, sum: string)
    requires Closed(status) && Progress(status, p) && p.next < |p.handlers| && p.handlers[p.next] == Record(f)
    ensures Closed(status[f := sum])
  {
    forall g | Rank(g) < Rank(f) ensures g in status { BeforeIsRecorded(status, p, g); }
  }

  /** A handler that succeeded leaves its field recorded. */
  lemma HandleRecords(w: World, o: Outcome, f: Field)
    requires Current(w) == Some(Record(f)) && !f.KonnectivityCertificate? && (o.Handled? ==> o.sum != "")
    ensures
      var w' := Handle(w, o);
      && (w'.pass.Some? ==> f in w'.status && w'.pass.value == w.pass.value.(next := w.pass.value.next + 1, konnectivity := w'.pass.value.konnectivity))
      && (w'.status == w.status || (o.Handled? && w'.status == w.status[f := o.sum]))
  {}

  lemma RecordKeepsInv(w: World, o: Outcome, f: Field)
    requires Inv(w) && Current(w) == Some(Record(f)) && (o.Handled? ==> o.sum != "")
    ensures Inv(Handle(w, o))
  {
    HandleRecords(w, o, f);
    if o.Handled? { RecordClosed(w.status, w.pass.value, f, o.sum); }
  }

  function Others(status: Status): Status { status - {KonnectivityCertificate} }

  /** The Konnectivity field comes and goes without touching the order of the others. */
  lemma ClosedApart(status: Status, status': Status)
    requires Closed(status) && Others(status) == Others(status')
    ensures Closed(status')
  {
    forall f, g | f in status' && !f.KonnectivityCertificate? && Rank(g) < Rank(f) ensures g in status' {
      assert f in Others(status');
      assert g in Others(status);
    }
  }

  lemma CertLeaves(w: World, o: Outcome)
    requires Current(w) == Some(KonnectivityCert) && (o.Handled? ==> o.sum != "")
    ensures
      var w' := Handle(w, o);
      && Others(w'.status) == Others(w.status)
      && (w'.pass.Some? ==>
            && w'.pass.value == w.pass.value.(next := w.pass.value.next + 1, konnectivity := w'.pass.value.konnectivity)
            && (w'.pass.value.konnectivity ==> KonnectivityCertificate in w'.status))
  {}

  lemma CertKeepsInv(w: World, o: Outcome)
    requires Inv(w) && Current(w) == Some(KonnectivityCert) && (o.Handled? ==> o.sum != "")
    ensures Inv(Handle(w, o))
  {
    var p, w' := w.pass.value, Handle(w, o);
    CertLeaves(w, o);
    ClosedApart(w.status, w'.status);
    forall i | 0 <= i < p.next && p.handlers[i].Record? ensures p.handlers[i].field in w'.status {
      assert p.handlers[i].field in Others(w.status);
    }
  }

  lemma OtherKeepsInv(w: World, o: Outcome)
    requires Inv(w) && Current(w).Some? && !Current(w).value.Record? && !Current(w).value.KonnectivityCert?
    ensures Inv(Handle(w, o))
  {
    var p := w.pass.value;
    assert p.next + 1 < |p.handlers| ==> !p.handlers[p.next + 1].KonnectivityConf?;
  }

  lemma StepKeepsInv(w: World, a: Action, w': World)
    requires Inv(w) && Step(w, a) == Some(w') && Native(a)
    ensures Inv(w')
  {
    match a
    case Begin(n, k) => HandlersAreSound(n);
    case Quit =>
    case Do(o) =>
      var h := Current(w).value;
      if h.Record? {
        RecordKeepsInv(w, o, h.field);
      } else if h.KonnectivityCert? {
        CertKeepsInv(w, o);
      } else {
        OtherKeepsInv(w, o);
      }
  }

  lemma {:induction false} InvHolds(trace: seq<World>, actions: seq<Action>, n: nat)
    requires Run(trace, actions) && n < |trace|
    ensures Inv(trace[n])
  {
    if n > 0 {
      InvHolds(trace, actions, n - 1);
      assert Step(trace[n - 1], actions[n - 1]) == Some(trace[n]);
      StepKeepsInv(trace[n - 1], actions[n - 1], trace[n]);
    }
  }

  // ---------- main results ----------

  lemma NeedsRank(f: Field, status: Status, konnectivity: bool, g: Field)
    requires g in Needs(Record(f), status, konnectivity)
    ensures Rank(g) < Rank(f)
  {}

  lemma RecordFindsName(w: World, f: Field, g: Field)
    requires Inv(w) && Current(w) == Some(Record(f)) && g in Needs(Record(f), w.status, w.pass.value.konnectivity)
    ensures g in w.status
  {
    NeedsRank(f, w.status, w.pass.value.konnectivity, g);
    BeforeIsRecorded(w.status, w.pass.value, g);
  }

  lemma NameIsRecorded(w: World, h: Handler, g: Field)
    requires Inv(w) && Current(w) == Some(h) && g in Needs(h, w.status, w.pass.value.konnectivity)
    ensures g in w.status
  {
    var p := w.pass.value;
    if h.Record? {
      RecordFindsName(w, h.field, g);
    } else if h.KonnectivityCert? || h.KonnectivityConf? {
      BeforeIsRecorded(w.status, p, CA);
    }
  }

  /**
   * In every run, passes cut short at any point included, a handler that is reached finds every
   * name it looks up recorded.
   */
  lemma EveryNameIsRecorded(trace: seq<World>, actions: seq<Action>, n: nat)
    requires Run(trace, actions) && n < |trace| && Current(trace[n]).Some?
    ensures Needs(Current(trace[n]).value, trace[n].status, trace[n].pass.value.konnectivity) <= trace[n].status.Keys
  {
    InvHolds(trace, actions, n);
    var w := trace[n];
    forall g | g in Needs(Current(w).value, w.status, w.pass.value.konnectivity) ensures g in w.status {
      NameIsRecorded(w, Current(w).value, g);
    }
  }

  /**
   * Why objects must carry a checksum: a handler that compares checksums only, finds its object
   * unchanged and without one, and has nothing recorded, goes on without recording the name.
   */
  lemma UnmarkedObjectIsNotRecorded(w: World, o: Outcome, f: Field)
    requires Current(w) == Some(Record(f)) && o.Handled? && !o.changed && f !in w.status && !f.KonnectivityCertificate?
    ensures
      var w' := Handle(w, o);
      w'.pass.Some? && f !in w'.status <==> o.sum == "" && RuleOf(f) == BySum
  {}

  /**
   * What a handler that succeeds leaves recorded: the current value, always for a changed object, and
   * for an unchanged one unless its field is a kubeconfig's, which is written only while missing.
   */
  lemma RecordedIsCurrent(w: World, o: Outcome, f: Field)
    requires Current(w) == Some(Record(f)) && !f.KonnectivityCertificate? && o.Handled? && o.sum != ""
    ensures
      var w' := Handle(w, o);
      var lazy := f == AdminKubeconfig || f == ManagerKubeconfig || f == SchedulerKubeconfig;
      var stale := f in w.status && w.status[f] != o.sum;
      && (w'.pass.Some? ==> f in w'.status && w'.status[f] == if !o.changed && lazy && stale then w.status[f] else o.sum)
      && (w'.pass.Some? <==> o.saved || (!o.changed && f in w.status && (lazy || !stale)))
      && (w'.pass.None? ==> w'.status == w.status)
  {}

  /** Whether the pass takes Konnectivity for enabled changes only with a write that had to fetch the tenant again. */
  lemma RefreshReachesPass(w: World, o: Outcome, f: Field)
    requires Current(w) == Some(Record(f)) && !f.KonnectivityCertificate? && o.Handled? && Handle(w, o).pass.Some?
    ensures
      var k, k' := w.pass.value.konnectivity, Handle(w, o).pass.value.konnectivity;
      k' == if o.refreshed.Some? && (o.changed || Handle(w, o).status != w.status) then o.refreshed.value else k
  {}

  /** Other fields are left alone. */
  lemma HandleTouchesOneField(w: World, o: Outcome, f: Field, g: Field)
    requires Current(w) == Some(Record(f)) && g != f
    ensures g in Handle(w, o).status <==> g in w.status
    ensures g in w.status ==> Handle(w, o).status[g] == w.status[g]
  {}

  /** The Konnectivity certificate is recorded with the add-on, and its record goes without it. */
  lemma KonnectivityRecordIsCurrent(w: World, o: Outcome)
    requires Current(w) == Some(KonnectivityCert) && o.Handled? && o.sum != ""
    ensures
      var w', f := Handle(w, o), KonnectivityCertificate;
      w'.pass.Some? ==>
        var on := w.pass.value.konnectivity && w'.pass.value.konnectivity;
        && (on ==> f in w'.status && w'.status[f] == o.sum)
        && (!on ==> Recorded(w'.status, f) == "")
  {}

  // ---------- the loop over the handlers ----------

  /** What is left of a pass that meets the given outcomes, one per handler. */
  function Play(w: World, outcomes: seq<Outcome>): World
    decreases |outcomes|
  {
    if outcomes == [] || Current(w).None? then w else Play(Handle(w, outcomes[0]), outcomes[1..])
  }

  /** Playing a pass from a good state keeps every handler's lookups met. */
  lemma {:induction false} PlayKeepsInv(w: World, outcomes: seq<Outcome>)
    requires Inv(w) && forall i :: 0 <= i < |outcomes| && outcomes[i].Handled? ==> outcomes[i].sum != ""
    ensures Inv(Play(w, outcomes))
    decreases |outcomes|
  {
    if outcomes != [] && Current(w).Some? {
      StepKeepsInv(w, Do(outcomes[0]), Handle(w, outcomes[0]));
      PlayKeepsInv(Handle(w, outcomes[0]), outcomes[1..]);
    }
  }

  class Reconciler {
    var status: Status

    constructor ()
      ensures status == map[]
    {
      status := map[];
    }

    /** One pass: the handlers in order, with an early return where a handler or a status write fails. */
    method Reconcile(overrides: nat, konnectivity: bool, outcomes: seq<Outcome>) returns (completed: bool)
      requires |outcomes| == |Handlers(overrides)|
      modifies this
      ensures
        var w := Play(World(old(status), Some(Pass(Handlers(overrides), 0, konnectivity))), outcomes);
        status == w.status && completed == w.pass.Some?
    {
      var handlers := Handlers(overrides);
      var enabled := konnectivity;
      ghost var start := World(status, Some(Pass(handlers, 0, konnectivity)));
      for i := 0 to |handlers|
        invariant Play(World(status, Some(Pass(handlers, i, enabled))), outcomes[i..]) == Play(start, outcomes)
      {
        var w := World(status, Some(Pass(handlers, i, enabled)));
        var w' := Handle(w, outcomes[i]);
        HandleAdvances(w, outcomes[i]);
        assert outcomes[i..][1..] == outcomes[i + 1..];
        status := w'.status;
        if w'.pass.None? { return false; }
        enabled := w'.pass.value.konnectivity;
      }
      return true;
    }
  }

  lemma HandleAdvances(w: World, o: Outcome)
    requires Current(w).Some?
    ensures
      var w' := Handle(w, o);
      w'.pass.Some? ==> w'.pass.value == w.pass.value.(next := w.pass.value.next + 1, konnectivity := w'.pass.value.konnectivity)
  {}
}
