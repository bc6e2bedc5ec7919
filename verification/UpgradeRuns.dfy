/**
 * The desired and the recorded Kubernetes version over whole runs: admitted edits interleave with
 * passes, which go through the upgrade handler and, later, the Deployment handler.
 */
module UpgradeRuns {
  import opened Common
  import opened Versions

  datatype Stage = AtUpgrade | AtDeployment

  /** `seen` is the version in the copy of the tenant that the pass works on. */
  datatype Pass = Pass(stage: Stage, seen: Version)

  datatype World = World(spec: Version, recorded: Option<Version>, status: Status, pass: Option<Pass>)

  datatype Action =
    | Edit(version: Option<Version>)
    | Begin
    | Plan(replicas: nat, available: bool, saved: bool)   // the upgrade handler
    | Deploy(status: Status, saved: bool)                 // the Deployment handler, with the status it computes
    | Quit

  /** Patch releases and the next minor release may be upgraded to; the major version is not looked at. */
  predicate Upgradable(v: Version, v': Version) {
    v'.minor >= v.minor && (v'.minor == v.minor || v'.minor == v.minor + 1)
  }

  /** How the upgrade handler ends: it fails, goes on, or goes on after recording Upgrading. */
  datatype Verdict = Refused | Passes | Starts

  function PlanVerdict(recorded: Option<Version>, seen: Version, status: Status, replicas: nat, available: bool): Verdict {
    if recorded.None? || recorded.value == seen || status.Upgrading? then Passes
    else if !available || !Upgradable(recorded.value, seen) then Refused
    else if replicas > 0 then Starts
    else Passes
  }

  function PlanStep(w: World, replicas: nat, available: bool, saved: bool): Option<World> {
    if w.pass.None? || !w.pass.value.stage.AtUpgrade? then None
    else
      var p := w.pass.value;
      match PlanVerdict(w.recorded, p.seen, w.status, replicas, available)
      case Refused => Some(w.(pass := None))
      case Passes => Some(w.(pass := Some(Pass(AtDeployment, p.seen))))
      case Starts =>
        // a write commits only over the tenant as it stands, so the copy is current afterwards
        if !saved then Some(w.(pass := None))
        else Some(w.(status := if Some(w.spec) == w.recorded then Ready else Upgrading, pass := Some(Pass(AtDeployment, w.spec))))
  }

  function DeployStep(w: World, status: Status, saved: bool): Option<World> {
    if w.pass.None? || !w.pass.value.stage.AtDeployment? then None
    else if !saved then Some(w.(pass := None))
    else Some(w.(status := status,
                 recorded := if status.Ready? || status.Sleeping? then Some(w.spec) else w.recorded,
                 pass := None))
  }

  function Step(w: World, a: Action): Option<World> {
    match a
    case Edit(v) =>
      if v.Some? && Fits(w.spec) && Fits(v.value) && AdmitsUpdate(Some(w.spec), v, false) then Some(w.(spec := v.value)) else None
    case Begin => if w.pass.None? then Some(w.(pass := Some(Pass(AtUpgrade, w.spec)))) else None
    case Plan(r, available, saved) => PlanStep(w, r, available, saved)
    case Deploy(status, saved) => DeployStep(w, status, saved)
    case Quit => if w.pass.Some? then Some(w.(pass := None)) else None
  }

  predicate Initial(w: World) {
    Fits(w.spec) && AdmitsCreate(Some(w.spec)) && w.recorded.None? && w.status.Unset? && w.pass.None?
  }

  /** A run of a tenant that is not being deleted. */
  predicate Run(trace: seq<World>, actions: seq<Action>) {
    Execution(trace, actions) && Initial(trace[0])
  }

  predicate Execution(trace: seq<World>, actions: seq<Action>) {
    && |trace| == |actions| + 1
    && forall i {:trigger actions[i]} :: 0 <= i < |actions| ==> Step(trace[i], actions[i]) == Some(trace[i + 1])
  }

  // ---------- invariant ----------

  predicate Inv(w: World) {
    && Fits(w.spec) && NotBehind(w.spec, SUPPORTED)
    && (w.recorded.Some? ==> NotBehind(w.recorded.value, w.spec))
    && (w.pass.Some? ==> NotBehind(w.pass.value.seen, w.spec)
                         && (w.recorded.Some? ==> NotBehind(w.recorded.value, w.pass.value.seen)))
  }

  lemma StepKeepsInv(w: World, a: Action, w': World)
    requires Inv(w) && Step(w, a) == Some(w')
    ensures Inv(w') && NotBehind(w.spec, w'.spec)
    ensures w.recorded.Some? ==> w'.recorded.Some? && NotBehind(w.recorded.value, w'.recorded.value)
  {
    if a.Edit? { AdmittedEditMovesOneMinor(w.spec, a.version.value); }
  }

  lemma {:induction false} InvHolds(trace: seq<World>, actions: seq<Action>, n: nat)
    requires Run(trace, actions) && n < |trace|
    ensures Inv(trace[n])
  {
    if n > 0 {
      InvHolds(trace, actions, n - 1);
      assert Step(trace[n - 1], actions[n - 1]) == Some(trace[n]);
      StepKeepsInv(trace[n - 1], actions[n - 1], trace[n]);
    } else {
      AdmittedIsSupported(trace[0].spec);
    }
  }

  lemma AdmittedIsSupported(v: Version)
    requires AdmitsCreate(Some(v))
    ensures NotBehind(v, SUPPORTED)
  {}

  // ---------- main results ----------

  /** From any point of a run to any later one, neither version falls back to an earlier release line. */
  lemma {:induction false} VersionsNeverFallBack(trace: seq<World>, actions: seq<Action>, i: nat, j: nat)
    requires Run(trace, actions) && i <= j < |trace|
    ensures NotBehind(trace[i].spec, trace[j].spec) && NotBehind(trace[j].spec, SUPPORTED)
    ensures trace[i].recorded.Some? ==>
      trace[j].recorded.Some? && NotBehind(trace[i].recorded.value, trace[j].recorded.value)
    ensures trace[j].recorded.Some? ==> NotBehind(trace[j].recorded.value, SUPPORTED)
  {
    InvHolds(trace, actions, j);
    if i < j {
      VersionsNeverFallBack(trace, actions, i, j - 1);
      InvHolds(trace, actions, j - 1);
      assert Step(trace[j - 1], actions[j - 1]) == Some(trace[j]);
      StepKeepsInv(trace[j - 1], actions[j - 1], trace[j]);
    }
  }

  /** Every step leaves the desired minor or raises it by one, unless it wraps around. */
  lemma SpecMovesOneMinor(trace: seq<World>, actions: seq<Action>, i: nat)
    requires Run(trace, actions) && i < |actions|
    ensures
      var v, v' := trace[i].spec, trace[i + 1].spec;
      v'.minor == v.minor || v'.minor == v.minor + 1 || (v.minor == LIMIT - 1 && v'.minor == 0 && v.major < v'.major)
  {
    var a := actions[i];
    assert Step(trace[i], a) == Some(trace[i + 1]);
    if a.Edit? { AdmittedEditMovesOneMinor(trace[i].spec, a.version.value); }
  }

  /**
   * A pass goes past the upgrade handler, with a version recorded and no upgrade under way, exactly
   * when the version it saw is the recorded one, or is one that may be upgraded to, is available and
   * its start could be recorded where it has to be.
   */
  lemma PassPastUpgradeMovesOneMinor(trace: seq<World>, actions: seq<Action>, i: nat)
    requires Run(trace, actions) && i < |actions| && actions[i].Plan?
    requires trace[i].recorded.Some? && !trace[i].status.Upgrading?
    ensures
      var w, a := trace[i], actions[i];
      var v, v' := w.recorded.value, w.pass.value.seen;
      && (trace[i + 1].pass.Some? <==>
            v' == v || (a.available && (v'.minor == v.minor || v'.minor == v.minor + 1) && (a.replicas > 0 ==> a.saved)))
      && (trace[i + 1].pass.Some? && v' != v && a.replicas > 0 ==>
            trace[i + 1].status == if w.spec == v then Ready else Upgrading)
  {
    assert Step(trace[i], actions[i]) == Some(trace[i + 1]);
  }

  // ---------- one minor at a time ----------

  /** From `v` the minor stays or rises by one. */
  predicate OneMinor(v: Version, v': Version) {
    v'.minor == v.minor || v'.minor == v.minor + 1
  }

  /** The recorded version moves by more than that. */
  predicate Skips(w: World, w': World) {
    w.recorded.Some? && w'.recorded.Some? && !OneMinor(w.recorded.value, w'.recorded.value)
  }

  lemma {:induction false} RecordedStays(trace: seq<World>, actions: seq<Action>, i: nat, j: nat)
    requires Run(trace, actions) && i <= j < |trace|
    requires forall k :: i <= k <= j ==> trace[k].pass.Some? && trace[k].pass.value.stage.AtDeployment?
    ensures trace[j].recorded == trace[i].recorded
  {
    if i < j {
      RecordedStays(trace, actions, i, j - 1);
      assert Step(trace[j - 1], actions[j - 1]) == Some(trace[j]);
    }
  }

  /**
   * A pass that found no upgrade under way, and whose version is still the desired one when the
   * Deployment handler records it, moves the recorded version by zero or one minor.
   */
  lemma UndisturbedPassMovesOneMinor(trace: seq<World>, actions: seq<Action>, i: nat, j: nat)
    requires Run(trace, actions) && i < j < |actions| && actions[i].Plan? && actions[j].Deploy?
    requires forall k :: i < k <= j ==> trace[k].pass.Some? && trace[k].pass.value.stage.AtDeployment?
    requires trace[i].recorded.Some? && !trace[i].status.Upgrading? && trace[j].spec == trace[i].pass.value.seen
    ensures trace[j].recorded == trace[i].recorded && trace[j + 1].recorded.Some? && !Skips(trace[j], trace[j + 1])
  {
    assert Step(trace[i], actions[i]) == Some(trace[i + 1]);
    RecordedStays(trace, actions, i + 1, j);
    assert Step(trace[j], actions[j]) == Some(trace[j + 1]);
  }

  /** Nothing will check the desired version again before it is recorded: an upgrade is under way, or a pass is past the check or will be. */
  predicate Unchecked(w: World) {
    || w.status.Upgrading?
    || (w.pass.Some? && (w.pass.value.stage.AtDeployment? || Some(w.pass.value.seen) == w.recorded
                         || (w.recorded.Some? && Upgradable(w.recorded.value, w.pass.value.seen))))
  }

  /** The edits that do no harm: those that will be checked, and those within one minor of the recorded version. */
  predicate SafeEdit(w: World, v: Version) {
    w.recorded.None? || !Unchecked(w) || OneMinor(w.recorded.value, v)
  }

  /** What is recorded next without a check is within one minor. */
  predicate Orderly(w: World) {
    w.recorded.Some? && Unchecked(w) ==> OneMinor(w.recorded.value, w.spec)
  }

  lemma StepKeepsOrder(w: World, a: Action, w': World)
    requires Orderly(w) && Step(w, a) == Some(w') && (a.Edit? ==> SafeEdit(w, a.version.value))
    ensures Orderly(w') && !Skips(w, w')
  {}

  lemma {:induction false} OrderHolds(trace: seq<World>, actions: seq<Action>, n: nat)
    requires Execution(trace, actions) && Orderly(trace[0]) && n < |trace|
    requires forall i {:trigger actions[i]} :: 0 <= i < n && actions[i].Edit? ==> SafeEdit(trace[i], actions[i].version.value)
    ensures Orderly(trace[n])
  {
    if n > 0 {
      OrderHolds(trace, actions, n - 1);
      assert Step(trace[n - 1], actions[n - 1]) == Some(trace[n]);
      StepKeepsOrder(trace[n - 1], actions[n - 1], trace[n]);
    }
  }

  /** In every run whose edits are safe the recorded version moves one minor at a time. */
  lemma RecordedMovesOneMinor(trace: seq<World>, actions: seq<Action>, n: nat)
    requires Run(trace, actions) && n < |actions|
    requires forall i {:trigger actions[i]} :: 0 <= i <= n && actions[i].Edit? ==> SafeEdit(trace[i], actions[i].version.value)
    ensures Orderly(trace[n]) && !Skips(trace[n], trace[n + 1])
  {
    OrderHolds(trace, actions, n);
    assert Step(trace[n], actions[n]) == Some(trace[n + 1]);
    StepKeepsOrder(trace[n], actions[n], trace[n + 1]);
  }

  /** Passes alone, without a further edit, can make the recorded version skip a minor. */
  ghost predicate CanSkip(w: World) {
    exists trace: seq<World>, actions, n: nat :: SkipsAt(w, trace, actions, n)
  }

  predicate SkipsAt(w: World, trace: seq<World>, actions: seq<Action>, n: nat) {
    && Execution(trace, actions) && trace[0] == w && n < |actions| && Skips(trace[n], trace[n + 1])
    && forall i {:trigger actions[i]} :: 0 <= i < |actions| ==> !actions[i].Edit?
  }

  lemma SkipInOne(w: World)
    requires w.recorded.Some? && !OneMinor(w.recorded.value, w.spec) && w.pass.Some? && w.pass.value.stage.AtDeployment?
    ensures CanSkip(w)
  {
    var a := [Deploy(Ready, true)];
    assert SkipsAt(w, [w, Step(w, a[0]).value], a, 0);
  }

  lemma SkipInTwo(w: World)
    requires w.recorded.Some? && !OneMinor(w.recorded.value, w.spec) && Unchecked(w)
    requires w.pass.Some? && w.pass.value.stage.AtUpgrade?
    ensures CanSkip(w)
  {
    var a := [Plan(1, true, true), Deploy(Ready, true)];
    var w1 := Step(w, a[0]).value;
    assert SkipsAt(w, [w, w1, Step(w1, a[1]).value], a, 1);
  }

  lemma SkipInThree(w: World)
    requires w.recorded.Some? && !OneMinor(w.recorded.value, w.spec) && w.pass.None? && w.status.Upgrading?
    ensures CanSkip(w)
  {
    var a := [Begin, Plan(1, true, true), Deploy(Ready, true)];
    var w1 := Step(w, a[0]).value;
    var w2 := Step(w1, a[1]).value;
    assert SkipsAt(w, [w, w1, w2, Step(w2, a[2]).value], a, 2);
  }

  /**
   * The condition is exact: from an orderly state, an edit makes a skip possible if and only if it is
   * not safe, that is, it lands further than one minor from the recorded version while an upgrade is
   * under way or between the handlers of a pass that goes on.
   */
  lemma SkipNeedsUnsafeEdit(w: World, v: Version)
    requires Orderly(w) && Step(w, Edit(Some(v))).Some?
    ensures CanSkip(Step(w, Edit(Some(v))).value) <==> !SafeEdit(w, v)
  {
    var w' := w.(spec := v);
    if SafeEdit(w, v) {
      StepKeepsOrder(w, Edit(Some(v)), w');
      if CanSkip(w') {
        var trace: seq<World>, actions, n: nat :| SkipsAt(w', trace, actions, n);
        OrderHolds(trace, actions, n);
        assert Step(trace[n], actions[n]) == Some(trace[n + 1]);
        StepKeepsOrder(trace[n], actions[n], trace[n + 1]);
      }
    } else if w'.pass.None? {
      SkipInThree(w');
    } else if w'.pass.value.stage.AtUpgrade? {
      SkipInTwo(w');
    } else {
      SkipInOne(w');
    }
  }

  // ---------- two runs that skip ----------

  function Minor(n: nat): Version { Version(1, n, 0, []) }

  /** A tenant created with 1.30. */
  function Fresh(): World { World(Minor(30), None, Unset, None) }

  /** Some run of the tenant leads to `w`. */
  ghost predicate Reached(w: World) {
    exists trace: seq<World>, actions :: Run(trace, actions) && trace[0] == Fresh() && trace[|actions|] == w
  }

  lemma Then(w: World, a: Action) returns (w': World)
    requires Reached(w) && Step(w, a).Some?
    ensures Reached(w') && w' == Step(w, a).value
  {
    var trace: seq<World>, actions :| Run(trace, actions) && trace[0] == Fresh() && trace[|actions|] == w;
    w' := Step(w, a).value;
    var trace', actions' := trace + [w'], actions + [a];
    forall i {:trigger actions'[i]} | 0 <= i < |actions'| ensures Step(trace'[i], actions'[i]) == Some(trace'[i + 1]) {
      if i < |actions| { assert actions'[i] == actions[i]; }
    }
    assert Run(trace', actions');
  }

  /** 1.30 recorded with the given status, by a first pass. */
  lemma SettledIsReachable(status: Status) returns (w: World)
    requires status.Ready? || status.Sleeping?
    ensures Reached(w) && w == World(Minor(30), Some(Minor(30)), status, None)
  {
    assert Run([Fresh()], []);
    w := Then(Fresh(), Begin);
    w := Then(w, Plan(2, true, true));
    w := Then(w, Deploy(status, true));
  }

  /** The desired version moves again while Upgrading is recorded. */
  lemma RecordedMaySkipAMinor() returns (w: World, w': World)
    ensures Reached(w) && Step(w, Deploy(Ready, true)) == Some(w')
    ensures w.recorded == Some(Minor(30)) && w'.recorded == Some(Minor(32)) && Skips(w, w')
  {
    w := SettledIsReachable(Ready);
    w := Then(w, Edit(Some(Minor(31))));
    w := Then(w, Begin);
    w := Then(w, Plan(2, true, true));
    w := Then(w, Deploy(Upgrading, true));
    w := Then(w, Edit(Some(Minor(32))));
    w := Then(w, Begin);
    w := Then(w, Plan(2, true, true));
    w' := Step(w, Deploy(Ready, true)).value;
  }

  /** With no replicas Upgrading is never recorded: the desired version moves between the two handlers. */
  lemma SleepingTenantMaySkipAMinor() returns (w: World, w': World)
    ensures Reached(w) && w.status == Sleeping && Step(w, Deploy(Sleeping, true)) == Some(w')
    ensures w.recorded == Some(Minor(30)) && w'.recorded == Some(Minor(32)) && Skips(w, w')
  {
    w := SettledIsReachable(Sleeping);
    w := Then(w, Edit(Some(Minor(31))));
    w := Then(w, Begin);
    w := Then(w, Plan(0, true, false));
    w := Then(w, Edit(Some(Minor(32))));
    w' := Step(w, Deploy(Sleeping, true)).value;
  }

  // ---------- the upgrade handler in its own form ----------

  class UpgradeHandler {
    var inProgress: bool

    /** A handler is made anew for every pass. */
    constructor ()
      ensures !inProgress
    {
      inProgress := false;
    }

    method CreateOrUpdate(recorded: Option<Version>, seen: Version, status: Status, replicas: nat, available: bool) returns (ok: bool)
      requires !inProgress
      modifies this
      ensures ok <==> !PlanVerdict(recorded, seen, status, replicas, available).Refused?
      ensures inProgress <==> PlanVerdict(recorded, seen, status, replicas, available).Starts?
    {
      if recorded.None? { inProgress := false; return true; }
      if recorded.value == seen { inProgress := false; return true; }
      if status.Upgrading? { return true; }
      if !available { return false; }
      var upgradable := IsUpgradable(recorded.value, seen);
      if !upgradable { return false; }
      if replicas > 0 { inProgress := true; }
      return true;
    }

    method IsUpgradable(v: Version, v': Version) returns (ok: bool)
      ensures ok == Upgradable(v, v')
    {
      if v'.minor < v.minor { return false; }
      if v'.minor == v.minor { return true; }
      if v'.minor == v.minor + 1 { return true; }
      return false;
    }
  }
}
