/**
 * Switching Konnectivity on and off.  Its port on the Service is to be removed by a clean-up that is
 * guarded by the recorded flag, in a pass that meets the Service handler, the Deployment handler,
 * which records the flag, and then the Konnectivity handler, in this order.
 */
module KonnectivityPort {
  import opened Common
  import opened ServicePorts

  datatype Stage = AtService | AtDeployment | AtKonnectivity

  /** The copy of the tenant that a pass works on: its specification and its recorded flag. */
  datatype Copy = Copy(stage: Stage, spec: Spec, enabled: bool, recorded: bool)

  datatype World = World(ports: seq<Port>, spec: Spec, enabled: bool, recorded: bool, pass: Option<Copy>)

  datatype Action =
    | Edit(spec: Spec, enabled: bool)
    | Begin
    | HandleService
    | HandleDeployment(changed: bool, saved: bool, refreshed: bool)
    | HandleKonnectivity
    | Quit                           // a handler failed, or the pass went on to its end
    | Assign(ports: seq<Port>)       // fields that are not compared

  /**
   * The Deployment handler writes its status when it changed the Deployment or the flag differs from
   * the specification; a write that is not saved ends the pass, and a conflict fetches the tenant again.
   */
  function DeploymentStep(w: World, c: Copy, changed: bool, saved: bool, refreshed: bool): World {
    if !changed && c.recorded == c.enabled then w.(pass := Some(c.(stage := AtKonnectivity)))
    else if !saved then w.(pass := None)
    else
      var c' := if refreshed then c.(spec := w.spec, enabled := w.enabled) else c;
      w.(recorded := c'.enabled, pass := Some(c'.(stage := AtKonnectivity, recorded := c'.enabled)))
  }

  /** The guard of the clean-up. */
  predicate ShouldCleanUp(c: Copy) { !c.enabled && c.recorded }

  function KonnectivityStep(w: World, c: Copy): World {
    if ShouldCleanUp(c) then w.(ports := CleanUp(w.ports), pass := None)
    else if !c.enabled then w.(pass := None)
    else
      match Konnectivity(w.ports, c.spec)
      case None => w.(pass := None)
      case Some(ports) => w.(ports := ports, pass := None)
  }

  function PassStep(w: World, c: Copy, a: Action): Option<World> {
    match (a, c.stage)
    case (HandleService, AtService) => Some(w.(ports := Service(w.ports, c.spec), pass := Some(c.(stage := AtDeployment))))
    case (HandleDeployment(changed, saved, refreshed), AtDeployment) => Some(DeploymentStep(w, c, changed, saved, refreshed))
    case (HandleKonnectivity, AtKonnectivity) => Some(KonnectivityStep(w, c))
    case _ => None
  }

  function Step(w: World, a: Action): Option<World> {
    match a
    case Edit(spec, enabled) => Some(w.(spec := spec, enabled := enabled))
    case Assign(ports) => if Same(ports, w.ports) then Some(w.(ports := ports)) else None
    case Begin => if w.pass.None? then Some(w.(pass := Some(Copy(AtService, w.spec, w.enabled, w.recorded)))) else None
    case Quit => if w.pass.Some? then Some(w.(pass := None)) else None
    case _ => if w.pass.None? then None else PassStep(w, w.pass.value, a)
  }

  predicate Run(trace: seq<World>, actions: seq<Action>) {
    && |trace| == |actions| + 1 && trace[0].pass.None?
    && forall i {:trigger actions[i]} :: 0 <= i < |actions| ==> Step(trace[i], actions[i]) == Some(trace[i + 1])
  }

  // ---------- results ----------

  /** The flag of the copy is the recorded one, and behind the Deployment handler it is the specification's. */
  predicate Inv(w: World) {
    w.pass.Some? ==>
      && w.pass.value.recorded == w.recorded
      && (w.pass.value.stage.AtKonnectivity? ==> w.pass.value.recorded == w.pass.value.enabled)
  }

  lemma {:induction false} InvHolds(trace: seq<World>, actions: seq<Action>, n: nat)
    requires Run(trace, actions) && n < |trace|
    ensures Inv(trace[n])
  {
    if n > 0 {
      InvHolds(trace, actions, n - 1);
      assert Step(trace[n - 1], actions[n - 1]) == Some(trace[n]);
    }
  }

  /** In every run, whatever is edited, fails or is fetched again, the guard is false whenever it is reached: the flag was just recorded. */
  lemma CleanUpIsNeverReached(trace: seq<World>, actions: seq<Action>, n: nat)
    requires Run(trace, actions) && n < |actions| && actions[n].HandleKonnectivity?
    ensures trace[n].pass.Some? && !ShouldCleanUp(trace[n].pass.value) && trace[n].recorded == trace[n].pass.value.enabled
  {
    InvHolds(trace, actions, n);
    assert Step(trace[n], actions[n]) == Some(trace[n + 1]);
  }

  lemma StepKeepsPort(w: World, a: Action, w': World)
    requires Inv(w) && Step(w, a) == Some(w') && Named(w.ports)
    ensures Named(w'.ports)
  {}

  /** So the port, once there, is there for good, however often Konnectivity is switched on and off. */
  lemma {:induction false} PortIsNeverRemoved(trace: seq<World>, actions: seq<Action>, i: nat, j: nat)
    requires Run(trace, actions) && i <= j < |trace| && Named(trace[i].ports)
    ensures Named(trace[j].ports)
  {
    if i < j {
      PortIsNeverRemoved(trace, actions, i, j - 1);
      InvHolds(trace, actions, j - 1);
      assert Step(trace[j - 1], actions[j - 1]) == Some(trace[j]);
      StepKeepsPort(trace[j - 1], actions[j - 1], trace[j]);
    }
  }

  /** The guard would hold in front of the Deployment handler: a pass reaches that point with it, exactly after a switch-off. */
  lemma GuardHoldsBeforeDeployment(w: World)
    requires w.pass.None?
    ensures
      var begun := Step(w, Begin).value;
      var served := Step(begun, HandleService).value;
      ShouldCleanUp(served.pass.value) <==> w.recorded && !w.enabled
  {}

  /** An undisturbed pass puts the port there when Konnectivity is on, and records the flag either way. */
  lemma PassBringsPort(w: World, changed: bool)
    requires w.pass.None?
    ensures
      var w1 := Step(w, Begin).value;
      var w2 := Step(w1, HandleService).value;
      var w3 := Step(w2, HandleDeployment(changed, true, false)).value;
      var w4 := Step(w3, HandleKonnectivity);
      && w4.Some? && w4.value.pass.None? && w4.value.recorded == w.enabled
      && (w.enabled ==> Marked(w4.value.ports, w.spec))
      && (!w.enabled ==> w4.value.ports == Service(w.ports, w.spec))
  {
    var q := Service(w.ports, w.spec);
    assert q != [];
    KonnectivityMarks(q, w.spec);
  }
}
