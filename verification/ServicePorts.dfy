/**
 * Two handlers rewrite the port list of the control plane Service in turn, each working from the
 * list the other left.
 */
module ServicePorts {
  import opened Common

  /** `other` stands for the node port and the application protocol. */
  datatype Port = Port(name: string, protocol: string, port: int, target: string, other: string)

  const APISERVER := "kube-apiserver"
  const KONNECTIVITY := "konnectivity-server"
  const BLANK := Port("", "", 0, "", "")

  /** The specification: the two ports, whether the second gets a node port, and the additional ports. */
  datatype Spec = Spec(api: int, apiTarget: string, konnectivity: int, konnectivityTarget: string, nodePort: Option<string>, additional: seq<Port>)

  // ---------- the handlers ----------

  function ApiPort(p: Port, s: Spec): Port {
    p.(name := APISERVER, protocol := "TCP", port := s.api, target := s.apiTarget)
  }

  function KonnectivityPort(p: Port, s: Spec): Port {
    var q := p.(name := KONNECTIVITY, protocol := "TCP", port := s.konnectivity, target := s.konnectivityTarget);
    if s.nodePort.Some? then q.(other := s.nodePort.value) else q
  }

  function Service(ports: seq<Port>, s: Spec): seq<Port> {
    var first := if ports == [] then BLANK else ports[0];
    [ApiPort(first, s)] + (if |ports| > 1 && ports[1].name == KONNECTIVITY then [ports[1]] else []) + s.additional
  }

  /** `None` is the error on a Service that has no port yet. */
  function Konnectivity(ports: seq<Port>, s: Spec): Option<seq<Port>> {
    if ports == [] then None
    else
      var second := if |ports| == 1 then BLANK else ports[1];
      Some([ports[0], KonnectivityPort(second, s)] + if |ports| == 1 then [] else ports[2..])
  }

  /** In the original form: a loop that rebuilds the list. */
  method MutateService(ports: seq<Port>, s: Spec) returns (r: seq<Port>)
    ensures r == Service(ports, s)
  {
    var current := if ports == [] then [BLANK] else ports;
    r := [];
    for i := 0 to |current|
      invariant r == (if i == 0 then [] else [ApiPort(current[0], s)])
                     + (if i > 1 && current[1].name == KONNECTIVITY then [current[1]] else [])
    {
      var port := current[i];
      if i == 0 {
        port := port.(name := APISERVER, protocol := "TCP", port := s.api, target := s.apiTarget);
        r := r + [port];
      } else if i == 1 && port.name == KONNECTIVITY {
        r := r + [port];
      }
    }
    ghost var done := r;
    for i := 0 to |s.additional|
      invariant r == done + s.additional[..i]
    {
      r := r + [s.additional[i]];
    }
  }

  method MutateKonnectivity(ports: seq<Port>, s: Spec) returns (ok: bool, r: seq<Port>)
    ensures ok <==> Konnectivity(ports, s).Some?
    ensures r == if ok then Konnectivity(ports, s).value else ports
  {
    r := ports;
    if |r| == 0 { return false, r; }
    if |r| == 1 { r := r + [BLANK]; }
    r := r[1 := r[1].(name := KONNECTIVITY, protocol := "TCP", port := s.konnectivity, target := s.konnectivityTarget)];
    if s.nodePort.Some? { r := r[1 := r[1].(other := s.nodePort.value)]; }
    ok := true;
  }

  // ---------- what is compared ----------

  predicate SamePort(p: Port, q: Port) {
    p.name == q.name && p.protocol == q.protocol && p.port == q.port && p.target == q.target
  }

  /** Equal by name, protocol, port and target. */
  predicate Same(a: seq<Port>, b: seq<Port>) {
    |a| == |b| && forall i :: 0 <= i < |a| ==> SamePort(a[i], b[i])
  }

  /** Only node ports and application protocols are left out of the comparison. */
  lemma SameExactly(a: seq<Port>, b: seq<Port>)
    ensures Same(a, b) <==> |a| == |b| && forall i :: 0 <= i < |a| ==> a[i].(other := b[i].other) == b[i]
  {}

  /** What both handlers are after. */
  function Wanted(s: Spec): seq<Port> {
    [Port("kube-apiserver", "TCP", s.api, s.apiTarget, ""), Port("konnectivity-server", "TCP", s.konnectivity, s.konnectivityTarget, "")]
    + s.additional
  }

  /** The second port is Konnectivity's, as specified. */
  predicate Marked(ports: seq<Port>, s: Spec) {
    |ports| > 1 && SamePort(ports[1], KonnectivityPort(BLANK, s))
  }

  lemma ServiceOnMarked(ports: seq<Port>, s: Spec)
    requires Marked(ports, s)
    ensures Same(Service(ports, s), Wanted(s))
  {
    var r := Service(ports, s);
    assert r == [ApiPort(ports[0], s), ports[1]] + s.additional;
    forall i | 0 <= i < |r| ensures SamePort(r[i], Wanted(s)[i]) {}
  }

  lemma KonnectivityMarks(ports: seq<Port>, s: Spec)
    requires Konnectivity(ports, s).Some?
    ensures Marked(Konnectivity(ports, s).value, s)
  {}

  lemma KonnectivityOnWanted(ports: seq<Port>, s: Spec)
    requires Same(ports, Wanted(s))
    ensures Konnectivity(ports, s).Some? && Same(Konnectivity(ports, s).value, Wanted(s))
  {
    var r := Konnectivity(ports, s).value;
    forall i | 0 <= i < |r| ensures SamePort(r[i], Wanted(s)[i]) {
      if i >= 2 { assert r[i] == ports[i]; }
    }
  }

  // ---------- passes ----------

  /** One pass with Konnectivity enabled. */
  function Pass(ports: seq<Port>, s: Spec): Option<seq<Port>> {
    Konnectivity(Service(ports, s), s)
  }

  /** The second port carries Konnectivity's name, with whatever number and target. */
  predicate Named(ports: seq<Port>) {
    |ports| > 1 && ports[1].name == KONNECTIVITY
  }

  /** Two passes suffice from any list; the result is stable from then on. */
  lemma TwoPassesSettle(ports: seq<Port>, s: Spec)
    ensures Pass(ports, s).Some? && Pass(Pass(ports, s).value, s).Some?
    ensures Same(Pass(Pass(ports, s).value, s).value, Wanted(s))
  {
    var p1 := Pass(ports, s).value;
    KonnectivityMarks(Service(ports, s), s);
    ServiceOnMarked(p1, s);
    KonnectivityOnWanted(Service(p1, s), s);
  }

  /** One pass is enough exactly without additional ports or when the second port has Konnectivity's name. */
  lemma OnePassSettlesExactly(ports: seq<Port>, s: Spec)
    ensures Pass(ports, s).Some?
    ensures Same(Pass(ports, s).value, Wanted(s)) <==> s.additional == [] || Named(ports)
  {
    var q, r := Service(ports, s), Pass(ports, s).value;
    KonnectivityMarks(q, s);
    if Named(ports) {
      assert q == [q[0], ports[1]] + s.additional;
      assert r == [q[0], KonnectivityPort(ports[1], s)] + s.additional;
    } else {
      assert q == [q[0]] + s.additional;
      assert |r| == if s.additional == [] then 2 else 1 + |s.additional|;
    }
  }

  /** Otherwise the first additional port is overwritten: the others follow the first two. */
  lemma OnePassMayLoseAPort(ports: seq<Port>, s: Spec)
    requires s.additional != [] && !Named(ports)
    ensures !Same(Pass(ports, s).value, Wanted(s))
    ensures var r := Pass(ports, s).value; Marked(r, s) && r[2..] == s.additional[1..]
  {
    OnePassSettlesExactly(ports, s);
    var q := Service(ports, s);
    KonnectivityMarks(q, s);
    assert q == [q[0]] + s.additional;
  }

  /** The fields that are not compared: the first port keeps its own, the second takes the node port if one is specified. */
  lemma OtherFieldsStay(ports: seq<Port>, s: Spec)
    ensures
      var r := Pass(ports, s);
      && r.Some? && |r.value| >= 2
      && r.value[0].other == (if ports == [] then "" else ports[0].other)
      && (s.nodePort.Some? ==> r.value[1].other == s.nodePort.value)
      && (s.nodePort.None? && Named(ports) ==> r.value[1].other == ports[1].other)
  {}

  // ---------- any interleaving ----------

  /** The two handlers in any order and number, and changes to the fields that are not compared. */
  datatype Action = RunService | RunKonnectivity | Assign(ports: seq<Port>)

  function Step(ports: seq<Port>, a: Action, s: Spec): Option<seq<Port>> {
    match a
    case RunService => Some(Service(ports, s))
    case RunKonnectivity => Konnectivity(ports, s)
    case Assign(ports') => if Same(ports', ports) then Some(ports') else None
  }

  predicate Run(trace: seq<seq<Port>>, actions: seq<Action>, s: Spec) {
    && |trace| == |actions| + 1
    && forall i {:trigger actions[i]} :: 0 <= i < |actions| ==> Step(trace[i], actions[i], s) == Some(trace[i + 1])
  }

  lemma StepKeepsMark(ports: seq<Port>, a: Action, s: Spec)
    requires Marked(ports, s) && Step(ports, a, s).Some?
    ensures Marked(Step(ports, a, s).value, s)
    ensures a.RunService? || Same(ports, Wanted(s)) ==> Same(Step(ports, a, s).value, Wanted(s))
  {
    if a.RunService? { ServiceOnMarked(ports, s); }
    if a.RunKonnectivity? {
      KonnectivityMarks(ports, s);
      if Same(ports, Wanted(s)) { KonnectivityOnWanted(ports, s); }
    }
  }

  lemma {:induction false} MarkStays(trace: seq<seq<Port>>, actions: seq<Action>, s: Spec, i: nat, j: nat)
    requires Run(trace, actions, s) && i < j <= |actions| && actions[i].RunKonnectivity?
    ensures Marked(trace[j], s)
  {
    assert Step(trace[j - 1], actions[j - 1], s) == Some(trace[j]);
    if j == i + 1 {
      KonnectivityMarks(trace[i], s);
    } else {
      MarkStays(trace, actions, s, i, j - 1);
      StepKeepsMark(trace[j - 1], actions[j - 1], s);
    }
  }

  /** However the handlers interleave, once the first has run after the second the list is right for good. */
  lemma {:induction false} SettledForGood(trace: seq<seq<Port>>, actions: seq<Action>, s: Spec, i: nat, j: nat, k: nat)
    requires Run(trace, actions, s) && i < j < k <= |actions| && actions[i].RunKonnectivity? && actions[j].RunService?
    ensures Same(trace[k], Wanted(s))
  {
    assert Step(trace[k - 1], actions[k - 1], s) == Some(trace[k]);
    MarkStays(trace, actions, s, i, k - 1);
    if k > j + 1 { SettledForGood(trace, actions, s, i, j, k - 1); }
    StepKeepsMark(trace[k - 1], actions[k - 1], s);
  }

  // ---------- removing the port ----------

  /** The clean-up of the second handler. */
  function CleanUp(ports: seq<Port>): seq<Port> {
    if ports == [] then [] else if ports[0].name == KONNECTIVITY then ports[1..] else [ports[0]] + CleanUp(ports[1..])
  }

  /** It removes the first port of that name; the others keep their order. */
  lemma {:induction false} CleanUpWouldRemove(a: seq<Port>, p: Port, b: seq<Port>)
    requires p.name == KONNECTIVITY && forall i :: 0 <= i < |a| ==> a[i].name != KONNECTIVITY
    ensures CleanUp(a + [p] + b) == a + b
  {
    if a == [] {
      assert a + [p] + b == [p] + b;
    } else {
      assert (a + [p] + b)[1..] == a[1..] + [p] + b;
      CleanUpWouldRemove(a[1..], p, b);
    }
  }
}
