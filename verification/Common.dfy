/** Small types shared by the modules of this project. */
module Common {

  datatype Option<+T> = None | Some(value: T)

  /** The lifecycle states a tenant reports; `Unset` is the absent status pointer. */
  datatype Status =
    | Unset
    | Unknown
    | Provisioning
    | Sleeping
    | WriteLimited
    | CARotating
    | Upgrading
    | Migrating
    | Ready
    | NotReady

  /** The state after a sequence of steps. */
  function Replay<S, A>(f: (S, A) -> S, s: S, steps: seq<A>): S {
    if steps == [] then s else f(Replay(f, s, steps[..|steps| - 1]), steps[|steps| - 1])
  }

  lemma {:induction false} ReplayKeeps<S(!new), A(!new)>(f: (S, A) -> S, inv: S -> bool, ok: A -> bool, s: S, steps: seq<A>)
    requires inv(s) && (forall s, a :: inv(s) && ok(a) ==> inv(f(s, a))) && forall i :: 0 <= i < |steps| ==> ok(steps[i])
    ensures inv(Replay(f, s, steps))
  {
    if steps != [] { ReplayKeeps(f, inv, ok, s, steps[..|steps| - 1]); }
  }
}
