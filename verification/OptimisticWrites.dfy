/**
 * Status writes under optimistic concurrency.  The API server commits an update only when the
 * sender's resourceVersion is the stored one; a writer that loses re-reads the object, applies
 * its mutation again and retries.
 */
module OptimisticWrites {
  import opened Common

  type Object = map<string, string>
  type Mutation = Object -> Object

  datatype Copy = Copy(version: nat, content: Object)

  /** A writer's memory: a faithful copy, or one with `pending` applied to it and not yet stored. */
  datatype Writer = Clean(copy: Copy) | Dirty(copy: Copy, pending: Mutation)

  datatype World = World(
    version: nat,
    content: Object,
    log: seq<Mutation>,           // committed mutations, in commit order
    writers: map<nat, Writer>)

  datatype Action =
    | Fetch(id: nat)
    | Mutate(id: nat, f: Mutation)
    | Send(id: nat)

  function Step(w: World, a: Action): Option<World> {
    match a
    case Fetch(id) => Some(w.(writers := w.writers[id := Clean(Copy(w.version, w.content))]))
    case Mutate(id, f) =>
      if id !in w.writers then None
      else
        (match w.writers[id]
         case Clean(c) => Some(w.(writers := w.writers[id := Dirty(c.(content := f(c.content)), f)]))
         case Dirty(c, g) =>
           Some(w.(writers := w.writers[id := Dirty(c.(content := f(c.content)), o => f(g(o)))])))
    case Send(id) =>
      if id !in w.writers || w.writers[id].Clean? then None
      else
        var Dirty(c, f) := w.writers[id];
        if c.version == w.version
        then Some(World(w.version + 1, c.content, w.log + [f], w.writers[id := Clean(Copy(w.version + 1, c.content))]))
        else Some(w)    // conflict
  }

  /** The update of `id` would go through. */
  predicate Commits(w: World, id: nat) {
    id in w.writers && w.writers[id].Dirty? && w.writers[id].copy.version == w.version
  }

  function Fold(start: Object, log: seq<Mutation>): Object {
    if log == [] then start else log[|log| - 1](Fold(start, log[..|log| - 1]))
  }

  predicate Initial(w: World) {
    |w.log| == 0 && |w.writers| == 0
  }

  ghost predicate Run(trace: seq<World>, actions: seq<Action>) {
    && |trace| == |actions| + 1 && Initial(trace[0])
    && forall i {:trigger actions[i]} :: 0 <= i < |actions| ==> Step(trace[i], actions[i]) == Some(trace[i + 1])
  }

  /** Memory of the stored version is the stored object, with at most the writer's own mutation on top. */
  ghost predicate MemoryIsFaithful(w: World) {
    forall id :: id in w.writers ==> Faithful(w.writers[id], w.version, w.content)
  }

  predicate Faithful(m: Writer, version: nat, content: Object) {
    && m.copy.version <= version
    && (m.copy.version == version ==> m.copy.content == if m.Clean? then content else m.pending(content))
  }

  ghost predicate Inv(w: World, start: Object) {
    w.content == Fold(start, w.log) && MemoryIsFaithful(w)
  }

  lemma MutateKeepsMemory(w: World, id: nat, f: Mutation, w': World)
    requires MemoryIsFaithful(w) && Step(w, Mutate(id, f)) == Some(w')
    ensures MemoryIsFaithful(w')
  {
    assert Faithful(w.writers[id], w.version, w.content);
    assert Faithful(w'.writers[id], w'.version, w'.content);
    forall other | other in w'.writers ensures Faithful(w'.writers[other], w'.version, w'.content) {
      if other != id { assert w'.writers[other] == w.writers[other]; }
    }
  }

  lemma SendKeepsMemory(w: World, id: nat, w': World)
    requires MemoryIsFaithful(w) && Step(w, Send(id)) == Some(w')
    ensures MemoryIsFaithful(w')
    ensures Commits(w, id) ==> w'.content == w.writers[id].pending(w.content)
  {
  }

  lemma InvStep(w: World, a: Action, w': World, start: Object)
    requires Inv(w, start) && Step(w, a) == Some(w')
    ensures Inv(w', start)
  {
    match a
    case Fetch(id) =>
    case Mutate(id, f) => MutateKeepsMemory(w, id, f, w');
    case Send(id) =>
      SendKeepsMemory(w, id, w');
      if Commits(w, id) {
        assert w'.log[..|w'.log| - 1] == w.log;
      }
  }

  /** For any interleaving of writers, the stored object is the fold of the committed mutations. */
  lemma {:induction false} StoredIsFoldOfCommits(trace: seq<World>, actions: seq<Action>, i: nat)
    requires Run(trace, actions) && i < |trace|
    ensures Inv(trace[i], trace[0].content)
    ensures trace[i].content == Fold(trace[0].content, trace[i].log)
  {
    if i > 0 {
      StoredIsFoldOfCommits(trace, actions, i - 1);
      assert Step(trace[i - 1], actions[i - 1]) == Some(trace[i]);
      InvStep(trace[i - 1], actions[i - 1], trace[i], trace[0].content);
    }
  }

  /** `f` writes no field outside `fields`. */
  ghost predicate Confined(f: Mutation, fields: set<string>) {
    forall o, k :: k !in fields ==> Same(f(o), o, k)
  }

  predicate Same(o: Object, o': Object, k: string) {
    (k in o <==> k in o') && (k in o ==> o[k] == o'[k])
  }

  /**
   * A writer that reports success has its own fields stored and overwrote nobody's: the new object
   * is its mutation of the object stored just before, and every other field is as it was.
   */
  lemma SuccessOverwritesNobody(trace: seq<World>, actions: seq<Action>, i: nat, fields: set<string>)
    requires Run(trace, actions) && i < |actions| && actions[i].Send? && Commits(trace[i], actions[i].id)
    requires Confined(trace[i].writers[actions[i].id].pending, fields)
    ensures trace[i + 1].content == trace[i].writers[actions[i].id].pending(trace[i].content)
    ensures forall k :: k !in fields ==> Same(trace[i + 1].content, trace[i].content, k)
  {
    StoredIsFoldOfCommits(trace, actions, i);
    assert Step(trace[i], actions[i]) == Some(trace[i + 1]);
  }

  /** An update goes through exactly when its copy is of the stored version; else nothing changes. */
  lemma SendExactly(w: World, id: nat)
    requires id in w.writers && w.writers[id].Dirty?
    ensures
      var w', c := Step(w, Send(id)), w.writers[id].copy;
      && w'.Some? && (c.version != w.version ==> w'.value == w)
      && (c.version == w.version ==>
            w'.value.content == c.content && w'.value.version == w.version + 1 && w'.value.log == w.log + [w.writers[id].pending])
  {}

  /** A writer that nobody disturbs stores its mutation. */
  lemma UndisturbedWriteCommits(w: World, id: nat, f: Mutation)
    ensures
      var w1 := Step(w, Fetch(id));
      var w2 := Step(w1.value, Mutate(id, f));
      var w3 := Step(w2.value, Send(id));
      && w1.Some? && w2.Some? && w3.Some?
      && w3.value.content == f(w.content) && w3.value.log == w.log + [f] && w3.value.version == w.version + 1
  {}

  /** Stored fields stay until somebody commits a mutation of them. */
  lemma {:induction false} FieldsSurvive(trace: seq<World>, actions: seq<Action>, i: nat, j: nat, fields: set<string>, k: string)
    requires Run(trace, actions) && i <= j < |trace| && k in fields
    requires forall n {:trigger actions[n]} :: i <= n < j && actions[n].Send? && Commits(trace[n], actions[n].id) ==>
               exists others :: others !! fields && Confined(trace[n].writers[actions[n].id].pending, others)
    ensures Same(trace[j].content, trace[i].content, k)
  {
    if i < j {
      FieldsSurvive(trace, actions, i, j - 1, fields, k);
      var n := j - 1;
      assert Step(trace[n], actions[n]) == Some(trace[j]);
      if actions[n].Send? && Commits(trace[n], actions[n].id) {
        var others :| others !! fields && Confined(trace[n].writers[actions[n].id].pending, others);
        SuccessOverwritesNobody(trace, actions, n, others);
      }
    }
  }
}
