/** The two retry loops around optimistic concurrency, with other writers committing in between. */
module StatusWriter {
  import opened Common
  import opened OptimisticWrites

  const RETRIES: nat := 5

  /** A handler's mutation; it may refuse, as the Service handler does while there is no address. */
  type Handler = Object -> Option<Object>

  /** The committed form of a handler's mutation. */
  function Committed(f: Handler): Mutation {
    o => if f(o).Some? then f(o).value else o
  }

  lemma {:induction false} FoldSplits(start: Object, log: seq<Mutation>, more: seq<Mutation>)
    ensures Fold(start, log + more) == Fold(Fold(start, log), more)
  {
    if more == [] {
      assert log + more == log;
    } else {
      var n := |more| - 1;
      assert (log + more)[..|log + more| - 1] == log + more[..n];
      FoldSplits(start, log, more[..n]);
    }
  }

  /** One stored object; `content` is empty while it does not exist. */
  class ApiServer {
    var present: bool
    var version: nat
    var content: Object
    ghost var start: Object
    ghost var log: seq<Mutation>

    ghost predicate Valid()
      reads this
    {
      && content == Fold(start, log)
      && (!present ==> content == map[])
    }

    constructor (content: Object)
      ensures Valid() && present && this.content == content && log == []
    {
      present, version, this.content := true, 1, content;
      start, log := content, [];
    }

    method Get() returns (c: Copy)
      ensures c == Copy(version, content)
    {
      c := Copy(version, content);
    }

    /** Commits when the sender's version is the stored one. */
    method Update(c: Copy, ghost f: Mutation) returns (ok: bool)
      requires Valid() && present && (c.version == version ==> c.content == f(content))
      modifies this
      ensures Valid() && present && start == old(start)
      ensures ok <==> c.version == old(version)
      ensures if ok
              then log == old(log) + [f] && content == c.content && version == old(version) + 1
              else log == old(log) && content == old(content) && version == old(version)
    {
      ok := c.version == version;
      if ok {
        FoldSplits(start, log, [f]);
        assert Fold(Fold(start, log), [f]) == f(Fold(start, log)) by {
          assert [f][..0] == [];
        }
        content, version := c.content, version + 1;
        log := log + [f];
      }
    }

    method Create(o: Object, ghost f: Mutation) returns (ok: bool)
      requires Valid() && (!present ==> o == f(content))
      modifies this
      ensures Valid() && start == old(start) && (present <==> old(present) || ok)
      ensures ok <==> !old(present)
      ensures if ok
              then log == old(log) + [f] && content == o && version == old(version) + 1
              else log == old(log) && content == old(content) && version == old(version)
    {
      ok := !present;
      if ok {
        present := true;
        FoldSplits(start, log, [f]);
        assert Fold(Fold(start, log), [f]) == f(Fold(start, log)) by {
          assert [f][..0] == [];
        }
        content, version := o, version + 1;
        log := log + [f];
      }
    }

    /** Other writers commit `others`, in this order; `made` tells that one of them creates the object. */
    method Interfere(others: seq<Mutation>, made: bool)
      requires Valid()
      modifies this
      ensures Valid() && start == old(start)
      ensures present <==> old(present) || made
      ensures log == old(log) + if present then others else []
      ensures version == old(version) + if present then |others| else 0
      ensures content == Fold(old(content), if present then others else [])
    {
      present := present || made;
      if present {
        FoldSplits(start, log, others);
        content, version := Fold(content, others), version + |others|;
        log := log + others;
      } else {
        assert log + [] == log;
      }
    }
  }

  /** The foreign commits that meet the `n`-th interaction. */
  function Meanwhile(others: seq<seq<Mutation>>, n: nat): seq<Mutation> {
    if n < |others| then others[n] else []
  }

  datatype Result = Stored | Refused | Conflict

  /** One attempt: the handler mutates the copy in memory, which is then sent; an error fetches the object again. */
  method Send(api: ApiServer, mem: Copy, f: Handler, others: seq<Mutation>) returns (r: Result, mem': Copy)
    requires api.Valid() && api.present
    requires mem.version <= api.version && (mem.version == api.version ==> mem.content == api.content)
    modifies api
    ensures api.Valid() && api.present && api.start == old(api.start)
    ensures mem' == Copy(api.version, api.content)
    ensures r == Refused <==> f(mem.content).None?
    ensures r == Stored <==> f(mem.content).Some? && mem.version == old(api.version) && others == []
    ensures r == Refused ==> api.log == old(api.log) && api.content == old(api.content)
    ensures r == Stored ==> api.log == old(api.log) + [Committed(f)] && f(old(api.content)) == Some(api.content)
    ensures r == Conflict ==> api.log == old(api.log) + others && api.content == Fold(old(api.content), others)
  {
    var mutated := f(mem.content);
    if mutated.None? {
      mem' := api.Get();
      return Refused, mem';
    }
    api.Interfere(others, false);
    var sent := Copy(mem.version, mutated.value);
    var ok := api.Update(sent, Committed(f));
    r := if ok then Stored else Conflict;
    mem' := api.Get();
  }

  /** The commits of an earlier time and of a later one, in one list. */
  lemma {:induction false} Extend(start: Object, log: seq<Mutation>, before: seq<Mutation>, more: seq<Mutation>)
    ensures log + before + more == log + (before + more)
    ensures Fold(Fold(start, before), more) == Fold(start, before + more)
  {
    Assoc(log, before, more);
    FoldSplits(start, before, more);
  }

  lemma Assoc<T>(a: seq<T>, b: seq<T>, c: seq<T>)
    ensures a + b + c == a + (b + c)
  {}

  /**
   * `UpdateStatus`: whatever other writers do, only the handler's own mutation of the object
   * stored at that moment is ever committed, at most once, and success means it was the last
   * commit and memory equals what is stored.  It gives up only when somebody else committed during
   * each of its five attempts (the first may also fail because memory was out of date), and it is
   * refused only by the handler, on the copy it started with or on an object that was stored.
   */
  method UpdateStatus(api: ApiServer, mem: Copy, f: Handler, others: seq<seq<Mutation>>)
    returns (r: Result, mem': Copy, ghost foreign: seq<Mutation>)
    requires api.Valid() && api.present
    requires mem.version <= api.version && (mem.version == api.version ==> mem.content == api.content)
    modifies api
    ensures api.Valid() && api.start == old(api.start) && mem' == Copy(api.version, api.content)
    ensures r == Stored ==>
              && api.log == old(api.log) + foreign + [Committed(f)]
              && f(Fold(old(api.content), foreign)) == Some(api.content)
    ensures r != Stored ==>
              && api.log == old(api.log) + foreign
              && api.content == Fold(old(api.content), foreign)
    ensures r == Conflict ==> forall n :: 1 <= n < 5 ==> Meanwhile(others, n) != []
    ensures r == Conflict && mem.version == old(api.version) ==> Meanwhile(others, 0) != []
    ensures r == Refused ==> (foreign == [] && f(mem.content).None?) || f(Fold(old(api.content), foreign)).None?
  {
    foreign := [];
    r, mem' := Send(api, mem, f, Meanwhile(others, 0));
    if r != Conflict { return; }
    foreign := Meanwhile(others, 0);
    for attempt := 1 to RETRIES
      invariant r == Conflict && api.Valid() && api.present && api.start == old(api.start)
      invariant mem' == Copy(api.version, api.content)
      invariant api.log == old(api.log) + foreign && api.content == Fold(old(api.content), foreign)
      invariant forall n :: 1 <= n < attempt ==> Meanwhile(others, n) != []
    {
      r, mem' := Send(api, mem', f, Meanwhile(others, attempt));
      if r != Conflict { return; }
      Extend(old(api.content), old(api.log), foreign, Meanwhile(others, attempt));
      foreign := foreign + Meanwhile(others, attempt);
    }
  }

  /** `Denied` by the mutation, `Clash` with a creation by somebody else, or `Exhausted` by conflicts. */
  datatype Applied = Created | Updated | Unchanged | Denied | Clash | Exhausted

  /** One round of it: read, mutate, write; `None` asks for another round after a conflict. */
  method Attempt(api: ApiServer, f: Handler, others: seq<Mutation>, made: bool)
    returns (r: Option<Applied>, ghost read: Object)
    requires api.Valid()
    modifies api
    ensures api.Valid() && api.start == old(api.start) && read == old(api.content)
    ensures r == Some(Denied) <==> f(read).None?
    ensures r == Some(Unchanged) <==> old(api.present) && f(read) == Some(read)
    ensures r == Some(Updated) <==> old(api.present) && f(read).Some? && f(read) != Some(read) && others == []
    ensures r == None <==> old(api.present) && f(read).Some? && f(read) != Some(read) && others != []
    ensures r == Some(Created) <==> !old(api.present) && f(read).Some? && !made
    ensures r == Some(Clash) <==> !old(api.present) && f(read).Some? && made
    ensures r == Some(Denied) || r == Some(Unchanged) ==> api.log == old(api.log) && api.content == read && api.present == old(api.present)
    ensures r == Some(Created) || r == Some(Updated) ==> api.log == old(api.log) + [Committed(f)] && f(read) == Some(api.content)
    ensures r == None || r == Some(Clash) ==> api.present && api.log == old(api.log) + others && api.content == Fold(read, others)
    ensures r == Some(Created) ==> read == map[]
  {
    var existed, copy := api.present, Copy(api.version, api.content);
    read := copy.content;
    var mutated := f(copy.content);
    if mutated.None? { return Some(Denied), read; }
    if existed && mutated.value == copy.content { return Some(Unchanged), read; }
    api.Interfere(others, made);
    if existed {
      var ok := api.Update(Copy(copy.version, mutated.value), Committed(f));
      r := if ok then Some(Updated) else None;
    } else {
      var ok := api.Create(mutated.value, Committed(f));
      r := Some(if ok then Created else Clash);
    }
  }

  /**
   * `CreateOrUpdateWithConflict`: the object is created or updated with the mutation of what was
   * stored at that moment, or left alone because the mutation of what was read changes nothing.  It
   * gives up only on conflicts in each of its five attempts, on a refusal by the mutation, or when
   * somebody else creates the object first.
   */
  method CreateOrUpdateWithConflict(api: ApiServer, f: Handler, others: seq<seq<Mutation>>, made: bool)
    returns (r: Applied, ghost foreign: seq<Mutation>, ghost read: Object)
    requires api.Valid()
    modifies api
    ensures api.Valid() && api.start == old(api.start)
    ensures r == Created || r == Updated ==>
              && api.log == old(api.log) + foreign + [Committed(f)]
              && read == Fold(old(api.content), foreign) && f(read) == Some(api.content)
    ensures r == Created ==> read == map[]
    ensures r != Created && r != Updated ==>
              && api.log == old(api.log) + foreign && api.content == Fold(old(api.content), foreign)
    ensures r == Unchanged ==> api.present && read == api.content && f(read) == Some(read)
    ensures r == Denied ==> f(read).None? && read == api.content
    ensures r == Clash <==> !old(api.present) && f(old(api.content)).Some? && made
    ensures r == Created <==> !old(api.present) && f(old(api.content)).Some? && !made
    ensures r == Exhausted ==> forall n :: 0 <= n < 5 ==> Meanwhile(others, n) != []
  {
    foreign := [];
    for attempt := 0 to RETRIES
      invariant attempt > 0 ==> old(api.present)
      invariant api.present == old(api.present) && api.Valid() && api.start == old(api.start)
      invariant attempt == 0 ==> foreign == []
      invariant api.log == old(api.log) + foreign && api.content == Fold(old(api.content), foreign)
      invariant forall n :: 0 <= n < attempt ==> Meanwhile(others, n) != []
    {
      var outcome;
      outcome, read := Attempt(api, f, Meanwhile(others, attempt), made);
      if outcome.Some? && outcome != Some(Clash) { return outcome.value, foreign, read; }
      Extend(old(api.content), old(api.log), foreign, Meanwhile(others, attempt));
      foreign := foreign + Meanwhile(others, attempt);
      if outcome == Some(Clash) { return Clash, foreign, read; }
    }
    return Exhausted, foreign, api.content;
  }
}
