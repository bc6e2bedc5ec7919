/**
 * Tenants share an etcd under key prefixes.  Permissions, deletion and copying work on ranges of
 * keys, ordered as byte strings.
 */
module EtcdRanges {
  type Byte = x: int | 0 <= x < 256

  type Key = seq<Byte>

  type Store = map<Key, string>

  const SLASH: Byte := 47

  // ---------- order ----------

  predicate Less(a: Key, b: Key) {
    b != [] && (a == [] || a[0] < b[0] || (a[0] == b[0] && Less(a[1..], b[1..])))
  }

  /** From `from` on, below `end`. */
  predicate InRange(k: Key, from: Key, end: Key) {
    !Less(k, from) && Less(k, end)
  }

  lemma {:induction false} LessCancels(q: Key, a: Key, b: Key)
    ensures Less(q + a, q + b) == Less(a, b)
  {
    if q == [] {
      assert q + a == a && q + b == b;
    } else {
      assert (q + a)[1..] == q[1..] + a && (q + b)[1..] == q[1..] + b;
      LessCancels(q[1..], a, b);
    }
  }

  lemma {:induction false} LessTransitive(a: Key, b: Key, c: Key)
    requires !Less(b, a) && !Less(c, b)
    ensures !Less(c, a)
  {
    if a != [] && b != [] && c != [] && a[0] == b[0] == c[0] { LessTransitive(a[1..], b[1..], c[1..]); }
  }

  // ---------- the end of a prefix range ----------

  /** A byte that can be raised. */
  predicate Bounded(p: Key) {
    exists i :: 0 <= i < |p| && p[i] < 255
  }

  /** The last byte below 255 raised by one, and what follows cut off. */
  function End(p: Key): Key
    requires Bounded(p)
  {
    var n := |p| - 1;
    if p[n] < 255 then p[..n] + [p[n] + 1] else
      var i :| 0 <= i < |p| && p[i] < 255;
      assert p[..n][i] < 255;
      End(p[..n])
  }

  /** The loop of the etcd client. */
  method RangeEnd(p: Key) returns (end: Key)
    requires Bounded(p)
    ensures end == End(p)
  {
    var i := |p| - 1;
    assert p[..|p|] == p;
    while true
      invariant 0 <= i < |p| && Bounded(p[..i + 1]) && End(p[..i + 1]) == End(p)
      decreases i
    {
      assert p[..i + 1][..i] == p[..i];
      if p[i] < 255 { return p[..i] + [p[i] + 1]; }
      var j :| 0 <= j < i + 1 && p[..i + 1][j] < 255;
      assert p[..i][j] < 255;
      i := i - 1;
    }
  }

  lemma {:induction false} LastByteRange(q: Key, c: Byte, k: Key)
    requires c < 255
    ensures InRange(k, q + [c], q + [c + 1]) <==> q + [c] <= k
  {
    var p := q + [c];
    if q == [] {
      assert p == [c] && q + [c + 1] == [c + 1] && p[1..] == [] && [c + 1][1..] == [];
      if k != [] {
        PrefixCons(p, k);
        assert !Less(k[1..], []);
        assert Less(k, [c]) <==> k[0] < c;
        assert Less(k, [c + 1]) <==> k[0] < c + 1;
      }
    } else {
      assert p[1..] == q[1..] + [c] && (q + [c + 1])[1..] == q[1..] + [c + 1];
      if k != [] {
        LastByteRange(q[1..], c, k[1..]);
        assert k == [k[0]] + k[1..] && p == [p[0]] + p[1..];
        assert p <= k <==> p[0] == k[0] && p[1..] <= k[1..] by { PrefixCons(p, k); }
      }
    }
  }

  lemma PrefixCons(p: Key, k: Key)
    requires p != [] && k != []
    ensures p <= k <==> p[0] == k[0] && p[1..] <= k[1..]
  {
    if p[0] == k[0] && p[1..] <= k[1..] {
      forall i | 0 <= i < |p| ensures p[i] == k[i] {
        if i > 0 { assert p[1..][i - 1] == k[1..][i - 1]; }
      }
    }
    if p <= k {
      forall i | 0 <= i < |p| - 1 ensures p[1..][i] == k[1..][i] { assert p[i + 1] == k[i + 1]; }
    }
  }

  lemma {:induction false} PrefixIsNotLess(p: Key, k: Key)
    requires p <= k
    ensures !Less(k, p)
  {
    if p != [] {
      PrefixCons(p, k);
      PrefixIsNotLess(p[1..], k[1..]);
    }
  }

  /** The range of a prefix holds exactly the keys that start with it. */
  lemma {:induction false} RangeIsPrefix(p: Key, k: Key)
    requires Bounded(p)
    ensures InRange(k, p, End(p)) <==> p <= k
  {
    var n := |p| - 1;
    assert p == p[..n] + [p[n]];
    if p[n] < 255 {
      LastByteRange(p[..n], p[n], k);
    } else {
      var i :| 0 <= i < |p| && p[i] < 255;
      assert p[..n][i] < 255;
      RangeIsPrefix(p[..n], k);
      if p[..n] <= k { FullByte(p[..n], k); }
      assert End(p) == End(p[..n]);
      if p <= k {
        assert p[..n] <= k;
        PrefixIsNotLess(p, k);
      } else if !Less(k, p) {
        PrefixIsNotLess(p[..n], p);
        LessTransitive(p[..n], p, k);
      }
    }
  }

  /** Of the keys that start with `q`, those not below `q` and a greatest byte start with both. */
  lemma FullByte(q: Key, k: Key)
    requires q <= k
    ensures !Less(k, q + [255]) ==> q + [255] <= k
  {
    var r := k[|q|..];
    assert k == q + r;
    LessCancels(q, r, [255]);
    if r != [] && r[0] == 255 { assert k == (q + [255]) + r[1..]; }
  }

  // ---------- tenants ----------

  /** The keys of a tenant start with its schema's name between slashes. */
  function BuildKey(name: Key): Key {
    [SLASH] + name + [SLASH]
  }

  lemma KeyIsBounded(name: Key)
    ensures Bounded(BuildKey(name)) && End(BuildKey(name)) == [SLASH] + name + [SLASH + 1]
  {
    var p := BuildKey(name);
    assert p[|p| - 1] == SLASH;
    assert p[..|p| - 1] == [SLASH] + name;
  }

  /** The range granted to a tenant. */
  predicate Granted(name: Key, k: Key)
  {
    KeyIsBounded(name);
    InRange(k, BuildKey(name), End(BuildKey(name)))
  }

  /** A tenant is granted exactly the keys under its prefix. */
  lemma GrantedIsPrefix(name: Key, k: Key)
    ensures Granted(name, k) <==> BuildKey(name) <= k
    ensures Granted(name, k) <==> [47] + name + [47] <= k
  {
    KeyIsBounded(name);
    RangeIsPrefix(BuildKey(name), k);
  }

  /** Two tenants' ranges meet exactly when the key of one starts with the key of the other. */
  lemma RangesMeet(a: Key, b: Key)
    ensures (exists k :: Granted(a, k) && Granted(b, k)) <==> BuildKey(a) <= BuildKey(b) || BuildKey(b) <= BuildKey(a)
  {
    if k :| Granted(a, k) && Granted(b, k) {
      GrantedIsPrefix(a, k);
      GrantedIsPrefix(b, k);
      var p, q := BuildKey(a), BuildKey(b);
      assert p == k[..|p|] && q == k[..|q|];
    }
    GrantedIsPrefix(a, BuildKey(a));
    GrantedIsPrefix(a, BuildKey(b));
    GrantedIsPrefix(b, BuildKey(a));
    GrantedIsPrefix(b, BuildKey(b));
  }

  lemma PrefixOfSlashFree(a: Key, b: Key)
    requires SLASH !in a && SLASH !in b && BuildKey(a) <= BuildKey(b)
    ensures a == b
  {
    var p, q := BuildKey(a), BuildKey(b);
    assert forall i :: 0 <= i < |a| ==> p[i + 1] == a[i];
    assert forall i :: 0 <= i < |b| ==> q[i + 1] == b[i];
    assert q[|a| + 1] == p[|a| + 1] == SLASH;
    assert |a| == |b|;
    assert a == p[1..|a| + 1] && b == q[1..|b| + 1];
  }

  /** Names without slashes never share a key. */
  lemma SlashFreeRangesAreDisjoint(a: Key, b: Key, k: Key)
    requires SLASH !in a && SLASH !in b && a != b
    ensures !(Granted(a, k) && Granted(b, k))
  {
    RangesMeet(a, b);
    if BuildKey(a) <= BuildKey(b) { PrefixOfSlashFree(a, b); }
    if BuildKey(b) <= BuildKey(a) { PrefixOfSlashFree(b, a); }
  }

  /** With slashes they may: the tenant `a` holds all keys of a tenant `a/b`. */
  lemma SlashNests(a: Key, b: Key, k: Key)
    requires Granted(a + [SLASH] + b, k)
    ensures Granted(a, k)
  {
    GrantedIsPrefix(a + [SLASH] + b, k);
    GrantedIsPrefix(a, k);
    var p, q := BuildKey(a), BuildKey(a + [SLASH] + b);
    assert q == p + (b + [SLASH]);
    assert p == q[..|p|] && q == k[..|q|];
  }

  // ---------- deleting and copying ----------

  /** The part of a store under a tenant's prefix. */
  function Range(s: Store, name: Key): Store {
    map k | k in s && BuildKey(name) <= k :: s[k]
  }

  function Rest(s: Store, name: Key): Store {
    map k | k in s && !(BuildKey(name) <= k) :: s[k]
  }

  /** What a read of the prefix returns: its pairs, in some order. */
  predicate Listed(pairs: seq<(Key, string)>, s: Store) {
    && (forall i :: 0 <= i < |pairs| ==> pairs[i].0 in s && s[pairs[i].0] == pairs[i].1)
    && (forall k :: k in s ==> exists i :: 0 <= i < |pairs| && pairs[i].0 == k)
  }

  datatype Answer = Given | Refused | Lost

  /** How the migration command ends. */
  datatype Outcome = Completed | CleanUpFailed | CheckFailed | ReadFailed | PutFailed

  class Etcd {
    var store: Store

    constructor (s: Store)
      ensures store == s
    {
      store := s;
    }

    /** A deletion that is refused leaves the store alone; its answer may also get lost. */
    method DeleteDB(name: Key, answer: Answer) returns (ok: bool)
      modifies this
      ensures ok == answer.Given?
      ensures store == if answer.Refused? then old(store) else Rest(old(store), name)
    {
      if answer.Refused? { return false; }
      store := map k | k in store && !(BuildKey(name) <= k) :: store[k];
      ok := answer.Given?;
    }

    /** Pair after pair is put into the target; a target that does not answer, a read or a put that fails end it. */
    method Migrate(name: Key, target: Etcd, answers: bool, readable: bool, pairs: seq<(Key, string)>, failing: nat) returns (r: Outcome)
      requires target != this && Listed(pairs, Range(store, name))
      modifies target
      ensures r == if !answers then CheckFailed else if !readable then ReadFailed else if failing < |pairs| then PutFailed else Completed
      ensures r.CheckFailed? || r.ReadFailed? ==> target.store == old(target.store)
      ensures r.Completed? ==> target.store == old(target.store) + Range(store, name)
      ensures Rest(target.store, name) == Rest(old(target.store), name)
      ensures store == old(store)
    {
      if !answers { return CheckFailed; }
      if !readable { return ReadFailed; }
      for i := 0 to |pairs|
        invariant i <= failing
        invariant store == old(store) && target.store == PutAll(old(target.store), pairs[..i])
      {
        assert pairs[..i + 1][..i] == pairs[..i];
        if i == failing {
          PutAllKeepsRest(old(target.store), pairs[..i], name);
          return PutFailed;
        }
        target.store := target.store[pairs[i].0 := pairs[i].1];
      }
      assert pairs[..|pairs|] == pairs;
      PutAllKeepsRest(old(target.store), pairs, name);
      PutAllAdds(old(target.store), pairs, Range(store, name));
      return Completed;
    }
  }

  function PutAll(s: Store, pairs: seq<(Key, string)>): Store {
    if pairs == [] then s
    else
      var last := pairs[|pairs| - 1];
      PutAll(s, pairs[..|pairs| - 1])[last.0 := last.1]
  }

  lemma {:induction false} PutAllKeepsRest(s: Store, pairs: seq<(Key, string)>, name: Key)
    requires forall i :: 0 <= i < |pairs| ==> BuildKey(name) <= pairs[i].0
    ensures Rest(PutAll(s, pairs), name) == Rest(s, name)
  {
    if pairs != [] { PutAllKeepsRest(s, pairs[..|pairs| - 1], name); }
  }

  lemma {:induction false} PutAllLookup(s: Store, pairs: seq<(Key, string)>, r: Store, k: Key)
    requires forall i :: 0 <= i < |pairs| ==> pairs[i].0 in r && r[pairs[i].0] == pairs[i].1
    ensures k in PutAll(s, pairs) <==> k in s || exists i :: 0 <= i < |pairs| && pairs[i].0 == k
    ensures k in PutAll(s, pairs) ==>
      PutAll(s, pairs)[k] == if (exists i :: 0 <= i < |pairs| && pairs[i].0 == k) then r[k] else s[k]
  {
    if pairs != [] {
      var rest := pairs[..|pairs| - 1];
      PutAllLookup(s, rest, r, k);
      assert forall i :: 0 <= i < |rest| ==> rest[i] == pairs[i];
      if i :| 0 <= i < |pairs| && pairs[i].0 == k && i < |rest| { assert rest[i].0 == k; }
    }
  }

  lemma PutAllAdds(s: Store, pairs: seq<(Key, string)>, r: Store)
    requires Listed(pairs, r)
    ensures PutAll(s, pairs) == s + r
  {
    forall k ensures (k in PutAll(s, pairs) <==> k in s + r) && (k in s + r ==> PutAll(s, pairs)[k] == (s + r)[k]) {
      PutAllLookup(s, pairs, r, k);
    }
  }

  /** The migration command: the target's range is cleared, if asked for, and the source's is copied. */
  method RunMigration(origin: Etcd, target: Etcd, name: Key, cleanUp: bool, cleaning: Answer, answers: bool, readable: bool,
                      pairs: seq<(Key, string)>, failing: nat) returns (r: Outcome)
    requires target != origin && Listed(pairs, Range(origin.store, name))
    modifies target
    ensures r.Completed? <==> (cleanUp ==> cleaning.Given?) && answers && readable && |pairs| <= failing
    ensures r.CleanUpFailed? <==> cleanUp && !cleaning.Given?
    ensures r.Completed? ==> target.store == Migrated(origin.store, old(target.store), name, cleanUp)
    ensures r.CleanUpFailed? ==> target.store == if cleaning.Refused? then old(target.store) else Rest(old(target.store), name)
    ensures r.CheckFailed? || r.ReadFailed? ==> target.store == if cleanUp then Rest(old(target.store), name) else old(target.store)
    ensures Rest(target.store, name) == Rest(old(target.store), name)
    ensures origin.store == old(origin.store)
  {
    if cleanUp {
      var ok := target.DeleteDB(name, cleaning);
      assert Rest(Rest(old(target.store), name), name) == Rest(old(target.store), name);
      if !ok { return CleanUpFailed; }
    }
    r := origin.Migrate(name, target, answers, readable, pairs, failing);
  }

  function Migrated(origin: Store, target: Store, name: Key, cleanUp: bool): Store {
    (if cleanUp then Rest(target, name) else target) + Range(origin, name)
  }

  /** After a migration with clean-up the tenant's range is the source's, and nothing else changed. */
  lemma MigrationCopiesExactly(origin: Store, target: Store, name: Key)
    ensures Range(Migrated(origin, target, name, true), name) == Range(origin, name)
    ensures Rest(Migrated(origin, target, name, true), name) == Rest(target, name)
  {}

  /** Without clean-up that holds exactly when the target had no key of the tenant that the source lacks. */
  lemma MigrationWithoutCleanUp(origin: Store, target: Store, name: Key)
    ensures Range(Migrated(origin, target, name, false), name) == Range(origin, name) <==> Range(target, name).Keys <= Range(origin, name).Keys
    ensures Rest(Migrated(origin, target, name, false), name) == Rest(target, name)
  {
    var m := Migrated(origin, target, name, false);
    if Range(m, name) == Range(origin, name) {
      forall k | k in Range(target, name) ensures k in Range(origin, name) { assert k in Range(m, name); }
    }
    assert Range(target, name).Keys <= Range(origin, name).Keys ==> Range(m, name) == Range(origin, name);
  }

  /** An interrupted migration can simply be repeated: what it left in the range does not matter. */
  lemma RetryConverges(origin: Store, target: Store, left: Store, name: Key)
    requires Rest(left, name) == Rest(target, name)
    ensures Migrated(origin, left, name, true) == Migrated(origin, target, name, true)
  {}

  /** A migration leaves every key that another tenant is granted as it was. */
  lemma OtherTenantsUntouched(origin: Store, target: Store, name: Key, cleanUp: bool, other: Key, k: Key)
    requires SLASH !in name && SLASH !in other && name != other && Granted(other, k)
    ensures var m := Migrated(origin, target, name, cleanUp); (k in m <==> k in target) && (k in m ==> m[k] == target[k])
  {
    SlashFreeRangesAreDisjoint(name, other, k);
    GrantedIsPrefix(name, k);
  }
}
