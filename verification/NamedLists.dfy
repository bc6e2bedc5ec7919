/**
 * Lists of named items, as the pod specification keeps containers, volumes and mounts.  Items are
 * looked up by the first occurrence of their name, overwritten in place, or appended.
 */
module NamedLists {
  datatype Item<N, T> = Item(name: N, body: T)

  predicate Has<N(==), T>(s: seq<Item<N, T>>, name: N) {
    s != [] && (s[0].name == name || Has(s[1..], name))
  }

  /** The body of the first item called `name`. */
  function Get<N(==), T>(s: seq<Item<N, T>>, name: N, blank: T): T {
    if s == [] then blank else if s[0].name == name then s[0].body else Get(s[1..], name, blank)
  }

  function Put<N(==), T>(s: seq<Item<N, T>>, name: N, body: T): seq<Item<N, T>> {
    if s == [] then [Item(name, body)]
    else if s[0].name == name then [Item(name, body)] + s[1..]
    else [s[0]] + Put(s[1..], name, body)
  }

  function Remove<N(==), T>(s: seq<Item<N, T>>, name: N): seq<Item<N, T>> {
    if s == [] then [] else if s[0].name == name then s[1..] else [s[0]] + Remove(s[1..], name)
  }

  /** The items from the first one called `first` on. */
  function Tail<N(==), T>(s: seq<Item<N, T>>, first: N): seq<Item<N, T>> {
    if s == [] || s[0].name == first then s else Tail(s[1..], first)
  }

  /** The items before the first one called `first`. */
  function Front<N(==), T>(s: seq<Item<N, T>>, first: N): seq<Item<N, T>> {
    if s == [] || s[0].name == first then [] else [s[0]] + Front(s[1..], first)
  }

  predicate Distinct<N(==), T>(s: seq<Item<N, T>>) {
    forall i, j :: 0 <= i < j < |s| ==> s[i].name != s[j].name
  }

  predicate Within<N(==), T>(s: seq<Item<N, T>>, names: set<N>) {
    forall i :: 0 <= i < |s| ==> s[i].name in names
  }

  predicate Clear<N(==), T>(s: seq<Item<N, T>>, names: set<N>) {
    forall i :: 0 <= i < |s| ==> s[i].name !in names
  }

  /** Where items that belong to the system start. */
  predicate Starts<N(==), T>(s: seq<Item<N, T>>, first: N) {
    s != [] && s[0].name == first
  }

  // ---------- scripts ----------

  /** One edit: rewrite the body of an item, created blank if missing, or delete the item. */
  datatype Op<N, !T> = Write(name: N, f: T -> T) | Delete(name: N)

  function Do<N(==), T>(s: seq<Item<N, T>>, op: Op<N, T>, blank: T): seq<Item<N, T>> {
    if op.Write? then Put(s, op.name, op.f(Get(s, op.name, blank))) else Remove(s, op.name)
  }

  function Apply<N(==), T>(s: seq<Item<N, T>>, ops: seq<Op<N, T>>, blank: T): seq<Item<N, T>>
    decreases |ops|
  {
    if ops == [] then s else Apply(Do(s, ops[0], blank), ops[1..], blank)
  }

  /** No item is edited twice. */
  predicate Once<N(==), T(!new)>(ops: seq<Op<N, T>>) {
    forall i, j :: 0 <= i < j < |ops| ==> ops[i].name != ops[j].name
  }

  predicate Among<N(==), T(!new)>(ops: seq<Op<N, T>>, names: set<N>) {
    forall i :: 0 <= i < |ops| ==> ops[i].name in names
  }

  /** The edit would change nothing. */
  ghost predicate Settled<N, T(!new)>(s: seq<Item<N, T>>, op: Op<N, T>, blank: T) {
    if op.Write? then Has(s, op.name) && op.f(Get(s, op.name, blank)) == Get(s, op.name, blank) else !Has(s, op.name)
  }

  // ---------- lemmas ----------

  lemma {:induction false} HasIff<N, T>(s: seq<Item<N, T>>, name: N)
    ensures Has(s, name) <==> exists i :: 0 <= i < |s| && s[i].name == name
  {
    if s != [] {
      HasIff(s[1..], name);
      assert forall i :: 0 <= i < |s| - 1 ==> s[1..][i] == s[i + 1];
      if i :| 0 <= i < |s| && s[i].name == name && i > 0 { assert s[1..][i - 1].name == name; }
    }
  }

  lemma {:induction false} GetBehind<N, T>(u: seq<Item<N, T>>, t: seq<Item<N, T>>, names: set<N>, name: N, blank: T)
    requires Clear(u, names) && name in names
    ensures Has(u + t, name) == Has(t, name)
    ensures Get(u + t, name, blank) == Get(t, name, blank)
    ensures Tail(u + t, name) == Tail(t, name)
  {
    if u == [] {
      assert u + t == t;
    } else {
      assert (u + t)[1..] == u[1..] + t;
      GetBehind(u[1..], t, names, name, blank);
    }
  }

  lemma {:induction false} PutBehind<N, T>(u: seq<Item<N, T>>, t: seq<Item<N, T>>, names: set<N>, name: N, body: T)
    requires Clear(u, names) && name in names
    ensures Put(u + t, name, body) == u + Put(t, name, body)
  {
    if u == [] {
      assert u + t == t;
    } else {
      assert (u + t)[1..] == u[1..] + t;
      PutBehind(u[1..], t, names, name, body);
    }
  }

  lemma {:induction false} RemoveBehind<N, T>(u: seq<Item<N, T>>, t: seq<Item<N, T>>, names: set<N>, name: N)
    requires Clear(u, names) && name in names
    ensures Remove(u + t, name) == u + Remove(t, name)
  {
    if u == [] {
      assert u + t == t;
    } else {
      assert (u + t)[1..] == u[1..] + t;
      RemoveBehind(u[1..], t, names, name);
    }
  }

  lemma ConsGet<N, T>(x: Item<N, T>, s: seq<Item<N, T>>, name: N, blank: T)
    ensures Has([x] + s, name) <==> x.name == name || Has(s, name)
    ensures Get([x] + s, name, blank) == if x.name == name then x.body else Get(s, name, blank)
  {
    assert ([x] + s)[1..] == s;
  }

  lemma {:induction false} PutGet<N, T>(s: seq<Item<N, T>>, name: N, body: T, other: N, blank: T)
    ensures Has(Put(s, name, body), other) <==> other == name || Has(s, other)
    ensures Get(Put(s, name, body), other, blank) == if other == name then body else Get(s, other, blank)
  {
    if s == [] {
    } else if s[0].name == name {
      ConsGet(Item(name, body), s[1..], other, blank);
    } else {
      ConsGet(s[0], Put(s[1..], name, body), other, blank);
      PutGet(s[1..], name, body, other, blank);
    }
  }

  lemma {:induction false} PutBack<N, T>(s: seq<Item<N, T>>, name: N, blank: T)
    requires Has(s, name)
    ensures Put(s, name, Get(s, name, blank)) == s
  {
    if s[0].name != name { PutBack(s[1..], name, blank); }
    assert s == [s[0]] + s[1..];
  }

  lemma {:induction false} PutPut<N, T>(s: seq<Item<N, T>>, name: N, x: T, y: T)
    ensures Put(Put(s, name, x), name, y) == Put(s, name, y)
  {
    var p := Put(s, name, x);
    if s == [] {
      assert p[1..] == [];
    } else if s[0].name == name {
      assert p[1..] == s[1..];
    } else {
      assert p[1..] == Put(s[1..], name, x);
      PutPut(s[1..], name, x, y);
    }
  }

  lemma {:induction false} RemoveGet<N, T>(s: seq<Item<N, T>>, name: N, other: N, blank: T)
    requires other != name
    ensures Has(Remove(s, name), other) <==> Has(s, other)
    ensures Get(Remove(s, name), other, blank) == Get(s, other, blank)
  {
    if s != [] && s[0].name != name {
      ConsGet(s[0], Remove(s[1..], name), other, blank);
      RemoveGet(s[1..], name, other, blank);
    }
  }

  lemma {:induction false} RemoveAbsent<N, T>(s: seq<Item<N, T>>, name: N)
    requires !Has(s, name)
    ensures Remove(s, name) == s
  {
    if s != [] {
      RemoveAbsent(s[1..], name);
      assert s == [s[0]] + s[1..];
    }
  }

  lemma {:induction false} PutKeeps<N, T>(s: seq<Item<N, T>>, name: N, body: T, names: set<N>)
    requires Distinct(s) && Within(s, names) && name in names
    ensures Distinct(Put(s, name, body)) && Within(Put(s, name, body), names)
    ensures Put(s, name, body)[0].name == if s == [] then name else s[0].name
  {
    if s != [] {
      var p := Put(s, name, body);
      if s[0].name == name {
        assert forall i :: 0 < i < |p| ==> p[i] == s[i];
      } else {
        PutKeeps(s[1..], name, body, names);
        PutGet(s[1..], name, body, s[0].name, body);
        Fresh(s);
        ConsKeeps(s[0], Put(s[1..], name, body), names);
      }
    }
  }

  lemma Fresh<N, T>(s: seq<Item<N, T>>)
    requires Distinct(s) && s != []
    ensures !Has(s[1..], s[0].name)
  {
    HasIff(s[1..], s[0].name);
  }

  lemma ConsKeeps<N, T>(x: Item<N, T>, s: seq<Item<N, T>>, names: set<N>)
    requires Distinct(s) && Within(s, names) && x.name in names && !Has(s, x.name)
    ensures Distinct([x] + s) && Within([x] + s, names)
  {
    var r := [x] + s;
    HasIff(s, x.name);
    forall i | 0 < i < |r| ensures r[i] == s[i - 1] && r[i].name in names && r[i].name != x.name {}
  }

  lemma {:induction false} RemoveKeeps<N, T>(s: seq<Item<N, T>>, name: N, names: set<N>)
    requires Distinct(s) && Within(s, names)
    ensures Distinct(Remove(s, name)) && Within(Remove(s, name), names) && !Has(Remove(s, name), name)
    ensures s != [] && s[0].name != name ==> Remove(s, name) != [] && Remove(s, name)[0].name == s[0].name
  {
    if s != [] {
      Fresh(s);
      if s[0].name != name {
        RemoveKeeps(s[1..], name, names);
        RemoveGet(s[1..], name, s[0].name, s[0].body);
        ConsKeeps(s[0], Remove(s[1..], name), names);
      }
    }
  }

  lemma {:induction false} FrontTail<N, T>(s: seq<Item<N, T>>, first: N)
    ensures s == Front(s, first) + Tail(s, first)
  {
    if s != [] && s[0].name != first {
      FrontTail(s[1..], first);
      assert s == [s[0]] + s[1..];
    }
  }

  lemma {:induction false} TailKeeps<N, T>(s: seq<Item<N, T>>, first: N, names: set<N>)
    ensures Tail(s, first) == [] || Starts(Tail(s, first), first)
    ensures Distinct(s) ==> Distinct(Tail(s, first))
    ensures Within(s, names) ==> Within(Tail(s, first), names)
  {
    if s != [] && s[0].name != first { TailKeeps(s[1..], first, names); }
  }

  lemma {:induction false} ApplyBehind<N, T(!new)>(u: seq<Item<N, T>>, t: seq<Item<N, T>>, ops: seq<Op<N, T>>, names: set<N>, blank: T)
    requires Clear(u, names) && Among(ops, names)
    ensures Apply(u + t, ops, blank) == u + Apply(t, ops, blank)
    decreases |ops|
  {
    if ops != [] {
      var op := ops[0];
      if op.Write? {
        GetBehind(u, t, names, op.name, blank);
        PutBehind(u, t, names, op.name, op.f(Get(t, op.name, blank)));
      } else {
        RemoveBehind(u, t, names, op.name);
      }
      ApplyBehind(u, Do(t, op, blank), ops[1..], names, blank);
    }
  }

  lemma DoKeeps<N, T(!new)>(s: seq<Item<N, T>>, op: Op<N, T>, names: set<N>, blank: T)
    requires Distinct(s) && Within(s, names) && op.name in names
    ensures Distinct(Do(s, op, blank)) && Within(Do(s, op, blank), names)
    ensures s != [] && !(op.Delete? && op.name == s[0].name) ==> Starts(Do(s, op, blank), s[0].name)
    ensures s == [] && op.Write? ==> Starts(Do(s, op, blank), op.name)
  {
    if op.Write? { PutKeeps(s, op.name, op.f(Get(s, op.name, blank)), names); } else { RemoveKeeps(s, op.name, names); }
  }

  /** A script keeps the system part well formed, as long as its first item is written first. */
  lemma {:induction false} ApplyKeeps<N, T(!new)>(s: seq<Item<N, T>>, ops: seq<Op<N, T>>, names: set<N>, first: N, blank: T)
    requires Distinct(s) && Within(s, names) && Among(ops, names)
    requires forall i :: 0 <= i < |ops| && ops[i].Delete? ==> ops[i].name != first
    requires Starts(s, first) || (s == [] && ops != [] && ops[0].Write? && ops[0].name == first)
    ensures Distinct(Apply(s, ops, blank)) && Within(Apply(s, ops, blank), names) && Starts(Apply(s, ops, blank), first)
    decreases |ops|
  {
    if ops != [] {
      DoKeeps(s, ops[0], names, blank);
      ApplyKeeps(Do(s, ops[0], blank), ops[1..], names, first, blank);
    }
  }

  lemma DoGet<N, T(!new)>(s: seq<Item<N, T>>, op: Op<N, T>, name: N, blank: T)
    requires Distinct(s)
    ensures Has(Do(s, op, blank), name) == if op.name == name then op.Write? else Has(s, name)
    ensures op.name != name ==> Get(Do(s, op, blank), name, blank) == Get(s, name, blank)
    ensures op.name == name && op.Write? ==> Get(Do(s, op, blank), name, blank) == op.f(Get(s, name, blank))
    ensures Distinct(Do(s, op, blank))
  {
    var names := {op.name} + set i | 0 <= i < |s| :: s[i].name;
    DoKeeps(s, op, names, blank);
    if op.Write? {
      PutGet(s, op.name, op.f(Get(s, op.name, blank)), name, blank);
    } else {
      RemoveKeeps(s, op.name, names);
      if op.name != name { RemoveGet(s, op.name, name, blank); }
    }
  }

  lemma {:induction false} ApplyGet<N, T(!new)>(s: seq<Item<N, T>>, ops: seq<Op<N, T>>, name: N, blank: T)
    requires Distinct(s) && forall i :: 0 <= i < |ops| ==> ops[i].name != name
    ensures Has(Apply(s, ops, blank), name) == Has(s, name)
    ensures Get(Apply(s, ops, blank), name, blank) == Get(s, name, blank)
    decreases |ops|
  {
    if ops != [] {
      DoGet(s, ops[0], name, blank);
      ApplyGet(Do(s, ops[0], blank), ops[1..], name, blank);
    }
  }

  /** What a script leaves of an item that it edits once. */
  lemma {:induction false} ApplyAt<N, T(!new)>(s: seq<Item<N, T>>, ops: seq<Op<N, T>>, i: nat, blank: T)
    requires Distinct(s) && Once(ops) && i < |ops|
    ensures Has(Apply(s, ops, blank), ops[i].name) == ops[i].Write?
    ensures ops[i].Write? ==> Get(Apply(s, ops, blank), ops[i].name, blank) == ops[i].f(Get(s, ops[i].name, blank))
    decreases |ops|
  {
    DoGet(s, ops[0], ops[i].name, blank);
    if i == 0 {
      ApplyGet(Do(s, ops[0], blank), ops[1..], ops[0].name, blank);
    } else {
      ApplyAt(Do(s, ops[0], blank), ops[1..], i - 1, blank);
    }
  }

  lemma {:induction false} ApplySettled<N, T(!new)>(s: seq<Item<N, T>>, ops: seq<Op<N, T>>, blank: T)
    requires forall i :: 0 <= i < |ops| ==> Settled(s, ops[i], blank)
    ensures Apply(s, ops, blank) == s
    decreases |ops|
  {
    if ops != [] {
      if ops[0].Write? { PutBack(s, ops[0].name, blank); } else { RemoveAbsent(s, ops[0].name); }
      ApplySettled(s, ops[1..], blank);
    }
  }

  /** A second run of a script of repeatable edits changes nothing. */
  lemma ApplyTwice<N, T(!new)>(s: seq<Item<N, T>>, ops: seq<Op<N, T>>, blank: T)
    requires Distinct(s) && Once(ops) && Repeatable(ops)
    ensures Apply(Apply(s, ops, blank), ops, blank) == Apply(s, ops, blank)
  {
    forall i | 0 <= i < |ops| ensures Settled(Apply(s, ops, blank), ops[i], blank) {
      ApplyAt(s, ops, i, blank);
    }
    ApplySettled(Apply(s, ops, blank), ops, blank);
  }

  lemma {:induction false} ApplyAppend<N, T(!new)>(s: seq<Item<N, T>>, a: seq<Op<N, T>>, b: seq<Op<N, T>>, blank: T)
    ensures Apply(s, a + b, blank) == Apply(Apply(s, a, blank), b, blank)
    decreases |a|
  {
    if a == [] {
      assert a + b == b;
    } else {
      assert (a + b)[1..] == a[1..] + b;
      ApplyAppend(Do(s, a[0], blank), a[1..], b, blank);
    }
  }

  /** A script between two writes of one item. */
  function Framed<N(==), T>(t: seq<Item<N, T>>, ops: seq<Op<N, T>>, name: N, x: T, y: T, blank: T): seq<Item<N, T>> {
    Put(Apply(Put(t, name, x), ops, blank), name, y)
  }

  predicate Avoids<N(==), T(!new)>(ops: seq<Op<N, T>>, name: N) {
    forall i :: 0 <= i < |ops| ==> ops[i].name != name
  }

  lemma FramedBehind<N, T(!new)>(u: seq<Item<N, T>>, t: seq<Item<N, T>>, ops: seq<Op<N, T>>, names: set<N>, name: N, x: T, y: T, blank: T)
    requires Clear(u, names) && Among(ops, names) && name in names && Distinct(t) && Avoids(ops, name)
    ensures var s := Apply(Put(u + t, name, x), ops, blank); Has(s, name) && Get(s, name, blank) == x
    ensures Framed(u + t, ops, name, x, y, blank) == u + Framed(t, ops, name, x, y, blank)
  {
    var t1 := Put(t, name, x);
    PutBehind(u, t, names, name, x);
    ApplyBehind(u, t1, ops, names, blank);
    var t2 := Apply(t1, ops, blank);
    GetBehind(u, t2, names, name, blank);
    DoGet(t, Write(name, (_: T) => x), name, blank);
    ApplyGet(t1, ops, name, blank);
    PutBehind(u, t2, names, name, y);
  }

  lemma FramedKeeps<N, T(!new)>(t: seq<Item<N, T>>, ops: seq<Op<N, T>>, names: set<N>, name: N, x: T, y: T, blank: T)
    requires Among(ops, names) && name in names && Distinct(t) && Within(t, names) && (t == [] || Starts(t, name)) && Avoids(ops, name)
    ensures var r := Framed(t, ops, name, x, y, blank); Distinct(r) && Within(r, names) && Starts(r, name)
  {
    PutKeeps(t, name, x, names);
    ApplyKeeps(Put(t, name, x), ops, names, name, blank);
    PutKeeps(Apply(Put(t, name, x), ops, blank), name, y, names);
  }

  /** What such a sequence leaves: the item as last written, the rest as the script leaves it. */
  lemma FramedGet<N, T(!new)>(t: seq<Item<N, T>>, ops: seq<Op<N, T>>, name: N, x: T, y: T, i: nat, blank: T)
    requires Distinct(t) && Once(ops) && Avoids(ops, name) && i < |ops|
    ensures
      var r := Framed(t, ops, name, x, y, blank);
      && Has(r, name) && Get(r, name, blank) == y
      && Has(r, ops[i].name) == ops[i].Write?
      && (ops[i].Write? ==> Get(r, ops[i].name, blank) == ops[i].f(Get(t, ops[i].name, blank)))
  {
    DoGet(t, Write(name, (_: T) => x), ops[i].name, blank);
    var t1 := Put(t, name, x);
    ApplyAt(t1, ops, i, blank);
    var t2 := Apply(t1, ops, blank);
    PutGet(t2, name, y, ops[i].name, blank);
    PutGet(t2, name, y, name, blank);
  }

  /** A settled script between two writes leaves the second write only. */
  lemma FramedSettled<N, T(!new)>(r: seq<Item<N, T>>, ops: seq<Op<N, T>>, name: N, b: T, x: T, y: T, blank: T)
    requires Has(r, name) && Avoids(ops, name)
    requires forall i :: 0 <= i < |ops| ==> Settled(r, ops[i], blank)
    ensures Framed(Put(r, name, b), ops, name, x, y, blank) == Put(r, name, y)
    ensures Get(Put(r, name, b), name, blank) == b
  {
    var r1 := Put(r, name, x);
    PutGet(r, name, b, name, blank);
    PutPut(r, name, b, x);
    forall i | 0 <= i < |ops| ensures Settled(r1, ops[i], blank) { PutGet(r, name, x, ops[i].name, blank); }
    ApplySettled(r1, ops, blank);
    PutPut(r, name, x, y);
  }

  // ---------- lists shared with the user ----------

  /** The user's items are put first; from `first` on the list is the system's, and edited by a script. */
  function Refresh<N(==), T>(s: seq<Item<N, T>>, user: seq<Item<N, T>>, first: N, ops: seq<Op<N, T>>, blank: T): seq<Item<N, T>> {
    Apply(user + Tail(s, first), ops, blank)
  }

  lemma RefreshSplits<N, T(!new)>(s: seq<Item<N, T>>, user: seq<Item<N, T>>, first: N, ops: seq<Op<N, T>>, names: set<N>, blank: T)
    requires Clear(user, names) && Among(ops, names) && first in names
    ensures
      var t := Apply(Tail(s, first), ops, blank);
      Refresh(s, user, first, ops, blank) == user + t && Tail(Refresh(s, user, first, ops, blank), first) == Tail(t, first)
  {
    ApplyBehind(user, Tail(s, first), ops, names, blank);
    GetBehind(user, Apply(Tail(s, first), ops, blank), names, first, blank);
  }

  ghost predicate Repeatable<N, T(!new)>(ops: seq<Op<N, T>>) {
    forall i, x :: 0 <= i < |ops| && ops[i].Write? ==> ops[i].f(ops[i].f(x)) == ops[i].f(x)
  }

  /** Refreshing one's own result changes nothing, if the system's part starts with its first item. */
  lemma RefreshTwice<N, T(!new)>(s: seq<Item<N, T>>, user: seq<Item<N, T>>, first: N, ops: seq<Op<N, T>>, names: set<N>, blank: T)
    requires Clear(user, names) && Among(ops, names) && first in names && Once(ops) && Repeatable(ops)
    requires Distinct(Tail(s, first)) && Starts(Apply(Tail(s, first), ops, blank), first)
    ensures var r := Refresh(s, user, first, ops, blank); Refresh(r, user, first, ops, blank) == r
  {
    var t := Apply(Tail(s, first), ops, blank);
    RefreshSplits(s, user, first, ops, names, blank);
    ApplyTwice(Tail(s, first), ops, blank);
    ApplyBehind(user, t, ops, names, blank);
  }

  // ---------- the same by index ----------

  /** The linear search over a list, with the edits that its result allows. */
  method HasNamed<N(==), T>(s: seq<Item<N, T>>, name: N) returns (found: bool, index: nat)
    ensures found == Has(s, name) && (found ==> index < |s|) && (!found ==> index == 0)
    ensures found ==> s[index].name == name && forall blank :: Get(s, name, blank) == s[index].body
    ensures forall body :: Put(s, name, body) == if found then s[index := Item(name, body)] else s + [Item(name, body)]
    ensures Remove(s, name) == if found then s[..index] + s[index + 1..] else s
    ensures Tail(s, name) == if found then s[index..] else []
  {
    for i := 0 to |s|
      invariant forall j :: 0 <= j < i ==> s[j].name != name
    {
      if s[i].name == name {
        HasIff(s, name);
        ByIndex(s, name, i);
        return true, i;
      }
    }
    HasIff(s, name);
    ByIndex(s, name, |s|);
    return false, 0;
  }

  lemma {:induction false} ByIndex<N, T>(s: seq<Item<N, T>>, name: N, i: nat)
    requires i <= |s| && (i < |s| ==> s[i].name == name) && forall j :: 0 <= j < i ==> s[j].name != name
    ensures i < |s| ==> forall blank :: Get(s, name, blank) == s[i].body
    ensures forall body :: Put(s, name, body) == if i < |s| then s[i := Item(name, body)] else s + [Item(name, body)]
    ensures Remove(s, name) == if i < |s| then s[..i] + s[i + 1..] else s
    ensures Tail(s, name) == if i < |s| then s[i..] else []
  {
    if s != [] && i > 0 {
      var t := s[1..];
      assert s == [s[0]] + t;
      ByIndex(t, name, i - 1);
      if i < |s| {
        assert s[..i] + s[i + 1..] == [s[0]] + (t[..i - 1] + t[i..]);
        assert s[i..] == t[i - 1..];
      }
    }
  }
}
