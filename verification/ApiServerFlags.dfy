/**
 * The kube-apiserver arguments are merged from three layers: flags that Kamaji manages, the user's
 * extra arguments, and defaults for what the user did not set.
 */
module ApiServerFlags {
  import opened Ordering

  type Table = map<string, string>

  /** The name of an argument's flag: what precedes its first '='. */
  function Flag(arg: string): string {
    if arg == [] || arg[0] == '=' then [] else [arg[0]] + Flag(arg[1..])
  }

  function Format(flag: string, value: string): string {
    if value == "" then flag else flag + "=" + value
  }

  /** Flag names carry no '='. */
  predicate Named(table: Table) {
    forall k :: k in table ==> '=' !in k
  }

  lemma {:induction false} FlagOfFormat(flag: string, value: string)
    requires '=' !in flag
    ensures Flag(Format(flag, value)) == flag
  {
    if flag != [] {
      assert Format(flag, value)[1..] == Format(flag[1..], value);
      FlagOfFormat(flag[1..], value);
    }
  }

  // ---------- specification ----------

  /** The arguments whose flags are not among `flags`, in order. */
  function Drop(args: seq<string>, flags: set<string>): seq<string> {
    if args == [] then []
    else Drop(args[..|args| - 1], flags) + (if Flag(args[|args| - 1]) in flags then [] else [args[|args| - 1]])
  }

  function FlagsOf(args: seq<string>): set<string> {
    set i | 0 <= i < |args| :: Flag(args[i])
  }

  function Rendered(table: Table): set<string> {
    set k | k in table :: Format(k, table[k])
  }

  function Without(table: Table, flags: set<string>): Table {
    map k | k in table && k !in flags :: table[k]
  }

  /** The flags that the user's arguments settle. */
  function UserFlags(extras: seq<string>, managed: Table): set<string> {
    FlagsOf(Drop(extras, managed.Keys))
  }

  /** What Kamaji contributes to the arguments. */
  function Owned(extras: seq<string>, defaults: Table, managed: Table): multiset<string> {
    multiset(Rendered(Without(defaults, UserFlags(extras, managed)))) + multiset(Rendered(managed))
  }

  /** Arguments of the container that nobody claims are kept. */
  function Foreign(current: seq<string>, extras: seq<string>, defaults: Table, managed: Table): seq<string> {
    Drop(current, managed.Keys + defaults.Keys + UserFlags(extras, managed))
  }

  ghost function Merge(current: seq<string>, extras: seq<string>, defaults: Table, managed: Table): seq<string> {
    Listing(multiset(Foreign(current, extras, defaults, managed)) + Owned(extras, defaults, managed))
    + Drop(extras, managed.Keys)
  }

  // ---------- lemmas ----------

  lemma {:induction false} DropCount(args: seq<string>, flags: set<string>, x: string)
    ensures multiset(Drop(args, flags))[x] == if Flag(x) in flags then 0 else multiset(args)[x]
  {
    if args != [] {
      DropCount(args[..|args| - 1], flags, x);
      assert args == args[..|args| - 1] + [args[|args| - 1]];
    }
  }

  /** `Drop` keeps every argument whose flag is not named, as it stands and in order: these laws leave no choice. */
  lemma {:induction false} DropLaws(a: seq<string>, b: seq<string>, flags: set<string>, x: string)
    ensures Drop(a + b, flags) == Drop(a, flags) + Drop(b, flags)
    ensures Drop([x], flags) == if Flag(x) in flags then [] else [x]
    decreases |b|
  {
    assert [x][..0] == [];
    if b == [] {
      assert a + b == a;
    } else {
      var b', y := b[..|b| - 1], b[|b| - 1];
      assert (a + b)[..|a + b| - 1] == a + b';
      DropLaws(a, b', flags, x);
    }
  }

  /** The flag of an argument is what stands before its first '=', or all of it. */
  lemma {:induction false} FlagExactly(name: string, rest: string)
    requires '=' !in name
    ensures Flag(name) == name && Flag(name + "=" + rest) == name
  {
    if name != [] {
      assert (name + "=" + rest)[1..] == name[1..] + "=" + rest;
      FlagExactly(name[1..], rest);
    }
  }

  lemma FlagInFlagsOf(args: seq<string>, x: string)
    requires x in multiset(args)
    ensures Flag(x) in FlagsOf(args)
  {
    assert x in args;
  }

  lemma RenderedFlag(table: Table, x: string)
    requires Named(table) && x in Rendered(table)
    ensures Flag(x) in table && x == Format(Flag(x), table[Flag(x)])
  {
    var k :| k in table && x == Format(k, table[k]);
    FlagOfFormat(k, table[k]);
  }

  /** How often an argument occurs in the merge. */
  lemma MergeCount(current: seq<string>, extras: seq<string>, defaults: Table, managed: Table, x: string)
    ensures multiset(Merge(current, extras, defaults, managed))[x]
      == multiset(Foreign(current, extras, defaults, managed))[x] + Owned(extras, defaults, managed)[x]
         + multiset(Drop(extras, managed.Keys))[x]
  {}

  /** What Kamaji contributes is claimed, so a second merge does not take it for foreign. */
  lemma OwnedIsClaimed(extras: seq<string>, defaults: Table, managed: Table, x: string)
    requires Named(defaults) && Named(managed) && x in Owned(extras, defaults, managed)
    ensures Flag(x) in managed.Keys + defaults.Keys
  {
    var d := Without(defaults, UserFlags(extras, managed));
    if x in Rendered(d) { RenderedFlag(d, x); } else { RenderedFlag(managed, x); }
  }

  lemma SameForeign(current: seq<string>, extras: seq<string>, defaults: Table, managed: Table, x: string)
    requires Named(defaults) && Named(managed)
    ensures
      var out := Merge(current, extras, defaults, managed);
      multiset(Foreign(out, extras, defaults, managed))[x] == multiset(Foreign(current, extras, defaults, managed))[x]
  {
    var out := Merge(current, extras, defaults, managed);
    var claimed := managed.Keys + defaults.Keys + UserFlags(extras, managed);
    DropCount(out, claimed, x);
    DropCount(current, claimed, x);
    MergeCount(current, extras, defaults, managed, x);
    if Flag(x) !in claimed {
      if x in Owned(extras, defaults, managed) { OwnedIsClaimed(extras, defaults, managed, x); }
      if x in multiset(Drop(extras, managed.Keys)) { FlagInFlagsOf(Drop(extras, managed.Keys), x); }
    }
  }

  // ---------- main results ----------

  /** Merging into its own result changes nothing. */
  lemma MergeIsIdempotent(current: seq<string>, extras: seq<string>, defaults: Table, managed: Table)
    requires Named(defaults) && Named(managed)
    ensures
      var out := Merge(current, extras, defaults, managed);
      Merge(out, extras, defaults, managed) == out
  {
    var out := Merge(current, extras, defaults, managed);
    forall x ensures multiset(Foreign(out, extras, defaults, managed))[x] == multiset(Foreign(current, extras, defaults, managed))[x] {
      SameForeign(current, extras, defaults, managed, x);
    }
    assert multiset(Foreign(out, extras, defaults, managed)) == multiset(Foreign(current, extras, defaults, managed));
  }

  /** `x` occurs once, and no other argument sets its flag. */
  predicate Sole(args: seq<string>, x: string) {
    multiset(args)[x] == 1 && forall y :: y in args && Flag(y) == Flag(x) ==> y == x
  }

  /** A managed flag appears exactly once, with its managed value, whatever the user or the container say. */
  lemma ManagedAppearsOnce(current: seq<string>, extras: seq<string>, defaults: Table, managed: Table, flag: string)
    requires Named(defaults) && Named(managed) && defaults.Keys !! managed.Keys && flag in managed
    ensures
      var x := if managed[flag] == "" then flag else flag + "=" + managed[flag];
      Flag(x) == flag && Sole(Merge(current, extras, defaults, managed), x)
  {
    var out, x := Merge(current, extras, defaults, managed), Format(flag, managed[flag]);
    var user := UserFlags(extras, managed);
    FlagOfFormat(flag, managed[flag]);
    forall y | Flag(y) == flag
      ensures multiset(out)[y] == if y == x then 1 else 0
    {
      MergeCount(current, extras, defaults, managed, y);
      DropCount(current, managed.Keys + defaults.Keys + user, y);
      DropCount(extras, managed.Keys, y);
      if y in Rendered(Without(defaults, user)) { RenderedFlag(Without(defaults, user), y); }
      if y in Rendered(managed) { RenderedFlag(managed, y); }
    }
  }

  /** A default appears exactly once when the user left its flag alone. */
  lemma DefaultAppearsOnce(current: seq<string>, extras: seq<string>, defaults: Table, managed: Table, flag: string)
    requires Named(defaults) && Named(managed) && defaults.Keys !! managed.Keys
    requires flag in defaults && flag !in UserFlags(extras, managed)
    ensures
      var x := if defaults[flag] == "" then flag else flag + "=" + defaults[flag];
      Flag(x) == flag && Sole(Merge(current, extras, defaults, managed), x)
  {
    var out, x := Merge(current, extras, defaults, managed), Format(flag, defaults[flag]);
    var user := UserFlags(extras, managed);
    var d := Without(defaults, user);
    FlagOfFormat(flag, defaults[flag]);
    assert flag in d && d[flag] == defaults[flag];
    forall y | Flag(y) == flag
      ensures multiset(out)[y] == if y == x then 1 else 0
    {
      MergeCount(current, extras, defaults, managed, y);
      DropCount(current, managed.Keys + defaults.Keys + user, y);
      if y in multiset(Drop(extras, managed.Keys)) { FlagInFlagsOf(Drop(extras, managed.Keys), y); }
      if y in Rendered(d) { RenderedFlag(d, y); }
      if y in Rendered(managed) { RenderedFlag(managed, y); }
    }
  }

  /**
   * Where the user set an unmanaged flag, the arguments carrying it are the user's, occurrence by
   * occurrence; they stand verbatim and in order behind everything else.
   */
  lemma UserArgumentsStand(current: seq<string>, extras: seq<string>, defaults: Table, managed: Table, x: string)
    requires Named(defaults) && Named(managed) && Flag(x) in UserFlags(extras, managed)
    ensures
      var out, user := Merge(current, extras, defaults, managed), Drop(extras, managed.Keys);
      && multiset(out)[x] == multiset(extras)[x]
      && |user| <= |out| && out[|out| - |user|..] == user && Sorted(out[..|out| - |user|])
  {
    var user := UserFlags(extras, managed);
    var out, suffix := Merge(current, extras, defaults, managed), Drop(extras, managed.Keys);
    assert out[..|out| - |suffix|] == Listing(multiset(Foreign(current, extras, defaults, managed)) + Owned(extras, defaults, managed));
    MergeCount(current, extras, defaults, managed, x);
    DropCount(current, managed.Keys + defaults.Keys + user, x);
    KeptFlagIsUnmanaged(extras, managed, Flag(x));
    DropCount(extras, managed.Keys, x);
    if x in Rendered(Without(defaults, user)) { RenderedFlag(Without(defaults, user), x); }
    if x in Rendered(managed) { RenderedFlag(managed, x); }
  }

  /** An argument whose flag nobody claims stays, as often as the container had it. */
  lemma ForeignArgumentsStay(current: seq<string>, extras: seq<string>, defaults: Table, managed: Table, x: string)
    requires Named(defaults) && Named(managed)
    requires Flag(x) !in managed.Keys + defaults.Keys + UserFlags(extras, managed)
    ensures multiset(Merge(current, extras, defaults, managed))[x] == multiset(current)[x]
  {
    MergeCount(current, extras, defaults, managed, x);
    DropCount(current, managed.Keys + defaults.Keys + UserFlags(extras, managed), x);
    if x in Owned(extras, defaults, managed) { OwnedIsClaimed(extras, defaults, managed, x); }
    if x in multiset(Drop(extras, managed.Keys)) { FlagInFlagsOf(Drop(extras, managed.Keys), x); }
  }

  lemma KeptFlagIsUnmanaged(extras: seq<string>, managed: Table, flag: string)
    requires flag in UserFlags(extras, managed)
    ensures flag !in managed
  {
    var kept := Drop(extras, managed.Keys);
    var i :| 0 <= i < |kept| && flag == Flag(kept[i]);
    assert kept[i] in multiset(kept);
    DropCount(extras, managed.Keys, kept[i]);
  }

  // ---------- the merge as it is computed ----------

  /** An order in which a table's keys may be visited. */
  predicate Enumerates(order: seq<string>, table: Table) {
    && (forall i :: 0 <= i < |order| ==> order[i] in table)
    && (forall k :: k in table ==> k in order)
    && (forall i, j :: 0 <= i < j < |order| ==> order[i] != order[j])
  }

  /** What the first `n` visits contribute. */
  function Visited(table: Table, order: seq<string>, n: nat, skip: set<string>): Table
    requires n <= |order|
  {
    map k | k in table && k in order[..n] && k !in skip :: table[k]
  }

  lemma RenderedGrows(table: Table, flag: string, value: string)
    requires Named(table) && flag !in table && '=' !in flag
    ensures multiset(Rendered(table[flag := value])) == multiset(Rendered(table)) + multiset{Format(flag, value)}
  {
    var t := table[flag := value];
    var x := Format(flag, value);
    FlagOfFormat(flag, value);
    if x in Rendered(table) { RenderedFlag(table, x); }
    assert Rendered(t) == Rendered(table) + {x} by {
      forall y | y in Rendered(t) ensures y in Rendered(table) + {x} {
        RenderedFlag(t, y);
        if Flag(y) != flag { assert t[Flag(y)] == table[Flag(y)]; }
      }
      forall y | y in Rendered(table) + {x} ensures y in Rendered(t) {
        if y != x { RenderedFlag(table, y); assert t[Flag(y)] == table[Flag(y)]; } else { assert t[flag] == value; }
      }
    }
  }

  lemma VisitedEnds(table: Table, order: seq<string>, skip: set<string>)
    requires Enumerates(order, table)
    ensures Rendered(Visited(table, order, 0, skip)) == {}
    ensures Visited(table, order, |order|, skip) == Without(table, skip)
  {
    assert order[..|order|] == order;
  }

  lemma VisitContributes(table: Table, order: seq<string>, n: nat, skip: set<string>)
    requires Named(table) && Enumerates(order, table) && n < |order|
    ensures
      var was, now := Rendered(Visited(table, order, n, skip)), Rendered(Visited(table, order, n + 1, skip));
      multiset(now) == multiset(was) + if order[n] in skip then multiset{} else multiset{Format(order[n], table[order[n]])}
  {
    assert order[..n + 1] == order[..n] + [order[n]];
    var was, now := Visited(table, order, n, skip), Visited(table, order, n + 1, skip);
    if order[n] in skip {
      assert now == was;
    } else {
      assert now == was[order[n] := table[order[n]]];
      RenderedGrows(was, order[n], table[order[n]]);
    }
  }

  lemma FlagsOfAppend(args: seq<string>, x: string)
    ensures FlagsOf(args + [x]) == FlagsOf(args) + {Flag(x)}
  {
    var all := args + [x];
    forall f | f in FlagsOf(args) ensures f in FlagsOf(all) {
      var i :| 0 <= i < |args| && f == Flag(args[i]);
      assert all[i] == args[i];
    }
    assert all[|args|] == x;
  }

  /** The arguments of a table, in visiting order. */
  method AppendTable(args: seq<string>, table: Table, order: seq<string>, skip: set<string>) returns (r: seq<string>)
    requires Named(table) && Enumerates(order, table)
    ensures multiset(r) == multiset(args) + multiset(Rendered(Without(table, skip)))
  {
    r := args;
    VisitedEnds(table, order, skip);
    for n := 0 to |order|
      invariant multiset(r) == multiset(args) + multiset(Rendered(Visited(table, order, n, skip)))
    {
      VisitContributes(table, order, n, skip);
      var flag := order[n];
      if flag in skip { continue; }
      var arg := Format(flag, table[flag]);
      assert multiset(r + [arg]) == multiset(r) + multiset{arg};
      r := r + [arg];
    }
  }

  method AppendForeign(current: seq<string>, managed: Table, defaults: Table, user: set<string>) returns (r: seq<string>)
    ensures r == Drop(current, managed.Keys + defaults.Keys + user)
  {
    r := [];
    for i := 0 to |current|
      invariant r == Drop(current[..i], managed.Keys + defaults.Keys + user)
    {
      assert current[..i + 1][..i] == current[..i];
      var flag := Flag(current[i]);
      if flag in managed { continue; }
      if flag in defaults { continue; }
      if flag in user { continue; }
      r := r + [current[i]];
    }
    assert current[..|current|] == current;
  }

  method Sanitize(extras: seq<string>, managed: Table) returns (kept: seq<string>, user: set<string>)
    ensures kept == Drop(extras, managed.Keys) && user == UserFlags(extras, managed)
  {
    kept, user := [], {};
    for i := 0 to |extras|
      invariant kept == Drop(extras[..i], managed.Keys) && user == FlagsOf(kept)
    {
      assert extras[..i + 1][..i] == extras[..i];
      var flag := Flag(extras[i]);
      if flag in managed { continue; }
      user := user + {flag};
      FlagsOfAppend(kept, extras[i]);
      kept := kept + [extras[i]];
    }
    assert extras[..|extras|] == extras;
  }

  /** Whatever order the two tables are visited in, the result is the merge. */
  method MergeArguments(current: seq<string>, extras: seq<string>, defaults: Table, managed: Table,
                        defaultsOrder: seq<string>, managedOrder: seq<string>) returns (args: seq<string>)
    requires Named(defaults) && Named(managed)
    requires Enumerates(defaultsOrder, defaults) && Enumerates(managedOrder, managed)
    ensures args == Merge(current, extras, defaults, managed)
  {
    var kept, user := Sanitize(extras, managed);
    var owned := AppendForeign(current, managed, defaults, user);
    owned := AppendTable(owned, defaults, defaultsOrder, user);
    owned := AppendTable(owned, managed, managedOrder, {});
    assert Without(managed, {}) == managed;
    ListingOf(owned);
    assert multiset(owned) == multiset(Foreign(current, extras, defaults, managed)) + Owned(extras, defaults, managed);
    owned := Sort(owned);
    args := owned + kept;
  }
}
