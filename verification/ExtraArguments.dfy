/**
 * What one build of the Deployment does to the kube-apiserver arguments.  The extra arguments in
 * force are recorded as a checksum in an annotation: when they change, the arguments are rendered
 * from scratch, since arguments that nobody claims would otherwise be kept.
 */
module ExtraArguments {
  import opened Common
  import opened Ordering
  import opened ApiServerFlags

  const EGRESS := "--egress-selector-config-file"
  const OVERRIDES := "--etcd-servers-overrides"

  /** What a build renders; `strip` removes the egress flag of a disabled Konnectivity. */
  datatype Setup = Setup(extraArgs: Option<seq<string>>, defaults: Table, managed: Table, overrides: bool, strip: bool)

  predicate Proper(c: Setup) {
    Named(c.defaults) && Named(c.managed)
  }

  /** The recorded annotation, and the arguments of the kube-apiserver container if there is one. */
  datatype Flags = Flags(annotation: Option<string>, args: Option<seq<string>>)

  function Extras(c: Setup): seq<string> {
    if c.extraArgs.Some? then c.extraArgs.value else []
  }

  /** The bytes that are hashed: every argument is followed by a NUL.  The hash itself is injective. */
  function Digest(args: seq<string>): string {
    if args == [] then [] else args[0] + ['\0'] + Digest(args[1..])
  }

  predicate Egress(arg: string) { EGRESS <= arg }

  function Strip(args: seq<string>, strip: bool): seq<string> {
    if args == [] then []
    else (if strip && Egress(args[0]) then [] else [args[0]]) + Strip(args[1..], strip)
  }

  /** A leftover flag for the overrides of single resources goes when there are none. */
  ghost function MergeInto(current: seq<string>, c: Setup): seq<string> {
    Merge(if c.overrides then current else Drop(current, {OVERRIDES}), Extras(c), c.defaults, c.managed)
  }

  ghost function Render(current: seq<string>, c: Setup): seq<string> {
    Strip(MergeInto(current, c), c.strip)
  }

  function Reset(f: Flags, c: Setup): Flags {
    if (c.extraArgs.None? && f.annotation.None?) || f.args.None? then f
    else
      var digest := Digest(Extras(c));
      Flags(Some(digest), if f.annotation == Some(digest) then f.args else Some([]))
  }

  ghost function Build(f: Flags, c: Setup): Flags {
    var r := Reset(f, c);
    r.(args := Some(Render(if r.args.Some? then r.args.value else [], c)))
  }

  // ---------- rendering into one's own result ----------

  lemma {:induction false} StripCount(args: seq<string>, strip: bool, x: string)
    ensures multiset(Strip(args, strip))[x] == if strip && Egress(x) then 0 else multiset(args)[x]
  {
    if args != [] {
      StripCount(args[1..], strip, x);
      assert args == [args[0]] + args[1..];
    }
  }

  lemma {:induction false} StripAppend(a: seq<string>, b: seq<string>, strip: bool)
    ensures Strip(a + b, strip) == Strip(a, strip) + Strip(b, strip)
  {
    if a == [] {
      assert a + b == b;
    } else {
      assert (a + b)[1..] == a[1..] + b;
      StripAppend(a[1..], b, strip);
    }
  }

  /** Stripping removes exactly the arguments that begin with the egress flag, and keeps the others in order. */
  lemma StripLaws(a: seq<string>, b: seq<string>, strip: bool, x: string)
    ensures Strip(a + b, strip) == Strip(a, strip) + Strip(b, strip)
    ensures Strip([x], strip) == if strip && "--egress-selector-config-file" <= x then [] else [x]
  {
    StripAppend(a, b, strip);
    assert [x][1..] == [];
  }

  lemma {:induction false} StripSorted(args: seq<string>, strip: bool)
    requires Sorted(args)
    ensures Sorted(Strip(args, strip))
  {
    if args != [] {
      var rest := Strip(args[1..], strip);
      StripSorted(args[1..], strip);
      forall y | y in multiset(rest) ensures Le(args[0], y) { StripCount(args[1..], strip, y); }
      Cons(args[0], rest);
      assert [] + rest == rest;
    }
  }

  /** How often an argument that Kamaji does not contribute survives, taken before sorting. */
  function Survivors(current: seq<string>, c: Setup): seq<string> {
    Foreign(if c.overrides then current else Drop(current, {OVERRIDES}), Extras(c), c.defaults, c.managed)
  }

  lemma RenderParts(current: seq<string>, c: Setup)
    ensures
      var head := Strip(Listing(multiset(Survivors(current, c)) + Owned(Extras(c), c.defaults, c.managed)), c.strip);
      && Render(current, c) == head + Strip(Drop(Extras(c), c.managed.Keys), c.strip)
      && Sorted(head)
  {
    var all := Listing(multiset(Survivors(current, c)) + Owned(Extras(c), c.defaults, c.managed));
    StripAppend(all, Drop(Extras(c), c.managed.Keys), c.strip);
    StripSorted(all, c.strip);
  }

  lemma SurvivorCount(current: seq<string>, c: Setup, x: string)
    ensures multiset(Survivors(current, c))[x] ==
      if Flag(x) in c.managed.Keys + c.defaults.Keys + UserFlags(Extras(c), c.managed) || (!c.overrides && Flag(x) == OVERRIDES) then 0
      else multiset(current)[x]
  {
    var claimed := c.managed.Keys + c.defaults.Keys + UserFlags(Extras(c), c.managed);
    DropCount(current, {OVERRIDES}, x);
    DropCount(if c.overrides then current else Drop(current, {OVERRIDES}), claimed, x);
  }

  lemma RenderCount(current: seq<string>, c: Setup, x: string)
    ensures multiset(Render(current, c))[x] ==
      if c.strip && Egress(x) then 0
      else multiset(Survivors(current, c))[x] + Owned(Extras(c), c.defaults, c.managed)[x]
           + multiset(Drop(Extras(c), c.managed.Keys))[x]
  {
    var current' := if c.overrides then current else Drop(current, {OVERRIDES});
    StripCount(Merge(current', Extras(c), c.defaults, c.managed), c.strip, x);
    MergeCount(current', Extras(c), c.defaults, c.managed, x);
  }

  lemma SurvivorsAgain(current: seq<string>, c: Setup, x: string)
    requires Proper(c) && !(c.strip && Egress(x))
    ensures multiset(Survivors(Render(current, c), c))[x] == multiset(Survivors(current, c))[x]
  {
    SurvivorCount(Render(current, c), c, x);
    SurvivorCount(current, c, x);
    RenderCount(current, c, x);
    if x in Owned(Extras(c), c.defaults, c.managed) { OwnedIsClaimed(Extras(c), c.defaults, c.managed, x); }
    if x in multiset(Drop(Extras(c), c.managed.Keys)) { FlagInFlagsOf(Drop(Extras(c), c.managed.Keys), x); }
  }

  /** While Konnectivity is being removed no egress flag is left, whoever set it. */
  lemma EgressFlagGoes(current: seq<string>, c: Setup, x: string)
    requires c.strip && "--egress-selector-config-file" <= x
    ensures multiset(Render(current, c))[x] == 0
  {
    RenderCount(current, c, x);
  }

  /** Without overrides their flag is left only if the user set it. */
  lemma OverridesFlagGoes(current: seq<string>, c: Setup, x: string)
    requires Proper(c) && !c.overrides && Flag(x) == "--etcd-servers-overrides"
    requires Flag(x) !in c.managed.Keys + c.defaults.Keys + UserFlags(Extras(c), c.managed)
    ensures multiset(Render(current, c))[x] == 0
  {
    RenderCount(current, c, x);
    SurvivorCount(current, c, x);
    if Owned(Extras(c), c.defaults, c.managed)[x] > 0 { OwnedIsClaimed(Extras(c), c.defaults, c.managed, x); }
    if multiset(Drop(Extras(c), c.managed.Keys))[x] > 0 { FlagInFlagsOf(Drop(Extras(c), c.managed.Keys), x); }
  }

  /** Rendering into one's own result changes nothing, Konnectivity being removed or not. */
  lemma RenderIsIdempotent(current: seq<string>, c: Setup)
    requires Proper(c)
    ensures Render(Render(current, c), c) == Render(current, c)
  {
    var again := Render(current, c);
    var owned := Owned(Extras(c), c.defaults, c.managed);
    var one := Listing(multiset(Survivors(current, c)) + owned);
    var two := Listing(multiset(Survivors(again, c)) + owned);
    RenderParts(current, c);
    RenderParts(again, c);
    forall x ensures multiset(Strip(two, c.strip))[x] == multiset(Strip(one, c.strip))[x] {
      StripCount(one, c.strip, x);
      StripCount(two, c.strip, x);
      if !(c.strip && Egress(x)) { SurvivorsAgain(current, c, x); }
    }
    SortedUnique(Strip(two, c.strip), Strip(one, c.strip));
  }

  /** What a build renders into. */
  function Base(f: Flags, c: Setup): seq<string> {
    if Reset(f, c).args.Some? then Reset(f, c).args.value else []
  }

  /** A second build renders into the result of the first, or, as the first did, from scratch. */
  lemma BaseAgain(f: Flags, c: Setup, args: seq<string>)
    ensures
      var g := Flags(Reset(f, c).annotation, Some(args));
      && (Base(g, c) == args || (Base(g, c) == [] && Base(f, c) == []))
      && Reset(Flags(Reset(g, c).annotation, Some(args)), c) == Flags(Reset(g, c).annotation, Some(args))
  {}

  /** The arguments settle with the first build, the annotation with the second. */
  lemma FlagsSettle(f: Flags, c: Setup)
    requires Proper(c)
    ensures Build(Build(f, c), c).args == Build(f, c).args
    ensures Build(Build(Build(f, c), c), c) == Build(Build(f, c), c)
  {
    var args := Render(Base(f, c), c);
    var g := Flags(Reset(f, c).annotation, Some(args));
    BaseAgain(f, c, args);
    RenderIsIdempotent(Base(f, c), c);
    assert Build(f, c) == g;
    assert Build(g, c) == Flags(Reset(g, c).annotation, Some(args));
  }

  // ---------- no argument outlives its list ----------

  predicate NulFree(args: seq<string>) {
    forall i :: 0 <= i < |args| ==> '\0' !in args[i]
  }

  /** The digest tells the two lists apart, if they differ. */
  predicate Told(a: seq<string>, b: seq<string>) {
    a == b || Digest(a) != Digest(b)
  }

  /** Up to the first NUL. */
  lemma {:induction false} FirstArgument(a: string, b: string, rest: string, rest': string)
    requires '\0' !in a && '\0' !in b && a + ['\0'] + rest == b + ['\0'] + rest'
    ensures a == b && rest == rest'
  {
    var l, r := a + ['\0'] + rest, b + ['\0'] + rest';
    assert forall k :: 0 <= k < |a| ==> l[k] == a[k];
    assert forall k :: 0 <= k < |b| ==> r[k] == b[k];
    assert l[|a|] == '\0' && r[|b|] == '\0';
    assert |a| == |b|;
    assert a == l[..|a|] && b == r[..|b|];
    assert rest == l[|a| + 1..] && rest' == r[|b| + 1..];
  }

  /** The digest tells lists of arguments without NULs apart. */
  lemma {:induction false} DigestIsInjective(a: seq<string>, b: seq<string>)
    requires NulFree(a) && NulFree(b) && Digest(a) == Digest(b)
    ensures a == b
  {
    if a != [] && b != [] {
      FirstArgument(a[0], b[0], Digest(a[1..]), Digest(b[1..]));
      DigestIsInjective(a[1..], b[1..]);
      assert a == [a[0]] + a[1..] && b == [b[0]] + b[1..];
    }
  }

  /** With NULs it does not. */
  lemma DigestConfusesNuls()
    ensures Digest(["--a\0--b"]) == Digest(["--a", "--b"]) && ["--a\0--b"] != ["--a", "--b"]
  {
    assert Digest(["--b"]) == "--b\0";
    assert Digest(["--a", "--b"]) == "--a" + ['\0'] + Digest(["--a", "--b"][1..]);
    assert Digest(["--a\0--b"]) == "--a\0--b" + ['\0'] + Digest(["--a\0--b"][1..]);
  }

  predicate Contributes(c: Setup, x: string) {
    x in Owned(Extras(c), c.defaults, c.managed)
  }

  /** What a build may leave among the arguments. */
  lemma RenderOrigin(current: seq<string>, c: Setup, x: string)
    requires multiset(Render(current, c))[x] > 0
    ensures multiset(Extras(c))[x] > 0 || Owned(Extras(c), c.defaults, c.managed)[x] > 0 || multiset(current)[x] > 0
  {
    RenderCount(current, c, x);
    SurvivorCount(current, c, x);
    DropCount(Extras(c), c.managed.Keys, x);
  }

  /** What `NoStaleArguments` needs to know of a build. */
  predicate Accounted(f: Flags, c: Setup, g: Flags) {
    && g.args.Some? && g.annotation == Reset(f, c).annotation
    && forall x :: x in g.args.value ==> x in Extras(c) || Contributes(c, x) || x in Base(f, c)
  }

  lemma BuildIsAccounted(f: Flags, c: Setup)
    ensures Accounted(f, c, Build(f, c))
  {
    var args := Render(Base(f, c), c);
    assert Build(f, c) == Flags(Reset(f, c).annotation, Some(args));
    forall x | x in args ensures x in Extras(c) || Contributes(c, x) || x in Base(f, c) {
      assert x in multiset(args);
      RenderOrigin(Base(f, c), c, x);
    }
  }

  /** Some build of `from` to `to` rendered `x` on Kamaji's own account. */
  predicate RenderedBetween(setups: seq<Setup>, from: nat, to: nat, x: string)
    requires from <= to <= |setups|
  {
    exists i :: from <= i < to && Contributes(setups[i], x)
  }

  /** Every argument is one of the extras asked for last or was rendered by Kamaji, and the annotation stands for those extras. */
  predicate Traced(f: Flags, setups: seq<Setup>, from: nat, n: nat)
    requires from < n <= |setups|
  {
    && f.args.Some? && f.annotation == Some(Digest(Extras(setups[n - 1])))
    && forall x :: x in f.args.value ==> x in Extras(setups[n - 1]) || RenderedBetween(setups, from, n, x)
  }

  lemma FirstTraced(f: Flags, g: Flags, setups: seq<Setup>, n: nat)
    requires n < |setups| && Accounted(f, setups[n], g) && f.annotation.None? && g.annotation.Some?
    ensures Traced(g, setups, n, n + 1)
  {
    assert Base(f, setups[n]) == [];
  }

  lemma TracedAgain(f: Flags, g: Flags, setups: seq<Setup>, from: nat, n: nat)
    requires from < n < |setups| && Traced(f, setups, from, n) && Accounted(f, setups[n], g)
    requires Told(Extras(setups[n - 1]), Extras(setups[n]))
    ensures Traced(g, setups, from, n + 1)
  {
    forall x | x in g.args.value ensures x in Extras(setups[n]) || RenderedBetween(setups, from, n + 1, x) {
      if x in Base(f, setups[n]) && x !in Extras(setups[n]) {
        var i :| from <= i < n && Contributes(setups[i], x);
        assert Contributes(setups[i], x);
      }
    }
  }

  ghost predicate Run(trace: seq<Flags>, setups: seq<Setup>) {
    && |trace| == |setups| + 1
    && forall i {:trigger setups[i]} :: 0 <= i < |setups| ==> trace[i + 1] == Build(trace[i], setups[i])
  }

  lemma {:induction false} TracedAlong(trace: seq<Flags>, setups: seq<Setup>, from: nat, n: nat)
    requires |trace| == |setups| + 1 && from < n <= |setups|
    requires forall i {:trigger setups[i]} :: 0 <= i < |setups| ==> Accounted(trace[i], setups[i], trace[i + 1])
    requires trace[from].annotation.None? && trace[from + 1].annotation.Some?
    requires forall i :: from < i < n ==> Told(Extras(setups[i - 1]), Extras(setups[i]))
    ensures Traced(trace[n], setups, from, n)
  {
    if n == from + 1 {
      FirstTraced(trace[from], trace[n], setups, from);
    } else {
      TracedAlong(trace, setups, from, n - 1);
      TracedAgain(trace[n - 1], trace[n], setups, from, n - 1);
    }
  }

  /**
   * Once a build has stored the annotation, over any sequence of changes that the digest tells apart,
   * every argument is one of the extra arguments now asked for or was rendered by Kamaji itself: none
   * is left over from an earlier list.
   */
  lemma NoStaleArguments(trace: seq<Flags>, setups: seq<Setup>, from: nat, n: nat)
    requires Run(trace, setups) && from < n <= |setups|
    requires trace[from].annotation.None? && trace[from + 1].annotation.Some?
    requires forall i :: from < i < n ==> Told(Extras(setups[i - 1]), Extras(setups[i]))
    ensures Traced(trace[n], setups, from, n)
  {
    forall i | 0 <= i < |setups| ensures Accounted(trace[i], setups[i], trace[i + 1]) {
      BuildIsAccounted(trace[i], setups[i]);
    }
    TracedAlong(trace, setups, from, n);
  }

  /** Arguments without NULs are always told apart. */
  lemma NulFreeIsTold(a: seq<string>, b: seq<string>)
    requires NulFree(a) && NulFree(b)
    ensures Told(a, b)
  {
    if Digest(a) == Digest(b) { DigestIsInjective(a, b); }
  }

  // ---------- exactly when an argument outlives its list ----------

  /** Somebody decides about the argument's flag: a table, the user, or one of the two removals. */
  predicate Claimed(c: Setup, x: string) {
    || Flag(x) in c.managed.Keys + c.defaults.Keys + UserFlags(Extras(c), c.managed)
    || (!c.overrides && Flag(x) == OVERRIDES)
    || (c.strip && Egress(x))
  }

  lemma UnclaimedCount(current: seq<string>, c: Setup, x: string)
    requires Proper(c) && !Claimed(c, x)
    ensures multiset(Render(current, c))[x] == multiset(current)[x]
    ensures multiset(Drop(Extras(c), c.managed.Keys))[x] == 0 && multiset(Extras(c))[x] == 0
    ensures Owned(Extras(c), c.defaults, c.managed)[x] == 0
  {
    RenderCount(current, c, x);
    SurvivorCount(current, c, x);
    DropCount(Extras(c), c.managed.Keys, x);
    if Owned(Extras(c), c.defaults, c.managed)[x] > 0 { OwnedIsClaimed(Extras(c), c.defaults, c.managed, x); }
    if multiset(Drop(Extras(c), c.managed.Keys))[x] > 0 { FlagInFlagsOf(Drop(Extras(c), c.managed.Keys), x); }
  }

  /** How often a built Deployment carries an argument. */
  ghost function CountIn(f: Flags, x: string): nat {
    if f.args.Some? then multiset(f.args.value)[x] else 0
  }

  lemma BuildCount(f: Flags, c: Setup, x: string)
    ensures CountIn(Build(f, c), x) == multiset(Render(Base(f, c), c))[x]
  {}

  /** A build with extra arguments into an existing container carries them and stores their digest. */
  lemma BuildStores(f: Flags, c: Setup, x: string)
    requires c.extraArgs.Some? && f.args.Some? && multiset(Drop(Extras(c), c.managed.Keys))[x] > 0 && !(c.strip && Egress(x))
    ensures Build(f, c).annotation == Some(Digest(Extras(c))) && Build(f, c).args.Some? && CountIn(Build(f, c), x) > 0
  {
    BuildCount(f, c, x);
    RenderCount(Base(f, c), c, x);
  }

  /**
   * An extra argument that the next setup neither asks for nor claims survives it if and only if the
   * two lists have the same digest; then nobody accounts for it any more.
   */
  lemma StaleExactlyOnEqualDigests(f: Flags, c: Setup, c': Setup, x: string)
    requires Proper(c') && c.extraArgs.Some? && f.args.Some?
    requires multiset(Drop(Extras(c), c.managed.Keys))[x] > 0 && !(c.strip && Egress(x)) && !Claimed(c', x)
    ensures CountIn(Build(Build(f, c), c'), x) > 0 <==> Digest(Extras(c')) == Digest(Extras(c))
    ensures multiset(Extras(c'))[x] == 0 && Owned(Extras(c'), c'.defaults, c'.managed)[x] == 0
  {
    var g := Build(f, c);
    BuildStores(f, c, x);
    BuildCount(g, c', x);
    UnclaimedCount(Base(g, c'), c', x);
    NextBase(g, c', Digest(Extras(c)));
  }

  lemma NextBase(g: Flags, c: Setup, digest: string)
    requires g.annotation == Some(digest) && g.args.Some?
    ensures Base(g, c) == if Digest(Extras(c)) == digest then g.args.value else []
  {}

  lemma NulFlags()
    ensures Flag("--a") == "--a" && Flag("--b") == "--b" && Flag("--a\0--b") == "--a\0--b"
    ensures !Egress("--a") && "--a" != OVERRIDES && "--a" != "--a\0--b"
  {
    FlagOfFormat("--a", "");
    FlagOfFormat("--b", "");
    FlagOfFormat("--a\0--b", "");
    assert |"--a"| == 3 && |"--a\0--b"| == 7;
  }

  /** With a NUL the digests of different lists may agree: whatever the tables, `--a` outlives its list. */
  lemma NulKeepsStaleArgument(f: Flags, c: Setup, c': Setup)
    requires Proper(c') && f.args.Some? && c.extraArgs == Some(["--a", "--b"]) && c'.extraArgs == Some(["--a\0--b"])
    requires "--a" !in c.managed.Keys && "--a" !in c'.managed.Keys + c'.defaults.Keys
    ensures CountIn(Build(Build(f, c), c'), "--a") > 0
    ensures multiset(Extras(c'))["--a"] == 0 && Owned(Extras(c'), c'.defaults, c'.managed)["--a"] == 0
  {
    NulFlags();
    DigestConfusesNuls();
    DropCount(Extras(c), c.managed.Keys, "--a");
    NulUserFlags(c');
    StaleExactlyOnEqualDigests(f, c, c', "--a");
  }

  lemma NulUserFlags(c: Setup)
    requires c.extraArgs == Some(["--a\0--b"])
    ensures "--a" !in UserFlags(Extras(c), c.managed)
  {
    NulFlags();
    var kept := Drop(Extras(c), c.managed.Keys);
    forall i | 0 <= i < |kept| ensures Flag(kept[i]) != "--a" {
      assert kept[i] in multiset(kept);
      DropCount(Extras(c), c.managed.Keys, kept[i]);
    }
  }
}
