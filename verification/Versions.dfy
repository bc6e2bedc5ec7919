/**
 * Versions and their admission.  A version that does not parse is `None` where text is read.
 */
module Versions {
  import opened Common
  import Lex = Ordering

  const LIMIT: nat := 0x1_0000_0000_0000_0000

  /** Numeric identifiers are below alphanumeric ones; the latter compare as text. */
  datatype Ident = Num(n: nat) | Text(s: string)

  /** Build metadata does not take part in precedence and is left out. */
  datatype Version = Version(major: nat, minor: nat, patch: nat, pre: seq<Ident>)

  /** The fields are unsigned 64-bit numbers. */
  predicate Fits(v: Version) {
    v.major < LIMIT && v.minor < LIMIT && v.patch < LIMIT
  }

  datatype Ordering = Less | Equal | Greater

  function Flip(o: Ordering): Ordering {
    match o case Less => Greater case Equal => Equal case Greater => Less
  }

  function CompareNat(a: nat, b: nat): Ordering {
    if a < b then Less else if a > b then Greater else Equal
  }

  function CompareText(a: string, b: string): Ordering {
    if a == [] then (if b == [] then Equal else Less)
    else if b == [] then Greater
    else if a[0] < b[0] then Less
    else if a[0] > b[0] then Greater
    else CompareText(a[1..], b[1..])
  }

  function CompareIdent(a: Ident, b: Ident): Ordering {
    match (a, b)
    case (Num(m), Num(n)) => CompareNat(m, n)
    case (Num(_), Text(_)) => Less
    case (Text(_), Num(_)) => Greater
    case (Text(s), Text(t)) => CompareText(s, t)
  }

  /** Identifier by identifier; of two lists that agree, the longer one is the greater. */
  function CompareList(a: seq<Ident>, b: seq<Ident>): Ordering {
    if a == [] then (if b == [] then Equal else Less)
    else if b == [] then Greater
    else
      var c := CompareIdent(a[0], b[0]);
      if c.Equal? then CompareList(a[1..], b[1..]) else c
  }

  /** A pre-release precedes its release. */
  function ComparePre(a: seq<Ident>, b: seq<Ident>): Ordering {
    if a == [] || b == [] then (if a == b then Equal else if a == [] then Greater else Less)
    else CompareList(a, b)
  }

  function Compare(v: Version, w: Version): Ordering {
    if v.major != w.major then CompareNat(v.major, w.major)
    else if v.minor != w.minor then CompareNat(v.minor, w.minor)
    else if v.patch != w.patch then CompareNat(v.patch, w.patch)
    else ComparePre(v.pre, w.pre)
  }

  // ---------- precedence is a total order ----------

  lemma {:induction false} TextOrder(a: string, b: string, c: string)
    ensures CompareText(b, a) == Flip(CompareText(a, b))
    ensures CompareText(a, b).Equal? <==> a == b
    ensures !CompareText(a, b).Greater? && !CompareText(b, c).Greater? ==> !CompareText(a, c).Greater?
    decreases |a| + |b| + |c|
  {
    if a != [] && b != [] {
      assert a == [a[0]] + a[1..] && b == [b[0]] + b[1..];
      TextOrder(a[1..], b[1..], if c == [] then c else c[1..]);
    }
  }

  lemma IdentOrder(a: Ident, b: Ident, c: Ident)
    ensures CompareIdent(b, a) == Flip(CompareIdent(a, b))
    ensures CompareIdent(a, b).Equal? <==> a == b
    ensures !CompareIdent(a, b).Greater? && !CompareIdent(b, c).Greater? ==> !CompareIdent(a, c).Greater?
  {
    var x, y, z := if a.Text? then a.s else "", if b.Text? then b.s else "", if c.Text? then c.s else "";
    TextOrder(x, y, z);
  }

  lemma {:induction false} ListOrder(a: seq<Ident>, b: seq<Ident>, c: seq<Ident>)
    ensures CompareList(b, a) == Flip(CompareList(a, b))
    ensures CompareList(a, b).Equal? <==> a == b
    ensures !CompareList(a, b).Greater? && !CompareList(b, c).Greater? ==> !CompareList(a, c).Greater?
    decreases |a| + |b| + |c|
  {
    if a != [] && b != [] {
      assert a == [a[0]] + a[1..] && b == [b[0]] + b[1..];
      ListOrder(a[1..], b[1..], if c == [] then c else c[1..]);
      IdentOrder(a[0], b[0], if c == [] then a[0] else c[0]);
      if c != [] { IdentOrder(b[0], c[0], a[0]); IdentOrder(a[0], c[0], b[0]); }
    }
  }

  /** Precedence is total, antisymmetric and transitive. */
  lemma PrecedenceOrder(u: Version, v: Version, w: Version)
    ensures Compare(v, u) == Flip(Compare(u, v))
    ensures Compare(u, v).Equal? <==> u == v
    ensures !Compare(u, v).Greater? && !Compare(v, w).Greater? ==> !Compare(u, w).Greater?
  {
    ListOrder(u.pre, v.pre, w.pre);
  }

  // ---------- the rules of section 11 ----------

  /** Text compares by the first difference, a prefix being the smaller. */
  lemma {:induction false} TextIsLexicographic(a: string, b: string)
    ensures !CompareText(a, b).Greater? <==> Lex.Le(a, b)
  {
    if a != [] && b != [] && a[0] == b[0] { TextIsLexicographic(a[1..], b[1..]); }
  }

  /** The first identifiers that differ decide. */
  lemma {:induction false} FirstDifferenceDecides(p: seq<Ident>, x: Ident, a: seq<Ident>, y: Ident, b: seq<Ident>)
    requires x != y
    ensures CompareList(p + [x] + a, p + [y] + b) == CompareIdent(x, y)
  {
    var l, r := p + [x] + a, p + [y] + b;
    if p == [] {
      assert l[0] == x && r[0] == y;
      IdentOrder(x, y, x);
    } else {
      assert l[1..] == p[1..] + [x] + a && r[1..] == p[1..] + [y] + b;
      IdentOrder(p[0], p[0], p[0]);
      FirstDifferenceDecides(p[1..], x, a, y, b);
    }
  }

  /** Of two lists that agree the longer one is the greater. */
  lemma {:induction false} LongerIsGreater(p: seq<Ident>, x: Ident, a: seq<Ident>)
    ensures CompareList(p, p + [x] + a).Less?
  {
    if p != [] {
      assert (p + [x] + a)[1..] == p[1..] + [x] + a;
      IdentOrder(p[0], p[0], p[0]);
      LongerIsGreater(p[1..], x, a);
    }
  }

  /** Numbers compare as numbers and stand below text; a release is above its pre-releases; major, minor and patch come first. */
  lemma PrecedenceRules(v: Version, w: Version, m: nat, n: nat, s: string)
    ensures CompareIdent(Num(m), Num(n)).Less? <==> m < n
    ensures CompareIdent(Num(m), Text(s)).Less?
    ensures v.pre != [] ==> Compare(v, v.(pre := [])).Less?
    ensures v.major < w.major ==> Compare(v, w).Less?
    ensures v.major == w.major && v.minor < w.minor ==> Compare(v, w).Less?
    ensures v.major == w.major && v.minor == w.minor && v.patch < w.patch ==> Compare(v, w).Less?
    ensures v.major == w.major && v.minor == w.minor && v.patch == w.patch && v.pre != [] && w.pre != [] ==>
      Compare(v, w) == CompareList(v.pre, w.pre)
  {}

  /** The example of section 11.4: alpha, alpha.1, alpha.beta, beta, beta.2, beta.11, rc.1, the release. */
  lemma SpecificationExample()
    ensures
      var chain := [[Text("alpha")], [Text("alpha"), Num(1)], [Text("alpha"), Text("beta")], [Text("beta")],
                    [Text("beta"), Num(2)], [Text("beta"), Num(11)], [Text("rc"), Num(1)], []];
      forall i :: 0 <= i < 7 ==> Compare(Version(1, 0, 0, chain[i]), Version(1, 0, 0, chain[i + 1])).Less?
  {
    var a, b, r := Text("alpha"), Text("beta"), Text("rc");
    assert CompareText("alpha", "beta").Less? && CompareText("beta", "rc").Less? by {
      assert "alpha"[0] == 'a' && "beta"[0] == 'b' && "rc"[0] == 'r';
    }
    assert a != b && b != r;
    LongerIsGreater([a], Num(1), []);
    FirstDifferenceDecides([a], Num(1), [], b, []);
    FirstDifferenceDecides([], a, [b], b, []);
    LongerIsGreater([b], Num(2), []);
    FirstDifferenceDecides([b], Num(2), [], Num(11), []);
    FirstDifferenceDecides([], b, [Num(11)], r, [Num(1)]);
    assert [a] + [Num(1)] + [] == [a, Num(1)] && [a] + [b] + [] == [a, b] && [] + [a] + [b] == [a, b] && [] + [b] + [] == [b];
    assert [b] + [Num(2)] + [] == [b, Num(2)] && [b] + [Num(11)] + [] == [b, Num(11)];
    assert [] + [b] + [Num(11)] == [b, Num(11)] && [] + [r] + [Num(1)] == [r, Num(1)];
  }

  // ---------- admission ----------

  const SUPPORTED := Version(1, 37, 0, [])

  /** The patch release does not count. */
  function Zeroed(v: Version): Version { v.(patch := 0) }

  /** Unsigned subtraction wraps around. */
  function MinorStep(from: nat, to: nat): nat
    requires from < LIMIT && to < LIMIT
  {
    (to - from + LIMIT) % LIMIT
  }

  predicate AdmitsCreate(v: Option<Version>) {
    v.Some? && !Compare(Zeroed(v.value), SUPPORTED).Greater?
  }

  predicate AdmitsUpdate(v: Option<Version>, v': Option<Version>, deleting: bool)
    requires (v.Some? ==> Fits(v.value)) && (v'.Some? ==> Fits(v'.value))
  {
    || deleting
    || (&& v.Some? && v'.Some?
        && !Compare(Zeroed(v'.value), SUPPORTED).Greater?
        && !Compare(Zeroed(v'.value), Zeroed(v.value)).Less?
        && MinorStep(v.value.minor, v'.value.minor) <= 1)
  }

  /** The release line of a version: major and minor. */
  predicate NotBehind(v: Version, w: Version) {
    v.major < w.major || (v.major == w.major && v.minor <= w.minor)
  }

  lemma ZeroedNotBehind(v: Version, w: Version)
    requires !Compare(Zeroed(w), Zeroed(v)).Less?
    ensures NotBehind(v, w)
  {}

  /**
   * On a live tenant an admitted edit never moves to an earlier release line and moves the minor by
   * zero or one, exactly unless the minor wraps around from its greatest value to zero.
   */
  lemma AdmittedEditMovesOneMinor(v: Version, v': Version)
    requires Fits(v) && Fits(v') && AdmitsUpdate(Some(v), Some(v'), false)
    ensures NotBehind(v, v') && NotBehind(v', SUPPORTED)
    ensures v'.minor == v.minor || v'.minor == v.minor + 1 <==> !(v.minor == LIMIT - 1 && v'.minor == 0)
  {
    ZeroedNotBehind(v, v');
  }

  /** The wrap-around is reachable, on a change of the major version only. */
  lemma MinorWrapsAround()
    ensures
      var v, v' := Version(0, LIMIT - 1, 0, []), Version(1, 0, 0, []);
      Fits(v) && AdmitsCreate(Some(v)) && AdmitsUpdate(Some(v), Some(v'), false)
  {}

  predicate SameLine(v: Version, w: Version) {
    v.major == w.major && v.minor == w.minor
  }

  /**
   * Exactly the edits admitted on a live tenant, in terms of release lines: the new line is neither
   * behind the old one nor past the supported one, the minor moves by zero or one or wraps around, and
   * within a line a release is not exchanged for a pre-release, nor a pre-release for an earlier one.
   */
  lemma AdmittedEditsExactly(v: Version, v': Version)
    requires Fits(v) && Fits(v')
    ensures AdmitsUpdate(Some(v), Some(v'), false) <==>
      && NotBehind(v, v') && (v'.major < 1 || (v'.major == 1 && v'.minor <= 37))
      && (SameLine(v, v') ==> !ComparePre(v'.pre, v.pre).Less?)
      && (v'.minor == v.minor || v'.minor == v.minor + 1 || (v.minor == LIMIT - 1 && v'.minor == 0))
  {
    ReleaseIsGreatest(v'.pre);
  }

  /** A new tenant needs a readable version on a supported release line; a tenant being deleted may be edited at will, any other needs both versions readable. */
  lemma AdmissionExactly(v: Option<Version>, v': Option<Version>, deleting: bool)
    requires (v.Some? ==> Fits(v.value)) && (v'.Some? ==> Fits(v'.value))
    ensures AdmitsCreate(v) <==> v.Some? && (v.value.major < 1 || (v.value.major == 1 && v.value.minor <= 37))
    ensures AdmitsUpdate(v, v', deleting) <==> deleting || (v.Some? && v'.Some? && AdmitsUpdate(v, v', false))
  {
    if v.Some? { ReleaseIsGreatest(v.value.pre); }
  }

  lemma ReleaseIsGreatest(pre: seq<Ident>)
    ensures !ComparePre(pre, []).Greater?
  {}
}
