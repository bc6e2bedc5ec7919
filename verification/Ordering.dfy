/**
 * The order of strings, and sorted lists of strings.  Code points compare as their UTF-8 bytes do.
 */
module Ordering {
  /** Lexicographic order. */
  predicate Le(a: string, b: string) {
    a == [] || (b != [] && (a[0] < b[0] || (a[0] == b[0] && Le(a[1..], b[1..]))))
  }

  /** Two strings agree up to `i`, where the first ends or has the smaller character. */
  predicate Precedes(a: string, b: string, i: nat) {
    i <= |a| && i <= |b| && a[..i] == b[..i] && (i == |a| || (i < |b| && a[i] < b[i]))
  }

  /** The order is that of the first difference, a prefix being the smaller. */
  lemma {:induction false} LeIsLexicographic(a: string, b: string)
    ensures Le(a, b) <==> exists i: nat :: Precedes(a, b, i)
  {
    if a == [] {
      assert Precedes(a, b, 0);
    } else if b == [] {
    } else if a[0] != b[0] {
      assert a[0] < b[0] ==> Precedes(a, b, 0);
      assert forall i :: 1 <= i && i <= |a| && i <= |b| ==> a[..i][0] == a[0] && b[..i][0] == b[0];
    } else {
      var a', b' := a[1..], b[1..];
      LeIsLexicographic(a', b');
      if i: nat :| Precedes(a', b', i) {
        assert a[..i + 1] == [a[0]] + a'[..i] && b[..i + 1] == [b[0]] + b'[..i];
        assert Precedes(a, b, i + 1);
      }
      if i: nat :| Precedes(a, b, i) {
        assert i > 0;
        assert a'[..i - 1] == a[..i][1..] && b'[..i - 1] == b[..i][1..];
        assert Precedes(a', b', i - 1);
      }
    }
  }

  lemma Reflexive(a: string)
    ensures Le(a, a)
  {}

  lemma Total(a: string, b: string)
    ensures Le(a, b) || Le(b, a)
  {}

  lemma {:induction false} Antisymmetric(a: string, b: string)
    requires Le(a, b) && Le(b, a)
    ensures a == b
  {
    if a != [] {
      Antisymmetric(a[1..], b[1..]);
      assert a == [a[0]] + a[1..] && b == [b[0]] + b[1..];
    }
  }

  lemma Transitive(a: string, b: string, c: string)
    requires Le(a, b) && Le(b, c)
    ensures Le(a, c)
  {}

  /** `x` is at most every element of `s`. */
  predicate Below(x: string, s: multiset<string>) {
    forall y :: y in s ==> Le(x, y)
  }

  predicate Sorted(s: seq<string>) {
    s == [] || (Below(s[0], multiset(s[1..])) && Sorted(s[1..]))
  }

  lemma Cons(x: string, s: seq<string>)
    ensures multiset([x] + s) == multiset(s) + multiset{x}
    ensures ([x] + s)[1..] == s
    ensures Below(x, multiset(s)) && Sorted(s) ==> Sorted([x] + s)
  {}

  lemma Uncons(s: seq<string>)
    requires s != []
    ensures multiset(s) == multiset(s[1..]) + multiset{s[0]}
  {
    assert s == [s[0]] + s[1..];
  }

  lemma BelowAll(x: string, s: seq<string>)
    requires Sorted(s) && s != [] && Le(x, s[0])
    ensures Below(x, multiset(s))
  {
    Uncons(s);
    forall y | y in multiset(s) ensures Le(x, y) {
      if y in multiset(s[1..]) { Transitive(x, s[0], y); }
    }
  }

  function Insert(x: string, s: seq<string>): (r: seq<string>)
    requires Sorted(s)
    ensures Sorted(r) && multiset(r) == multiset(s) + multiset{x}
  {
    if s == [] then [x]
    else if Le(x, s[0]) then
      BelowAll(x, s);
      Cons(x, s);
      [x] + s
    else
      var r := Insert(x, s[1..]);
      Total(x, s[0]);
      Uncons(s);
      Cons(s[0], r);
      [s[0]] + r
  }

  /** Sorting as the library does it, up to the order of equal strings, which cannot be told apart. */
  function Sort(s: seq<string>): (r: seq<string>)
    ensures Sorted(r) && multiset(r) == multiset(s)
  {
    if s == [] then [] else
      Uncons(s);
      Insert(s[0], Sort(s[1..]))
  }

  lemma SameHead(a: seq<string>, b: seq<string>)
    requires Sorted(a) && Sorted(b) && multiset(a) == multiset(b) && a != [] && b != []
    ensures a[0] == b[0] && multiset(a[1..]) == multiset(b[1..])
  {
    Reflexive(a[0]);
    BelowAll(a[0], a);
    Reflexive(b[0]);
    BelowAll(b[0], b);
    assert a[0] in multiset(a) && b[0] in multiset(b);
    Antisymmetric(a[0], b[0]);
    Uncons(a);
    Uncons(b);
    assert multiset(a[1..]) == multiset(a) - multiset{a[0]};
    assert multiset(b[1..]) == multiset(b) - multiset{b[0]};
  }

  /** A multiset of strings has one sorted listing. */
  lemma {:induction false} SortedUnique(a: seq<string>, b: seq<string>)
    requires Sorted(a) && Sorted(b) && multiset(a) == multiset(b)
    ensures a == b
  {
    assert |a| == |multiset(a)| == |multiset(b)| == |b|;
    if a != [] {
      SameHead(a, b);
      SortedUnique(a[1..], b[1..]);
      calc { a; [a[0]] + a[1..]; [b[0]] + b[1..]; b; }
    }
  }

  /** The sorted listing of a multiset. */
  ghost function Listing(m: multiset<string>): (r: seq<string>)
    ensures Sorted(r) && multiset(r) == m
  {
    if m == multiset{} then [] else
      var x :| x in m;
      Insert(x, Listing(m - multiset{x}))
  }

  lemma ListingOf(s: seq<string>)
    ensures Sort(s) == Listing(multiset(s))
  {
    SortedUnique(Sort(s), Listing(multiset(s)));
  }
}
