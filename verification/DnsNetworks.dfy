/** A network as a range of numbers: the reference for the byte-wise comparison of addresses. */
module DnsNetworks {
  import opened DnsDefaults

  function Pow(n: nat): (p: int)
    ensures p > 0
  {
    if n == 0 then 1 else 2 * Pow(n - 1)
  }

  /** The number that an address stands for, most significant byte first. */
  function Value(b: seq<Byte>): int {
    if b == [] then 0 else b[0] * Pow(8 * (|b| - 1)) + Value(b[1..])
  }

  // ---------- arithmetic ----------

  lemma {:induction false} PowAdd(m: nat, n: nat)
    ensures Pow(m + n) == Pow(m) * Pow(n)
  {
    if m > 0 {
      PowAdd(m - 1, n);
      assert Pow(m) * Pow(n) == 2 * (Pow(m - 1) * Pow(n));
    }
  }

  lemma BlockIsPow(n: nat)
    requires n <= 8
    ensures Block(n) == Pow(8 - n)
  {
    assert Pow(1) == 2 && Pow(2) == 4 && Pow(3) == 8 && Pow(4) == 16;
    assert Pow(5) == 32 && Pow(6) == 64 && Pow(7) == 128 && Pow(8) == 256;
  }

  lemma DivUnique(x: int, h: int, q: int, r: int)
    requires h > 0 && x == q * h + r && 0 <= r < h
    ensures x / h == q
  {
    assert h * q == q * h;
    BlockIsUnique(h, q, x / h, x % h);
  }

  lemma DivSum(q: int, h: int, r: int)
    requires h > 0
    ensures (q * h + r) / h == q + r / h
  {
    var t := r / h;
    assert (q + t) * h == q * h + t * h;
    DivUnique(q * h + r, h, q + t, r % h);
  }

  lemma DivNested(x: int, p: int, m: int, r: int)
    requires p > 0 && m > 0 && 0 <= r < p
    ensures p * m > 0 && (x * p + r) / (p * m) == x / m
  {
    var q, s := x / m, x % m;
    assert x == q * m + s;
    assert x * p == q * (p * m) + s * p by {
      assert (q * m + s) * p == (q * m) * p + s * p;
      assert (q * m) * p == q * (p * m);
    }
    assert s * p + r < p * m by {
      Monotone(p, s + 1, m);
      assert p * (s + 1) == s * p + p;
    }
    assert 0 <= s * p by { Monotone(p, 0, s); }
    DivUnique(x * p + r, p * m, q, s * p + r);
  }

  lemma {:induction false} ValueBound(b: seq<Byte>)
    ensures 0 <= Value(b) < Pow(8 * |b|)
  {
    if b != [] {
      ValueBound(b[1..]);
      var p, x := Pow(8 * (|b| - 1)), b[0] as int;
      PowAdd(8, 8 * (|b| - 1));
      BlockIsPow(0);
      Monotone(p, x + 1, 256);
      Monotone(p, 0, x);
      assert p * (x + 1) == x * p + p;
    }
  }

  // ---------- bytes and numbers ----------

  /** The byte-wise comparison of two networks is that of the quotients. */
  lemma {:induction false} SameNetworkIsQuotient(a: seq<Byte>, b: seq<Byte>, p: nat)
    requires |a| == |b| && p <= 8 * |a|
    ensures var h := Pow(8 * |a| - p); SameNetwork(a, b, p) <==> Value(a) / h == Value(b) / h
    decreases |a|, 1
  {
    if a == [] {
    } else if p < 8 {
      ShortPrefix(a, b, p);
    } else {
      LongPrefix(a, b, p);
    }
  }

  lemma MaskedIsQuotient(x: Byte, y: Byte, n: nat)
    requires n <= 8
    ensures Masked(x, n) == Masked(y, n) <==> x / Block(n) == y / Block(n)
  {
    var m := Block(n);
    assert x == m * (x / m) + x % m && y == m * (y / m) + y % m;
    if m * (x / m) == m * (y / m) { BlockIsUnique(m, x / m, y / m, 0); }
  }

  lemma ShortPrefix(a: seq<Byte>, b: seq<Byte>, p: nat)
    requires |a| == |b| && a != [] && p < 8
    ensures var h := Pow(8 * |a| - p); SameNetwork(a, b, p) <==> Value(a) / h == Value(b) / h
  {
    var rest := 8 * (|a| - 1);
    PowAdd(rest, 8 - p);
    BlockIsPow(p);
    ValueBound(a[1..]);
    ValueBound(b[1..]);
    DivNested(a[0], Pow(rest), Block(p), Value(a[1..]));
    DivNested(b[0], Pow(rest), Block(p), Value(b[1..]));
    MaskedIsQuotient(a[0], b[0], p);
    assert forall i :: 1 <= i < |a| ==> Fixed(p, i) == 0;
    assert SameNetwork(a, b, p) <==> Masked(a[0], Fixed(p, 0)) == Masked(b[0], Fixed(p, 0));
  }

  lemma {:induction false} LongPrefix(a: seq<Byte>, b: seq<Byte>, p: nat)
    requires |a| == |b| && a != [] && 8 <= p <= 8 * |a|
    ensures var h := Pow(8 * |a| - p); SameNetwork(a, b, p) <==> Value(a) / h == Value(b) / h
    decreases |a|, 0
  {
    var h, k := Pow(8 * |a| - p), Pow(p - 8);
    var a', b' := a[1..], b[1..];
    PowAdd(8 * |a| - p, p - 8);
    ValueBound(a');
    ValueBound(b');
    SplitNetwork(a, b, p);
    SameNetworkIsQuotient(a', b', p - 8);
    QuotientSplits(a[0], Value(a'), b[0], Value(b'), h, k);
    assert Pow(8 * (|a| - 1)) == h * k;
  }

  /** With the first byte fixed the rest decides. */
  lemma SplitNetwork(a: seq<Byte>, b: seq<Byte>, p: nat)
    requires |a| == |b| && a != [] && 8 <= p
    ensures SameNetwork(a, b, p) <==> a[0] == b[0] && SameNetwork(a[1..], b[1..], p - 8)
  {
    var a', b' := a[1..], b[1..];
    assert Fixed(p, 0) == 8;
    assert forall i :: 1 <= i < |a| ==> Fixed(p, i) == Fixed(p - 8, i - 1);
    if SameNetwork(a, b, p) {
      assert Masked(a[0], Fixed(p, 0)) == Masked(b[0], Fixed(p, 0));
      forall i | 0 <= i < |a'| ensures Masked(a'[i], Fixed(p - 8, i)) == Masked(b'[i], Fixed(p - 8, i)) {
        assert Masked(a[i + 1], Fixed(p, i + 1)) == Masked(b[i + 1], Fixed(p, i + 1));
      }
    }
    if a[0] == b[0] && SameNetwork(a', b', p - 8) {
      forall i | 0 <= i < |a| ensures Masked(a[i], Fixed(p, i)) == Masked(b[i], Fixed(p, i)) {
        if i > 0 { assert Masked(a'[i - 1], Fixed(p - 8, i - 1)) == Masked(b'[i - 1], Fixed(p - 8, i - 1)); }
      }
    }
  }

  lemma QuotientSplits(x: int, v: int, y: int, w: int, h: int, k: int)
    requires h > 0 && k > 0 && 0 <= v < h * k && 0 <= w < h * k
    ensures (x * (h * k) + v) / h == (y * (h * k) + w) / h <==> x == y && v / h == w / h
  {
    assert x * (h * k) == (x * k) * h && y * (h * k) == (y * k) * h;
    DivSum(x * k, h, v);
    DivSum(y * k, h, w);
    QuotientBound(v, h, k);
    QuotientBound(w, h, k);
    if x * k + v / h == y * k + w / h {
      DivUnique(x * k + v / h, k, x, v / h);
      DivUnique(y * k + w / h, k, y, w / h);
    }
  }

  lemma QuotientBound(v: int, h: int, k: int)
    requires h > 0 && k > 0 && 0 <= v < h * k
    ensures 0 <= v / h < k
  {
    if v / h >= k { Monotone(h, k, v / h); }
  }

  // ---------- main result ----------

  /** How many addresses the network has, and its first one. */
  function Addresses(c: Cidr): int
    requires ValidCidr(c)
  {
    Pow(8 * Size(c.address.family) - c.prefix)
  }

  function FirstAddress(c: Cidr): int
    requires ValidCidr(c)
  {
    Value(c.address.bytes) - Value(c.address.bytes) % Addresses(c)
  }

  lemma QuotientIsRange(v: int, w: int, h: int)
    requires h > 0
    ensures v / h == w / h <==> v - v % h <= w < v - v % h + h
  {
    assert v == h * (v / h) + v % h && w == h * (w / h) + w % h;
    if h * (v / h) <= w < h * (v / h) + h { BlockIsUnique(h, v / h, w / h, w % h); }
  }

  /** A network contains exactly the addresses of its family from its first one on, as many as the prefix leaves. */
  lemma ContainsExactly(c: Cidr, a: Address)
    requires ValidCidr(c) && ValidAddress(a)
    ensures Contains(c, a) <==>
      c.address.family == a.family && FirstAddress(c) <= Value(a.bytes) < FirstAddress(c) + Addresses(c)
  {
    if c.address.family == a.family {
      SameNetworkIsQuotient(c.address.bytes, a.bytes, c.prefix);
      QuotientIsRange(Value(c.address.bytes), Value(a.bytes), Addresses(c));
    }
  }

  /** The default is the address ten further, byte for byte, unless the last byte wraps around. */
  lemma {:induction false} TenthValue(a: Address)
    requires ValidAddress(a)
    ensures
      var b := a.bytes[|a.bytes| - 1] as int;
      Value(Tenth(a).bytes) == Value(a.bytes) + if b + 10 < 256 then 10 else -246
  {
    LastByteValue(a.bytes, Raised(a.bytes[|a.bytes| - 1]));
  }

  lemma {:induction false} LastByteValue(b: seq<Byte>, x: Byte)
    requires b != []
    ensures Value(b[|b| - 1 := x]) == Value(b) - b[|b| - 1] + x
  {
    if |b| == 1 {
      assert b[0 := x][1..] == [] && b[1..] == [] && Pow(0) == 1;
    } else {
      var c := b[|b| - 1 := x];
      assert c[1..] == b[1..][|b| - 2 := x];
      LastByteValue(b[1..], x);
    }
  }
}
