/**
 * The default address of the tenant's DNS Service, and the admission check that it lies in a service
 * network.  Addresses are bytes; their text form is left out, an unreadable entry being `None`.
 */
module DnsDefaults {
  import opened Common

  type Byte = x: int | 0 <= x < 256

  datatype Family = V4 | V6

  datatype Address = Address(family: Family, bytes: seq<Byte>)

  /** An address and a prefix length, as written; host bits may be set. */
  datatype Cidr = Cidr(address: Address, prefix: nat)

  function Size(f: Family): nat { if f.V4? then 4 else 16 }

  predicate ValidAddress(a: Address) { |a.bytes| == Size(a.family) }

  predicate ValidCidr(c: Cidr) { ValidAddress(c.address) && c.prefix <= 8 * Size(c.address.family) }

  // ---------- networks ----------

  /** How many leading bits of byte `i` the prefix fixes. */
  function Fixed(prefix: nat, i: nat): (n: nat)
    ensures n <= 8
  {
    if prefix <= 8 * i then 0 else if prefix >= 8 * i + 8 then 8 else prefix - 8 * i
  }

  /** The number of bytes that agree in their `n` leading bits. */
  function Block(n: nat): (m: int)
    requires n <= 8
    ensures m > 0
  {
    match n
    case 0 => 256 case 1 => 128 case 2 => 64 case 3 => 32 case 4 => 16 case 5 => 8 case 6 => 4 case 7 => 2 case 8 => 1
  }

  /** The `n` leading bits of a byte, the others cleared. */
  function Masked(b: Byte, n: nat): Byte
    requires n <= 8
  {
    b - b % Block(n)
  }

  predicate SameNetwork(a: seq<Byte>, b: seq<Byte>, prefix: nat)
    requires |a| == |b|
  {
    forall i :: 0 <= i < |a| ==> Masked(a[i], Fixed(prefix, i)) == Masked(b[i], Fixed(prefix, i))
  }

  /** Addresses of the other family are never contained. */
  predicate Contains(c: Cidr, a: Address)
    requires ValidCidr(c) && ValidAddress(a)
  {
    c.address.family == a.family && SameNetwork(c.address.bytes, a.bytes, c.prefix)
  }

  /** The CIDR is written with its network address: no host bit is set. */
  predicate Canonical(c: Cidr)
    requires ValidCidr(c)
  {
    forall i :: 0 <= i < |c.address.bytes| ==> Masked(c.address.bytes[i], Fixed(c.prefix, i)) == c.address.bytes[i]
  }

  // ---------- defaults ----------

  /** A byte raised by ten, modulo 256. */
  function Raised(b: Byte): Byte {
    var sum: int := b as int + 10;
    sum % 256
  }

  /** The last byte is raised; nothing is carried. */
  function Tenth(a: Address): Address
    requires ValidAddress(a)
  {
    var n := |a.bytes| - 1;
    a.(bytes := a.bytes[n := Raised(a.bytes[n])])
  }

  /** Every CIDR reads. */
  predicate Readable(cidrs: seq<Option<Cidr>>) {
    forall i :: 0 <= i < |cidrs| ==> cidrs[i].Some? && ValidCidr(cidrs[i].value)
  }

  predicate WellTyped(cidrs: seq<Option<Cidr>>) {
    forall i :: 0 <= i < |cidrs| && cidrs[i].Some? ==> ValidCidr(cidrs[i].value)
  }

  function Defaults(cidrs: seq<Option<Cidr>>): seq<Address>
    requires Readable(cidrs)
  {
    seq(|cidrs|, i requires 0 <= i < |cidrs| => Tenth(cidrs[i].value.address))
  }

  /** The loop of the defaulting webhook: the byte is changed in place. */
  method ComputeDefaults(cidrs: seq<Option<Cidr>>) returns (r: Option<seq<Address>>)
    requires WellTyped(cidrs)
    ensures r.Some? <==> Readable(cidrs)
    ensures r.Some? ==> r.value == Defaults(cidrs)
  {
    var ips: seq<Address> := [];
    for i := 0 to |cidrs|
      invariant Readable(cidrs[..i]) && ips == Defaults(cidrs[..i])
    {
      if cidrs[i].None? { return None; }
      var a := cidrs[i].value.address;
      var ip := new Byte[|a.bytes|](j requires 0 <= j < |a.bytes| => a.bytes[j]);
      assert ip[..] == a.bytes;
      ip[ip.Length - 1] := Raised(ip[ip.Length - 1]);
      assert Address(a.family, ip[..]) == Tenth(a);
      ips := ips + [Address(a.family, ip[..])];
    }
    assert cidrs[..|cidrs|] == cidrs;
    return Some(ips);
  }

  // ---------- validation ----------

  /** Some CIDR contains the address, and all before it read. */
  predicate Covered(a: Address, cidrs: seq<Option<Cidr>>)
    requires ValidAddress(a) && WellTyped(cidrs)
  {
    exists i :: 0 <= i < |cidrs| && cidrs[i].Some? && Contains(cidrs[i].value, a) && forall j :: 0 <= j < i ==> cidrs[j].Some?
  }

  predicate Accepts(ips: seq<Address>, cidrs: seq<Option<Cidr>>)
    requires (forall i :: 0 <= i < |ips| ==> ValidAddress(ips[i])) && WellTyped(cidrs)
  {
    ips == [] || (cidrs != [] && forall i :: 0 <= i < |ips| ==> Covered(ips[i], cidrs))
  }

  /** The inner loop of the validating webhook; an unreadable CIDR is an error, too. */
  method Find(ip: Address, cidrs: seq<Option<Cidr>>) returns (found: bool)
    requires ValidAddress(ip) && WellTyped(cidrs)
    ensures found == Covered(ip, cidrs)
  {
    for j := 0 to |cidrs|
      invariant forall k :: 0 <= k < j ==> cidrs[k].Some? && !Contains(cidrs[k].value, ip)
    {
      if cidrs[j].None? { return false; }
      if Contains(cidrs[j].value, ip) { return true; }
    }
    return false;
  }

  method Validate(ips: seq<Address>, cidrs: seq<Option<Cidr>>) returns (ok: bool)
    requires (forall i :: 0 <= i < |ips| ==> ValidAddress(ips[i])) && WellTyped(cidrs)
    ensures ok == Accepts(ips, cidrs)
  {
    if |ips| == 0 { return true; }
    if |cidrs| == 0 { return false; }
    for i := 0 to |ips|
      invariant forall k :: 0 <= k < i ==> Covered(ips[k], cidrs)
    {
      var found := Find(ips[i], cidrs);
      if !found { return false; }
    }
    return true;
  }

  // ---------- main results ----------

  /** The longest prefix whose network holds its own tenth address. */
  function Limit(f: Family): nat { if f.V4? then 28 else 124 }

  lemma TenthInNetwork(c: Cidr)
    requires ValidCidr(c)
    ensures var n, k := |c.address.bytes| - 1, Fixed(c.prefix, |c.address.bytes| - 1);
      Contains(c, Tenth(c.address)) <==> Masked(Raised(c.address.bytes[n]), k) == Masked(c.address.bytes[n], k)
  {
    var n := |c.address.bytes| - 1;
    var t := Tenth(c.address).bytes;
    assert forall i :: 0 <= i < n ==> t[i] == c.address.bytes[i];
    assert t[n] == Raised(c.address.bytes[n]);
  }

  /** A byte and the byte ten further lie in one block of `m` exactly when the block has room for both. */
  lemma SameBlock(b: int, m: int, q: int, t: int)
    requires 0 <= b < 256 && b == m * q + t && 0 <= t < m
    requires m == 1 || m == 2 || m == 4 || m == 8 || m == 16 || m == 32 || m == 64 || m == 128
    ensures var r := (b + 10) % 256; m * q <= r < m * q + m <==> t + 10 < m
  {}

  lemma MaskedIsBlock(b: Byte, r: Byte, n: nat)
    requires n <= 8
    ensures Masked(r, n) == Masked(b, n) <==> Masked(b, n) <= r < Masked(b, n) + Block(n)
  {
    var m := Block(n);
    var q, t, q', t' := b / m, b % m, r / m, r % m;
    assert b == m * q + t && r == m * q' + t';
    if m * q <= r < m * q + m {
      BlockIsUnique(m, q, q', t');
    }
  }

  lemma Monotone(m: int, a: int, b: int)
    requires m > 0
    ensures a <= b ==> m * a <= m * b
  {}

  lemma BlockIsUnique(m: int, q: int, q': int, t: int)
    requires m > 0 && 0 <= t < m && m * q <= m * q' + t < m * q + m
    ensures q == q'
  {
    Monotone(m, q + 1, q');
    Monotone(m, q' + 1, q);
  }

  /**
   * With `b` the last byte and `m` the number of bytes that agree with it in the bits the prefix fixes:
   * the last byte is free, or the block has room for ten more.
   */
  predicate HasRoom(c: Cidr)
    requires ValidCidr(c)
  {
    var n := |c.address.bytes| - 1;
    var b, m := c.address.bytes[n], Block(Fixed(c.prefix, n));
    m == 256 || b % m + 10 < m
  }

  /** For any host bits the default lies in the network exactly when there is room. */
  lemma DefaultInNetworkExactly(c: Cidr)
    requires ValidCidr(c)
    ensures Contains(c, Tenth(c.address)) <==> HasRoom(c)
  {
    var n := |c.address.bytes| - 1;
    var b, k := c.address.bytes[n], Fixed(c.prefix, n);
    var m := Block(k);
    TenthInNetwork(c);
    MaskedIsBlock(b, Raised(b), k);
    assert b == m * (b / m) + b % m;
    if m != 256 { SameBlock(b, m, b / m, b % m); }
  }

  /** For a CIDR written with its network address the default lies in it exactly up to the limit. */
  lemma CanonicalDefault(c: Cidr)
    requires ValidCidr(c) && Canonical(c)
    ensures Contains(c, Tenth(c.address)) <==> c.prefix <= Limit(c.address.family)
  {
    var n := |c.address.bytes| - 1;
    DefaultInNetworkExactly(c);
    assert Masked(c.address.bytes[n], Fixed(c.prefix, n)) == c.address.bytes[n];
  }

  /** Whatever the host bits, wrap-around included, it does while the last byte is free. */
  lemma AnyHostBits(c: Cidr)
    requires ValidCidr(c) && c.prefix <= Limit(c.address.family) - 4
    ensures Contains(c, Tenth(c.address))
  {
    DefaultInNetworkExactly(c);
  }

  predicate OnePerFamily(cidrs: seq<Option<Cidr>>)
    requires Readable(cidrs)
  {
    forall i, j :: 0 <= i < j < |cidrs| ==> cidrs[i].value.address.family != cidrs[j].value.address.family
  }

  lemma OwnNetworkOnly(cidrs: seq<Option<Cidr>>, i: nat)
    requires Readable(cidrs) && OnePerFamily(cidrs) && i < |cidrs|
    ensures Covered(Tenth(cidrs[i].value.address), cidrs) <==> Contains(cidrs[i].value, Tenth(cidrs[i].value.address))
  {}

  /** With one CIDR per family, each with its network address, the defaults pass exactly up to the limits. */
  lemma DefaultsAccepted(cidrs: seq<Option<Cidr>>)
    requires Readable(cidrs) && OnePerFamily(cidrs)
    requires forall i :: 0 <= i < |cidrs| ==> Canonical(cidrs[i].value)
    ensures Accepts(Defaults(cidrs), cidrs) <==> forall i :: 0 <= i < |cidrs| ==> cidrs[i].value.prefix <= Limit(cidrs[i].value.address.family)
  {
    forall i | 0 <= i < |cidrs|
      ensures Covered(Defaults(cidrs)[i], cidrs) <==> cidrs[i].value.prefix <= Limit(cidrs[i].value.address.family)
    {
      OwnNetworkOnly(cidrs, i);
      CanonicalDefault(cidrs[i].value);
    }
  }

  /** With any host bits they pass exactly when every network has room. */
  lemma DefaultsAcceptedExactly(cidrs: seq<Option<Cidr>>)
    requires Readable(cidrs) && OnePerFamily(cidrs)
    ensures Accepts(Defaults(cidrs), cidrs) <==> forall i :: 0 <= i < |cidrs| ==> HasRoom(cidrs[i].value)
  {
    forall i | 0 <= i < |cidrs| ensures Covered(Defaults(cidrs)[i], cidrs) <==> HasRoom(cidrs[i].value) {
      OwnNetworkOnly(cidrs, i);
      DefaultInNetworkExactly(cidrs[i].value);
    }
  }

  /** With any host bits they pass whenever every prefix leaves the last byte free. */
  lemma DefaultsWithHostBits(cidrs: seq<Option<Cidr>>)
    requires Readable(cidrs)
    requires forall i :: 0 <= i < |cidrs| ==> cidrs[i].value.prefix <= Limit(cidrs[i].value.address.family) - 4
    ensures Accepts(Defaults(cidrs), cidrs)
  {
    forall i | 0 <= i < |cidrs| ensures Covered(Defaults(cidrs)[i], cidrs) {
      AnyHostBits(cidrs[i].value);
    }
  }

  /** So with host bits the limit does not hold: 10.0.0.250/28 leads to 10.0.0.4. */
  lemma HostBitsMayWrap()
    ensures var c := Cidr(Address(V4, [10, 0, 0, 250]), 28); !Contains(c, Tenth(c.address)) && Tenth(c.address).bytes == [10, 0, 0, 4]
  {
    DefaultInNetworkExactly(Cidr(Address(V4, [10, 0, 0, 250]), 28));
  }
}
