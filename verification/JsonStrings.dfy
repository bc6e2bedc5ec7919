/**
 * Strings as the JSON Patch printer writes them and as a JSON reader takes them.  Characters stand
 * for bytes; a rune is one to four of them.
 */
module JsonStrings {
  import opened Common

  // ---------- UTF-8 ----------

  predicate Between(c: char, lo: int, hi: int) { lo <= c as int <= hi }

  predicate Continues(s: string, n: nat) {
    |s| > n && forall i :: 2 <= i <= n ==> Between(s[i], 0x80, 0xBF)
  }

  /** The width of the first rune; a byte that starts none counts as one. */
  function RuneLen(s: string): (n: nat)
    requires s != []
    ensures 1 <= n <= |s|
    ensures s[0] < 0x80 as char ==> n == 1
  {
    if Between(s[0], 0xC2, 0xDF) && |s| > 1 && Between(s[1], 0x80, 0xBF) then 2
    else if Between(s[0], 0xE0, 0xEF) && Continues(s, 2)
      && Between(s[1], if s[0] as int == 0xE0 then 0xA0 else 0x80, if s[0] as int == 0xED then 0x9F else 0xBF) then 3
    else if Between(s[0], 0xF0, 0xF4) && Continues(s, 3)
      && Between(s[1], if s[0] as int == 0xF0 then 0x90 else 0x80, if s[0] as int == 0xF4 then 0x8F else 0xBF) then 4
    else 1
  }

  predicate Utf8(s: string) {
    s == [] || ((s[0] < 0x80 as char || RuneLen(s) > 1) && Utf8(s[RuneLen(s)..]))
  }

  // ---------- printing ----------

  function EscapeByte(c: char): string {
    if c == '\\' || c == '"' then ['\\', c]
    else if c == '\n' then ['\\', 'n']
    else if c == '\r' then ['\\', 'r']
    else if c == '\t' then ['\\', 't']
    else [c]
  }

  /** The loop runs over runes but writes one byte for each. */
  function Escaped(s: string): string {
    if s == [] then [] else EscapeByte(s[0]) + Escaped(s[RuneLen(s)..])
  }

  method AppendByte(dst: string, c: char) returns (r: string)
    ensures r == dst + EscapeByte(c)
  {
    if c == '\\' || c == '"' { r := dst + ['\\', c]; }
    else if c == '\n' { r := dst + ['\\', 'n']; }
    else if c == '\r' { r := dst + ['\\', 'r']; }
    else if c == '\t' { r := dst + ['\\', 't']; }
    else { r := dst + [c]; }
  }

  method AppendEscapedString(dst: string, s: string) returns (r: string)
    ensures r == dst + Escaped(s)
  {
    r := dst;
    var i := 0;
    while i < |s|
      invariant 0 <= i <= |s| && r + Escaped(s[i..]) == dst + Escaped(s)
      decreases |s| - i
    {
      var n := RuneLen(s[i..]);
      EscapedStep(r, s, i, n);
      r := AppendByte(r, s[i]);
      i := i + n;
    }
    assert s[i..] == [] && r + [] == r;
  }

  lemma EscapedStep(r: string, s: string, i: nat, n: nat)
    requires i < |s| && n == RuneLen(s[i..])
    ensures r + Escaped(s[i..]) == (r + EscapeByte(s[i])) + Escaped(s[i + n..])
  {
    assert s[i..][n..] == s[i + n..];
  }

  // ---------- reading, after section 7 of RFC 8259 ----------

  function Hex(c: char): Option<int> {
    if '0' <= c <= '9' then Some(c as int - '0' as int)
    else if 'a' <= c <= 'f' then Some(c as int - 'a' as int + 10)
    else if 'A' <= c <= 'F' then Some(c as int - 'A' as int + 10)
    else None
  }

  function Encode(u: int): Option<string>
    requires 0 <= u < 0x10000
  {
    if u < 0x80 then Some([u as char])
    else if u < 0x800 then Some([(0xC0 + u / 64) as char, (0x80 + u % 64) as char])
    else if 0xD800 <= u < 0xE000 then None
    else Some([(0xE0 + u / 4096) as char, (0x80 + u / 64 % 64) as char, (0x80 + u % 64) as char])
  }

  /** The bytes of a backslash sequence and its length; surrogates are not combined. */
  function ReadEscape(t: string): Option<(string, nat)>
    requires t != [] && t[0] == '\\'
    ensures ReadEscape(t).Some? ==> 2 <= ReadEscape(t).value.1 <= |t|
  {
    if |t| < 2 then None
    else if t[1] == '"' || t[1] == '\\' || t[1] == '/' then Some(([t[1]], 2))
    else if t[1] == 'b' then Some(([8 as char], 2))
    else if t[1] == 'f' then Some(([12 as char], 2))
    else if t[1] == 'n' then Some(("\n", 2))
    else if t[1] == 'r' then Some(("\r", 2))
    else if t[1] == 't' then Some(("\t", 2))
    else if t[1] == 'u' && |t| >= 6 && Hex(t[2]).Some? && Hex(t[3]).Some? && Hex(t[4]).Some? && Hex(t[5]).Some? then
      (var u := Encode(Hex(t[2]).value * 4096 + Hex(t[3]).value * 256 + Hex(t[4]).value * 16 + Hex(t[5]).value);
       if u.Some? then Some((u.value, 6)) else None)
    else None
  }

  function Join(s: string, r: Option<(string, string)>): Option<(string, string)> {
    if r.None? then None else Some((s + r.value.0, r.value.1))
  }

  /** From behind the opening quote: the string's bytes, and what follows the closing quote. */
  function ReadBytes(t: string): Option<(string, string)>
    decreases |t|
  {
    if t == [] then None
    else if t[0] == '"' then Some(([], t[1..]))
    else if t[0] == '\\' then
      (var e := ReadEscape(t); if e.None? then None else Join(e.value.0, ReadBytes(t[e.value.1..])))
    else if t[0] < ' ' then None
    else Join([t[0]], ReadBytes(t[1..]))
  }

  function ReadString(t: string): Option<(string, string)> {
    var r := ReadBytes(t);
    if r.Some? && Utf8(r.value.0) then r else None
  }

  // ---------- what survives ----------

  predicate Clean(s: string) {
    forall i :: 0 <= i < |s| ==> s[i] < 0x80 as char && (s[i] >= ' ' || s[i] == '\n' || s[i] == '\r' || s[i] == '\t')
  }

  predicate Writable(c: char) { c >= ' ' || c == '\n' || c == '\r' || c == '\t' }

  predicate AllWritable(s: string) { s == [] || (Writable(s[0]) && AllWritable(s[1..])) }

  predicate Ascii(s: string) { s == [] || (s[0] < 0x80 as char && Ascii(s[1..])) }

  lemma {:induction false} CleanIff(s: string)
    ensures Clean(s) <==> Ascii(s) && AllWritable(s)
  {
    if s != [] {
      CleanIff(s[1..]);
      assert forall i :: 0 <= i < |s| - 1 ==> s[1..][i] == s[i + 1];
      if Clean(s[1..]) {
        forall i | 0 < i < |s| ensures s[i] == s[1..][i - 1] {}
      }
    }
  }

  /** The first byte of every rune. */
  function Heads(s: string): string {
    if s == [] then [] else [s[0]] + Heads(s[RuneLen(s)..])
  }

  lemma ReadEscapedByte(c: char, t: string)
    ensures ReadBytes(EscapeByte(c) + t) == if Writable(c) then Join([c], ReadBytes(t)) else None
  {
    var e := EscapeByte(c);
    assert (e + t)[|e|..] == t;
  }

  lemma {:induction false} ReadEscaped(s: string, rest: string)
    ensures ReadBytes(Escaped(s) + "\"" + rest)
      == if AllWritable(Heads(s)) then Some((Heads(s), rest)) else None
    decreases |s|
  {
    if s == [] {
      assert Escaped(s) + "\"" + rest == "\"" + rest;
    } else {
      var s', h := s[RuneLen(s)..], Heads(s);
      var t := Escaped(s') + "\"" + rest;
      assert Escaped(s) + "\"" + rest == EscapeByte(s[0]) + t;
      ReadEscapedByte(s[0], t);
      ReadEscaped(s', rest);
      assert h[0] == s[0] && h[1..] == Heads(s');
    }
  }

  lemma {:induction false} HeadsShorter(s: string)
    ensures |Heads(s)| <= |s|
    decreases |s|
  {
    if s != [] { HeadsShorter(s[RuneLen(s)..]); }
  }

  /** Nothing is dropped from valid text exactly when all of it is ASCII. */
  lemma {:induction false} HeadsOfAscii(s: string)
    ensures Heads(s) == s && Utf8(s) <==> Ascii(s)
    decreases |s|
  {
    if s != [] {
      var w := RuneLen(s);
      HeadsShorter(s[w..]);
      if w == 1 {
        HeadsOfAscii(s[1..]);
        assert s == [s[0]] + s[1..];
        assert Heads(s) == s <==> Heads(s[1..]) == s[1..] by { assert Heads(s)[1..] == Heads(s[1..]); }
      } else {
        assert |Heads(s)| < |s|;
        assert !(s[0] < 0x80 as char);
      }
    }
  }

  /**
   * A printed string reads back as itself, up to the closing quote, exactly when it is ASCII without
   * control characters other than newline, return and tab.
   */
  lemma StringRoundTrip(s: string, rest: string)
    ensures ReadString(Escaped(s) + "\"" + rest) == Some((s, rest)) <==> Clean(s)
  {
    ReadEscaped(s, rest);
    HeadsOfAscii(s);
    CleanIff(s);
  }

  /** The two bytes of an e with an acute accent come out as one, which is not a character. */
  lemma AccentIsLost(rest: string)
    ensures Escaped([0xC3 as char, 0xA9 as char]) == [0xC3 as char]
    ensures ReadString(Escaped([0xC3 as char, 0xA9 as char]) + "\"" + rest).None?
  {
    var s := [0xC3 as char, 0xA9 as char];
    assert RuneLen(s) == 2 && s[2..] == [];
    assert Heads(s) == [0xC3 as char] && Escaped(s) == [0xC3 as char];
    ReadEscaped(s, rest);
    assert RuneLen([0xC3 as char]) == 1;
  }

  // ---------- every character ----------

  /** The bytes of a code point. */
  function Bytes(u: int): string
    requires 0 <= u < 0x110000 && !(0xD800 <= u < 0xE000)
  {
    if u < 0x80 then [u as char]
    else if u < 0x800 then [(0xC0 + u / 64) as char, (0x80 + u % 64) as char]
    else if u < 0x10000 then [(0xE0 + u / 4096) as char, (0x80 + u / 64 % 64) as char, (0x80 + u % 64) as char]
    else [(0xF0 + u / 262144) as char, (0x80 + u / 4096 % 64) as char, (0x80 + u / 64 % 64) as char, (0x80 + u % 64) as char]
  }

  lemma ThreeByteRune(u: int, t: string)
    requires 0x800 <= u < 0x10000 && !(0xD800 <= u < 0xE000)
    ensures RuneLen(Bytes(u) + t) == 3
  {
    var s := Bytes(u) + t;
    assert s[0] == Bytes(u)[0] && s[1] == Bytes(u)[1] && s[2] == Bytes(u)[2];
    assert u / 4096 == 0 ==> u / 64 % 64 >= 0x20;
    assert u / 4096 == 0xD ==> u / 64 % 64 < 0x20;
  }

  lemma FourByteRune(u: int, t: string)
    requires 0x10000 <= u < 0x110000
    ensures RuneLen(Bytes(u) + t) == 4
  {
    var s := Bytes(u) + t;
    assert s[0] == Bytes(u)[0] && s[1] == Bytes(u)[1] && s[2] == Bytes(u)[2] && s[3] == Bytes(u)[3];
    assert u / 262144 == 0 ==> u / 4096 % 64 >= 0x10;
    assert u / 262144 == 4 ==> u / 4096 % 64 < 0x10;
  }

  /** The loop takes each character as a whole, whatever follows it. */
  lemma RuneOfCodePoint(u: int, t: string)
    requires 0 <= u < 0x110000 && !(0xD800 <= u < 0xE000)
    ensures RuneLen(Bytes(u) + t) == |Bytes(u)|
  {
    var s := Bytes(u) + t;
    assert s[0] == Bytes(u)[0];
    if 0x800 <= u < 0x10000 { ThreeByteRune(u, t); }
    else if 0x10000 <= u { FourByteRune(u, t); }
    else if 0x80 <= u { assert s[1] == Bytes(u)[1]; }
  }

  /** So of every character exactly the first byte is written. */
  lemma FirstByteOnly(u: int, t: string)
    requires 0 <= u < 0x110000 && !(0xD800 <= u < 0xE000)
    ensures Escaped(Bytes(u) + t) == EscapeByte(Bytes(u)[0]) + Escaped(t)
  {
    RuneOfCodePoint(u, t);
    assert (Bytes(u) + t)[|Bytes(u)|..] == t;
  }
}
