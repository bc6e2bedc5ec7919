/** JSON values after RFC 8259: where a value ends, and that a delimiter behind it changes nothing. */
module JsonValues {
  import opened Common
  import opened JsonStrings

  // ---------- values: what is left behind one ----------

  predicate Space(c: char) { c == ' ' || c == '\t' || c == '\n' || c == '\r' }

  predicate Digit(c: char) { '0' <= c <= '9' }

  function Trim(t: string): (r: string)
    ensures |r| <= |t|
  {
    if t != [] && Space(t[0]) then Trim(t[1..]) else t
  }

  function DropDigits(t: string): (r: string)
    ensures |r| <= |t|
    ensures t != [] && Digit(t[0]) ==> |r| < |t|
  {
    if t != [] && Digit(t[0]) then DropDigits(t[1..]) else t
  }

  function SomeDigits(t: string): Option<string> {
    if t != [] && Digit(t[0]) then Some(DropDigits(t)) else None
  }

  function ScanInt(t: string): Option<string> {
    if t != [] && t[0] == '0' then Some(t[1..]) else SomeDigits(t)
  }

  function ScanFraction(t: string): Option<string> {
    if t != [] && t[0] == '.' then SomeDigits(t[1..]) else Some(t)
  }

  function ScanExponent(t: string): Option<string> {
    if t != [] && (t[0] == 'e' || t[0] == 'E') then
      SomeDigits(if |t| > 1 && (t[1] == '+' || t[1] == '-') then t[2..] else t[1..])
    else Some(t)
  }

  function ScanNumber(t: string): (r: Option<string>)
    ensures r.Some? ==> |r.value| < |t|
  {
    var i := ScanInt(if t != [] && t[0] == '-' then t[1..] else t);
    if i.None? then None
    else
      var f := ScanFraction(i.value);
      if f.None? then None else ScanExponent(f.value)
  }

  function ScanWord(t: string, w: string): (r: Option<string>)
    ensures w != [] && r.Some? ==> |r.value| < |t|
  {
    if w <= t then Some(t[|w|..]) else None
  }

  function ScanString(t: string): (r: Option<string>)
    ensures r.Some? ==> |r.value| < |t|
  {
    ReadLeavesLess(t);
    var r := ReadString(t);
    if r.None? then None else Some(r.value.1)
  }

  lemma {:induction false} ReadLeavesLess(t: string)
    ensures ReadBytes(t).Some? ==> |ReadBytes(t).value.1| < |t|
    decreases |t|
  {
    if t != [] && t[0] != '"' {
      if t[0] == '\\' {
        if ReadEscape(t).Some? { ReadLeavesLess(t[ReadEscape(t).value.1..]); }
      } else {
        ReadLeavesLess(t[1..]);
      }
    }
  }

  function ScanValue(t: string): (r: Option<string>)
    ensures r.Some? ==> |r.value| < |t|
    decreases |t|, 1
  {
    if t == [] then None
    else if t[0] == '"' then ScanString(t[1..])
    else if t[0] == '[' then
      (var u := Trim(t[1..]); if u != [] && u[0] == ']' then Some(u[1..]) else ScanElements(u))
    else if t[0] == '{' then
      (var u := Trim(t[1..]); if u != [] && u[0] == '}' then Some(u[1..]) else ScanMembers(u))
    else if t[0] == 't' then ScanWord(t, "true")
    else if t[0] == 'f' then ScanWord(t, "false")
    else if t[0] == 'n' then ScanWord(t, "null")
    else ScanNumber(t)
  }

  /** One or more elements and the closing bracket. */
  function ScanElements(t: string): (r: Option<string>)
    ensures r.Some? ==> |r.value| < |t|
    decreases |t|, 2
  {
    var v := ScanValue(t);
    if v.None? then None
    else
      var u := Trim(v.value);
      if u == [] then None
      else if u[0] == ']' then Some(u[1..])
      else if u[0] == ',' then ScanElements(Trim(u[1..]))
      else None
  }

  /** One or more members and the closing brace. */
  function ScanMembers(t: string): (r: Option<string>)
    ensures r.Some? ==> |r.value| < |t|
    decreases |t|, 2
  {
    if t == [] || t[0] != '"' || ScanString(t[1..]).None? then None
    else
      var k := Trim(ScanString(t[1..]).value);
      if k == [] || k[0] != ':' then None
      else
        var v := ScanValue(Trim(k[1..]));
        if v.None? then None
        else
          var u := Trim(v.value);
          if u == [] then None
          else if u[0] == '}' then Some(u[1..])
          else if u[0] == ',' then ScanMembers(Trim(u[1..]))
          else None
  }

  /** A text that is one JSON value, without surrounding whitespace. */
  predicate Complete(v: string) { ScanValue(v) == Some([]) }

  // ---------- a value stays one in front of a delimiter ----------

  predicate Delimits(x: string) { x != [] && (x[0] == ',' || x[0] == '}') }

  lemma {:induction false} TrimExtends(t: string, x: string)
    requires Delimits(x)
    ensures Trim(t + x) == Trim(t) + x
  {
    if t == [] { assert t + x == x; }
    else if Space(t[0]) { assert (t + x)[1..] == t[1..] + x; TrimExtends(t[1..], x); }
  }

  lemma {:induction false} DigitsExtend(t: string, x: string)
    requires Delimits(x)
    ensures DropDigits(t + x) == DropDigits(t) + x
  {
    if t == [] { assert t + x == x; }
    else if Digit(t[0]) { assert (t + x)[1..] == t[1..] + x; DigitsExtend(t[1..], x); }
  }

  lemma DropFront(t: string, x: string, n: nat)
    requires n <= |t|
    ensures (t + x)[n..] == t[n..] + x
  {}

  lemma SomeDigitsExtend(t: string, x: string)
    requires Delimits(x) && SomeDigits(t).Some?
    ensures SomeDigits(t + x) == Some(SomeDigits(t).value + x)
  {
    DigitsExtend(t, x);
  }

  lemma IntExtends(t: string, x: string)
    requires Delimits(x) && ScanInt(t).Some?
    ensures ScanInt(t + x) == Some(ScanInt(t).value + x)
  {
    DropFront(t, x, 1);
    if t[0] != '0' { SomeDigitsExtend(t, x); }
  }

  lemma FractionExtends(t: string, x: string)
    requires Delimits(x) && ScanFraction(t).Some?
    ensures ScanFraction(t + x) == Some(ScanFraction(t).value + x)
  {
    if t == [] {
      assert t + x == x;
    } else if t[0] == '.' {
      DropFront(t, x, 1);
      SomeDigitsExtend(t[1..], x);
    }
  }

  lemma ExponentExtends(t: string, x: string)
    requires Delimits(x) && ScanExponent(t).Some?
    ensures ScanExponent(t + x) == Some(ScanExponent(t).value + x)
  {
    if t == [] {
      assert t + x == x;
    } else if t[0] == 'e' || t[0] == 'E' {
      DropFront(t, x, 1);
      if |t| > 1 && (t[1] == '+' || t[1] == '-') {
        DropFront(t, x, 2);
        SomeDigitsExtend(t[2..], x);
      } else {
        SomeDigitsExtend(t[1..], x);
      }
    }
  }

  lemma NumberExtends(t: string, x: string)
    requires Delimits(x) && ScanNumber(t).Some?
    ensures ScanNumber(t + x) == Some(ScanNumber(t).value + x)
  {
    var u := if t != [] && t[0] == '-' then t[1..] else t;
    assert t != [];
    DropFront(t, x, 1);
    IntExtends(u, x);
    var i := ScanInt(u).value;
    FractionExtends(i, x);
    ExponentExtends(ScanFraction(i).value, x);
  }

  lemma WordExtends(t: string, x: string, w: string)
    requires ScanWord(t, w).Some?
    ensures ScanWord(t + x, w) == Some(ScanWord(t, w).value + x)
  {
    assert w == t[..|w|];
    assert (t + x)[..|w|] == w;
    DropFront(t, x, |w|);
  }

  lemma EscapeExtends(t: string, x: string)
    requires t != [] && t[0] == '\\' && ReadEscape(t).Some?
    ensures ReadEscape(t + x) == ReadEscape(t)
  {
    assert forall i :: 0 <= i < |t| ==> (t + x)[i] == t[i];
  }

  lemma {:induction false} BytesExtend(t: string, x: string)
    requires ReadBytes(t).Some?
    ensures ReadBytes(t + x) == Some((ReadBytes(t).value.0, ReadBytes(t).value.1 + x))
    decreases |t|
  {
    DropFront(t, x, 1);
    if t[0] == '\\' {
      EscapeExtends(t, x);
      DropFront(t, x, ReadEscape(t).value.1);
      BytesExtend(t[ReadEscape(t).value.1..], x);
    } else if t[0] != '"' {
      BytesExtend(t[1..], x);
    }
  }

  lemma StringExtends(t: string, x: string)
    requires ScanString(t).Some?
    ensures ScanString(t + x) == Some(ScanString(t).value + x)
  {
    BytesExtend(t, x);
  }

  lemma {:induction false} ValueExtends(t: string, x: string)
    requires Delimits(x) && ScanValue(t).Some?
    ensures ScanValue(t + x) == Some(ScanValue(t).value + x)
    decreases |t|, 1
  {
    DropFront(t, x, 1);
    if t[0] == '"' {
      StringExtends(t[1..], x);
    } else if t[0] == '[' || t[0] == '{' {
      BracketExtends(t, x);
    } else if t[0] == 't' {
      WordExtends(t, x, "true");
    } else if t[0] == 'f' {
      WordExtends(t, x, "false");
    } else if t[0] == 'n' {
      WordExtends(t, x, "null");
    } else {
      NumberExtends(t, x);
    }
  }

  lemma {:induction false} BracketExtends(t: string, x: string)
    requires Delimits(x) && ScanValue(t).Some? && (t[0] == '[' || t[0] == '{')
    ensures ScanValue(t + x) == Some(ScanValue(t).value + x)
    decreases |t|, 0
  {
    DropFront(t, x, 1);
    var u := Trim(t[1..]);
    TrimExtends(t[1..], x);
    DropFront(u, x, 1);
    if t[0] == '[' {
      if u[0] != ']' { ElementsExtend(u, x); }
    } else {
      if u[0] != '}' { MembersExtend(u, x); }
    }
  }

  lemma {:induction false} ElementsExtend(t: string, x: string)
    requires Delimits(x) && ScanElements(t).Some?
    ensures ScanElements(t + x) == Some(ScanElements(t).value + x)
    decreases |t|, 2
  {
    ValueExtends(t, x);
    var v := ScanValue(t).value;
    var u := Trim(v);
    TrimExtends(v, x);
    DropFront(u, x, 1);
    if u[0] == ',' {
      TrimExtends(u[1..], x);
      ElementsExtend(Trim(u[1..]), x);
    }
  }

  lemma {:induction false} MembersExtend(t: string, x: string)
    requires Delimits(x) && ScanMembers(t).Some?
    ensures ScanMembers(t + x) == Some(ScanMembers(t).value + x)
    decreases |t|, 2
  {
    DropFront(t, x, 1);
    StringExtends(t[1..], x);
    var s := ScanString(t[1..]).value;
    var k := Trim(s);
    TrimExtends(s, x);
    DropFront(k, x, 1);
    TrimExtends(k[1..], x);
    ValueExtends(Trim(k[1..]), x);
    var v := ScanValue(Trim(k[1..])).value;
    var u := Trim(v);
    TrimExtends(v, x);
    DropFront(u, x, 1);
    if u[0] == ',' {
      TrimExtends(u[1..], x);
      MembersExtend(Trim(u[1..]), x);
    }
  }

  // ---------- a value in front of a delimiter is one without it ----------

  lemma NumberCuts(t: string, x: string)
    requires Delimits(x) && ScanNumber(t + x).Some?
    ensures ScanNumber(t).Some?
  {
    assert t == [] ==> t + x == x;
    if t != [] {
      var u := if t[0] == '-' then t[1..] else t;
      DropFront(t, x, 1);
      IntCuts(u, x);
      IntExtends(u, x);
      var i := ScanInt(u).value;
      FractionCuts(i, x);
      FractionExtends(i, x);
      ExponentCuts(ScanFraction(i).value, x);
    }
  }

  lemma IntCuts(t: string, x: string)
    requires Delimits(x) && ScanInt(t + x).Some?
    ensures ScanInt(t).Some?
  {
    assert t == [] ==> t + x == x;
  }

  lemma FractionCuts(t: string, x: string)
    requires Delimits(x) && ScanFraction(t + x).Some?
    ensures ScanFraction(t).Some?
  {
    if t != [] && t[0] == '.' {
      DropFront(t, x, 1);
      if t[1..] == [] { assert t[1..] + x == x; }
    }
  }

  lemma ExponentCuts(t: string, x: string)
    requires Delimits(x) && ScanExponent(t + x).Some?
    ensures ScanExponent(t).Some?
  {
    if t != [] && (t[0] == 'e' || t[0] == 'E') {
      DropFront(t, x, 1);
      var n := if |t| > 1 && (t[1] == '+' || t[1] == '-') then 2 else 1;
      DropFront(t, x, n);
      if t[n..] == [] { assert t[n..] + x == x; }
    }
  }

  lemma {:induction false} BytesCut(t: string, x: string)
    requires ReadBytes(t + x).Some? && |ReadBytes(t + x).value.1| >= |x|
    ensures ReadBytes(t).Some?
    decreases |t|
  {
    assert t == [] ==> t + x == x;
    ReadLeavesLess(x);
    if t != [] && t[0] == '\\' {
      var n := ReadEscape(t + x).value.1;
      ReadLeavesLess((t + x)[n..]);
      assert n <= |t|;
      EscapeCuts(t, x);
      DropFront(t, x, n);
      BytesCut(t[n..], x);
    } else if t != [] && t[0] != '"' {
      DropFront(t, x, 1);
      BytesCut(t[1..], x);
    }
  }

  lemma EscapeCuts(t: string, x: string)
    requires t != [] && t[0] == '\\' && ReadEscape(t + x).Some? && ReadEscape(t + x).value.1 <= |t|
    ensures ReadEscape(t) == ReadEscape(t + x)
  {
    assert forall i :: 0 <= i < |t| ==> (t + x)[i] == t[i];
  }

  lemma StringCuts(t: string, x: string)
    requires ScanString(t + x).Some? && |ScanString(t + x).value| >= |x|
    ensures ScanString(t).Some?
  {
    BytesCut(t, x);
    BytesExtend(t, x);
  }

  lemma {:induction false} ValueCuts(t: string, x: string)
    requires Delimits(x) && ScanValue(t + x).Some? && |ScanValue(t + x).value| >= |x|
    ensures ScanValue(t).Some?
    decreases |t|, 1
  {
    assert t == [] ==> t + x == x;
    if t != [] {
      DropFront(t, x, 1);
      if t[0] == '"' {
        StringCuts(t[1..], x);
      } else if t[0] == '[' || t[0] == '{' {
        BracketCuts(t, x);
      } else if t[0] != 't' && t[0] != 'f' && t[0] != 'n' {
        NumberCuts(t, x);
      } else {
        WordCuts(t, x, if t[0] == 't' then "true" else if t[0] == 'f' then "false" else "null");
      }
    }
  }

  lemma WordCuts(t: string, x: string, w: string)
    requires ScanWord(t + x, w).Some? && |ScanWord(t + x, w).value| >= |x|
    ensures ScanWord(t, w).Some?
  {
    assert w == (t + x)[..|w|] == t[..|w|];
  }

  lemma {:induction false} BracketCuts(t: string, x: string)
    requires Delimits(x) && t != [] && (t[0] == '[' || t[0] == '{')
    requires ScanValue(t + x).Some? && |ScanValue(t + x).value| >= |x|
    ensures ScanValue(t).Some?
    decreases |t|, 0
  {
    DropFront(t, x, 1);
    var u := Trim(t[1..]);
    TrimExtends(t[1..], x);
    assert u == [] ==> u + x == x;
    if t[0] == '[' {
      if u == [] || u[0] != ']' { ElementsCut(u, x); }
    } else if u != [] && u[0] != '}' {
      MembersCut(u, x);
    }
  }

  lemma {:induction false} ElementsCut(t: string, x: string)
    requires Delimits(x) && ScanElements(t + x).Some? && |ScanElements(t + x).value| >= |x|
    ensures ScanElements(t).Some?
    decreases |t|, 2
  {
    ValueCuts(t, x);
    ValueExtends(t, x);
    var v := ScanValue(t).value;
    var u := Trim(v);
    TrimExtends(v, x);
    assert u == [] ==> u + x == x;
    if u != [] && u[0] == ',' {
      DropFront(u, x, 1);
      TrimExtends(u[1..], x);
      ElementsCut(Trim(u[1..]), x);
    }
  }

  lemma {:induction false} MembersCut(t: string, x: string)
    requires Delimits(x) && ScanMembers(t + x).Some? && |ScanMembers(t + x).value| >= |x|
    ensures ScanMembers(t).Some?
    decreases |t|, 2
  {
    assert t == [] ==> t + x == x;
    DropFront(t, x, 1);
    StringCuts(t[1..], x);
    StringExtends(t[1..], x);
    var s := ScanString(t[1..]).value;
    var k := Trim(s);
    TrimExtends(s, x);
    assert k == [] ==> k + x == x;
    DropFront(k, x, 1);
    TrimExtends(k[1..], x);
    var w := Trim(k[1..]);
    ValueCuts(w, x);
    ValueExtends(w, x);
    var v := ScanValue(w).value;
    var u := Trim(v);
    TrimExtends(v, x);
    assert u == [] ==> u + x == x;
    if u != [] && u[0] == ',' {
      DropFront(u, x, 1);
      TrimExtends(u[1..], x);
      MembersCut(Trim(u[1..]), x);
    }
  }

  /** What a reader takes for a value in front of a delimiter is a complete value. */
  lemma TakenIsComplete(v: string, x: string)
    requires Delimits(x) && ScanValue(v + x) == Some(x)
    ensures Complete(v)
  {
    ValueCuts(v, x);
    ValueExtends(v, x);
  }

  // ---------- what is left behind is the end of the text ----------

  predicate Suffix(r: string, t: string) {
    |r| <= |t| && t[|t| - |r|..] == r
  }

  lemma SuffixChain(r: string, s: string, t: string)
    requires Suffix(r, s) && Suffix(s, t)
    ensures Suffix(r, t)
  {}

  lemma {:induction false} TrimIsSuffix(t: string)
    ensures Suffix(Trim(t), t)
  {
    if t != [] && Space(t[0]) {
      TrimIsSuffix(t[1..]);
      SuffixChain(Trim(t), t[1..], t);
    }
  }

  lemma {:induction false} DigitsAreSuffix(t: string)
    ensures Suffix(DropDigits(t), t)
  {
    if t != [] && Digit(t[0]) {
      DigitsAreSuffix(t[1..]);
      SuffixChain(DropDigits(t), t[1..], t);
    }
  }

  lemma SomeDigitsSuffix(t: string, n: nat)
    requires n <= |t| && SomeDigits(t[n..]).Some?
    ensures Suffix(SomeDigits(t[n..]).value, t)
  {
    DigitsAreSuffix(t[n..]);
    SuffixChain(SomeDigits(t[n..]).value, t[n..], t);
  }

  lemma IntIsSuffix(t: string)
    requires ScanInt(t).Some?
    ensures Suffix(ScanInt(t).value, t)
  {
    assert t[0..] == t;
    if t[0] != '0' { SomeDigitsSuffix(t, 0); }
  }

  lemma FractionIsSuffix(t: string)
    requires ScanFraction(t).Some?
    ensures Suffix(ScanFraction(t).value, t)
  {
    if t != [] && t[0] == '.' { SomeDigitsSuffix(t, 1); }
  }

  lemma ExponentIsSuffix(t: string)
    requires ScanExponent(t).Some?
    ensures Suffix(ScanExponent(t).value, t)
  {
    if t != [] && (t[0] == 'e' || t[0] == 'E') {
      SomeDigitsSuffix(t, if |t| > 1 && (t[1] == '+' || t[1] == '-') then 2 else 1);
    }
  }

  lemma NumberIsSuffix(t: string)
    requires ScanNumber(t).Some?
    ensures Suffix(ScanNumber(t).value, t)
  {
    var u := if t != [] && t[0] == '-' then t[1..] else t;
    IntIsSuffix(u);
    var i := ScanInt(u).value;
    FractionIsSuffix(i);
    var f := ScanFraction(i).value;
    ExponentIsSuffix(f);
    SuffixChain(ScanNumber(t).value, f, i);
    SuffixChain(ScanNumber(t).value, i, u);
    SuffixChain(ScanNumber(t).value, u, t);
  }

  lemma {:induction false} BytesAreSuffix(t: string)
    requires ReadBytes(t).Some?
    ensures Suffix(ReadBytes(t).value.1, t)
    decreases |t|
  {
    var r := ReadBytes(t).value.1;
    if t[0] == '\\' {
      var u := t[ReadEscape(t).value.1..];
      BytesAreSuffix(u);
      SuffixChain(r, u, t);
    } else if t[0] != '"' {
      BytesAreSuffix(t[1..]);
      SuffixChain(r, t[1..], t);
    }
  }

  lemma StringIsSuffix(t: string, n: nat)
    requires n <= |t| && ScanString(t[n..]).Some?
    ensures Suffix(ScanString(t[n..]).value, t)
  {
    BytesAreSuffix(t[n..]);
    SuffixChain(ScanString(t[n..]).value, t[n..], t);
  }

  /** The first byte goes, then spaces. */
  lemma NextIsSuffix(t: string)
    requires t != []
    ensures Suffix(Trim(t[1..]), t) && Suffix(t[1..], t)
  {
    TrimIsSuffix(t[1..]);
    SuffixChain(Trim(t[1..]), t[1..], t);
  }

  lemma {:induction false} ValueIsSuffix(t: string)
    requires ScanValue(t).Some?
    ensures Suffix(ScanValue(t).value, t)
    decreases |t|, 1
  {
    var r := ScanValue(t).value;
    if t[0] == '"' {
      StringIsSuffix(t, 1);
    } else if t[0] == '[' || t[0] == '{' {
      var u := Trim(t[1..]);
      NextIsSuffix(t);
      if u[0] == (if t[0] == '[' then ']' else '}') { NextIsSuffix(u); }
      else if t[0] == '[' { ElementsAreSuffix(u); }
      else { MembersAreSuffix(u); }
      SuffixChain(r, u, t);
    } else if t[0] != 't' && t[0] != 'f' && t[0] != 'n' {
      NumberIsSuffix(t);
    }
  }

  lemma {:induction false} ElementsAreSuffix(t: string)
    requires ScanElements(t).Some?
    ensures Suffix(ScanElements(t).value, t)
    decreases |t|, 2
  {
    var r, v := ScanElements(t).value, ScanValue(t).value;
    ValueIsSuffix(t);
    var u := Trim(v);
    TrimIsSuffix(v);
    NextIsSuffix(u);
    if u[0] == ',' {
      var w := Trim(u[1..]);
      ElementsAreSuffix(w);
      SuffixChain(r, w, u);
    }
    SuffixChain(r, u, v);
    SuffixChain(r, v, t);
  }

  lemma {:induction false} MembersAreSuffix(t: string)
    requires ScanMembers(t).Some?
    ensures Suffix(ScanMembers(t).value, t)
    decreases |t|, 2
  {
    var r, s := ScanMembers(t).value, ScanString(t[1..]).value;
    StringIsSuffix(t, 1);
    var k := Trim(s);
    TrimIsSuffix(s);
    NextIsSuffix(k);
    var w := Trim(k[1..]);
    ValueIsSuffix(w);
    var v := ScanValue(w).value;
    var u := Trim(v);
    TrimIsSuffix(v);
    NextIsSuffix(u);
    if u[0] == ',' {
      var x := Trim(u[1..]);
      MembersAreSuffix(x);
      SuffixChain(r, x, u);
    }
    SuffixChain(r, u, v);
    SuffixChain(r, v, w);
    SuffixChain(r, w, k);
    SuffixChain(r, k, s);
    SuffixChain(r, s, t);
  }
}
