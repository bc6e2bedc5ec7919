/**
 * Names and passwords are written into SQL statements as quoted identifiers and escaped literals.
 * The readers below follow the servers' own rules and serve as the reference.
 */
module SqlQuoting {
  import opened Common

  const NUL: char := '\0'
  const CTRLZ: char := 26 as char

  // ---------- identifiers ----------

  function Strip(s: string): string {
    if s == [] then [] else (if s[0] == NUL then [] else [s[0]]) + Strip(s[1..])
  }

  function Double(s: string, q: char): string {
    if s == [] then [] else (if s[0] == q then [q, q] else [s[0]]) + Double(s[1..], q)
  }

  /** The back-quote for MySQL, the double quote for PostgreSQL. */
  function Quote(s: string, q: char): string {
    [q] + Double(Strip(s), q) + [q]
  }

  function QuoteMySQLIdentifier(s: string): string { Quote(s, '`') }

  function QuotePostgreSQLIdentifier(s: string): string { Quote(s, '"') }

  /** NULs go, every other character stays, in order: these laws leave no choice. */
  lemma {:induction false} StripLaws(a: string, b: string, c: char)
    ensures NUL !in Strip(a)
    ensures Strip(a + b) == Strip(a) + Strip(b)
    ensures Strip([c]) == if c == NUL then [] else [c]
    ensures NUL !in a ==> Strip(a) == a
  {
    assert [c][1..] == [];
    if a == [] {
      assert a + b == b;
    } else {
      assert (a + b)[1..] == a[1..] + b;
      StripLaws(a[1..], b, c);
      assert a == [a[0]] + a[1..];
    }
  }

  /** The body of a quoted identifier and what follows its closing quote; a doubled quote stands for one. */
  function ReadBody(t: string, q: char): Option<(string, string)> {
    if t == [] then None
    else if t[0] != q then Prepend(t[0], ReadBody(t[1..], q))
    else if |t| > 1 && t[1] == q then Prepend(q, ReadBody(t[2..], q))
    else Some(([], t[1..]))
  }

  function Prepend(c: char, r: Option<(string, string)>): Option<(string, string)> {
    if r.None? then None else Some(([c] + r.value.0, r.value.1))
  }

  function ReadIdentifier(t: string, q: char): Option<(string, string)> {
    if t == [] || t[0] != q then None else ReadBody(t[1..], q)
  }

  lemma {:induction false} ReadDoubled(s: string, q: char, rest: string)
    requires rest == [] || rest[0] != q
    ensures ReadBody(Double(s, q) + [q] + rest, q) == Some((s, rest))
  {
    var t := Double(s, q) + [q] + rest;
    if s == [] {
      assert t == [q] + rest && t[1..] == rest;
    } else {
      var t' := Double(s[1..], q) + [q] + rest;
      assert t == (if s[0] == q then [q, q] else [s[0]]) + t';
      ReadDoubled(s[1..], q, rest);
      assert s == [s[0]] + s[1..];
    }
  }

  lemma {:induction false} ReadTooFar(s: string, q: char, rest: string, v: string, rest': string)
    requires rest != [] && rest[0] == q && ReadBody(Double(s, q) + [q] + rest, q) == Some((v, rest'))
    ensures |rest'| < |rest|
    decreases |s|
  {
    var t := Double(s, q) + [q] + rest;
    if s == [] {
      assert t == [q] + rest && t[2..] == rest[1..];
      ReadShrinks(rest[1..], q);
    } else {
      var t' := Double(s[1..], q) + [q] + rest;
      assert t == (if s[0] == q then [q, q] else [s[0]]) + t';
      ReadTooFar(s[1..], q, rest, ReadBody(t', q).value.0, rest');
    }
  }

  lemma {:induction false} ReadShrinks(t: string, q: char)
    ensures ReadBody(t, q).Some? ==> |ReadBody(t, q).value.1| < |t|
  {
    if t != [] {
      if t[0] != q { ReadShrinks(t[1..], q); }
      else if |t| > 1 && t[1] == q { ReadShrinks(t[2..], q); }
    }
  }

  /**
   * A quoted identifier reads back as the original without NULs and ends exactly at its closing
   * quote, exactly when what follows does not begin with a further quote.
   */
  lemma IdentifierRoundTrip(s: string, q: char, rest: string)
    ensures ReadIdentifier(Quote(s, q) + rest, q) == Some((Strip(s), rest)) <==> rest == [] || rest[0] != q
  {
    var body := Double(Strip(s), q) + [q] + rest;
    assert Quote(s, q) + rest == [q] + body;
    assert ([q] + body)[1..] == body;
    if rest == [] || rest[0] != q {
      ReadDoubled(Strip(s), q, rest);
    } else if ReadBody(body, q) == Some((Strip(s), rest)) {
      ReadTooFar(Strip(s), q, rest, Strip(s), rest);
    }
  }

  /** A name without NULs reads back as itself. */
  lemma NameRoundTrip(s: string, q: char, rest: string)
    requires NUL !in s
    ensures ReadIdentifier(Quote(s, q) + rest, q) == Some((s, rest)) <==> rest == [] || rest[0] != q
  {
    StripLaws(s, [], NUL);
    IdentifierRoundTrip(s, q, rest);
  }

  /** MySQL's form, read with MySQL's quote. */
  lemma MySQLIdentifierRoundTrip(s: string, rest: string)
    ensures ReadIdentifier(QuoteMySQLIdentifier(s) + rest, '`') == Some((Strip(s), rest)) <==> rest == [] || rest[0] != '`'
    ensures NUL !in s ==> (ReadIdentifier(QuoteMySQLIdentifier(s) + rest, '`') == Some((s, rest)) <==> rest == [] || rest[0] != '`')
  {
    IdentifierRoundTrip(s, '`', rest);
    if NUL !in s { NameRoundTrip(s, '`', rest); }
  }

  /** PostgreSQL's form, read with PostgreSQL's quote. */
  lemma PostgreSQLIdentifierRoundTrip(s: string, rest: string)
    ensures ReadIdentifier(QuotePostgreSQLIdentifier(s) + rest, '"') == Some((Strip(s), rest)) <==> rest == [] || rest[0] != '"'
    ensures NUL !in s ==> (ReadIdentifier(QuotePostgreSQLIdentifier(s) + rest, '"') == Some((s, rest)) <==> rest == [] || rest[0] != '"')
  {
    IdentifierRoundTrip(s, '"', rest);
    if NUL !in s { NameRoundTrip(s, '"', rest); }
  }

  /** Different names, NULs aside, stay different. */
  lemma QuoteIsInjective(a: string, b: string, q: char)
    ensures Quote(a, q) == Quote(b, q) <==> Strip(a) == Strip(b)
  {
    IdentifierRoundTrip(a, q, []);
    IdentifierRoundTrip(b, q, []);
    assert Quote(a, q) + [] == Quote(a, q) && Quote(b, q) + [] == Quote(b, q);
  }

  // ---------- literals ----------

  function EscapeChar(c: char): string {
    if c == NUL then "\\0"
    else if c == '\'' then "''"
    else if c == '"' then "\\\""
    else if c == '\\' then "\\\\"
    else if c == '\n' then "\\n"
    else if c == '\r' then "\\r"
    else if c == CTRLZ then "\\Z"
    else [c]
  }

  function Escape(s: string): string {
    if s == [] then [] else EscapeChar(s[0]) + Escape(s[1..])
  }

  lemma {:induction false} EscapeAppend(a: string, b: string)
    ensures Escape(a + b) == Escape(a) + Escape(b)
  {
    if a == [] {
      assert a + b == b;
    } else {
      assert (a + b)[1..] == a[1..] + b;
      EscapeAppend(a[1..], b);
    }
  }

  /** The loop that builds the literal. */
  method EscapeMySQLString(value: string) returns (b: string)
    ensures b == Escape(value)
  {
    b := [];
    for i := 0 to |value|
      invariant b == Escape(value[..i])
    {
      var r := value[i];
      assert value[..i + 1] == value[..i] + [r];
      EscapeAppend(value[..i], [r]);
      assert Escape([r]) == EscapeChar(r) + Escape([r][1..]) == EscapeChar(r);
      if r == NUL { b := b + "\\0"; }
      else if r == '\'' { b := b + "''"; }
      else if r == '"' { b := b + "\\\""; }
      else if r == '\\' { b := b + "\\\\"; }
      else if r == '\n' { b := b + "\\n"; }
      else if r == '\r' { b := b + "\\r"; }
      else if r == CTRLZ { b := b + "\\Z"; }
      else { b := b + [r]; }
    }
    assert value[..|value|] == value;
  }

  /** What a backslash and the character behind it stand for; wildcards keep the backslash. */
  function Unescape(c: char): string {
    if c == '0' then [NUL]
    else if c == 'b' then [8 as char]
    else if c == 'n' then ['\n']
    else if c == 'r' then ['\r']
    else if c == 't' then ['\t']
    else if c == 'Z' then [CTRLZ]
    else if c == '%' || c == '_' then ['\\', c]
    else [c]
  }

  /** The value of a literal and what follows it; `backslash` is off under NO_BACKSLASH_ESCAPES. */
  function ReadRest(t: string, backslash: bool): Option<(string, string)> {
    if t == [] then None
    else if t[0] == '\'' then
      (if |t| > 1 && t[1] == '\'' then Join(['\''], ReadRest(t[2..], backslash)) else Some(([], t[1..])))
    else if backslash && t[0] == '\\' then
      (if |t| == 1 then None else Join(Unescape(t[1]), ReadRest(t[2..], backslash)))
    else Join([t[0]], ReadRest(t[1..], backslash))
  }

  function Join(s: string, r: Option<(string, string)>): Option<(string, string)> {
    if r.None? then None else Some((s + r.value.0, r.value.1))
  }

  function Literal(s: string): string { ['\''] + Escape(s) + ['\''] }

  function ReadLiteral(t: string, backslash: bool): Option<(string, string)> {
    if t == [] || t[0] != '\'' then None else ReadRest(t[1..], backslash)
  }

  lemma ReadBackslash(c: char, t: string)
    ensures ReadRest(['\\', c] + t, true) == Join(Unescape(c), ReadRest(t, true))
  {
    assert (['\\', c] + t)[2..] == t;
  }

  /** Every escape is undone by the reader. */
  lemma UnescapeEscape(c: char)
    ensures var e := EscapeChar(c);
      if c == '\'' then e == ['\'', '\''] else if |e| == 2 then e == ['\\', e[1]] && Unescape(e[1]) == [c] else e == [c] && c != '\\'
  {}

  lemma ReadEscapedChar(c: char, t: string)
    ensures ReadRest(EscapeChar(c) + t, true) == Join([c], ReadRest(t, true))
  {
    var e := EscapeChar(c);
    UnescapeEscape(c);
    if c == '\'' {
      assert (e + t)[2..] == t;
    } else if |e| == 2 {
      ReadBackslash(e[1], t);
    } else {
      assert (e + t)[1..] == t;
    }
  }

  lemma {:induction false} ReadEscaped(s: string, rest: string)
    requires rest == [] || rest[0] != '\''
    ensures ReadRest(Escape(s) + ['\''] + rest, true) == Some((s, rest))
  {
    if s == [] {
      assert Escape(s) + ['\''] + rest == ['\''] + rest;
      assert (['\''] + rest)[1..] == rest;
    } else {
      var t := Escape(s[1..]) + ['\''] + rest;
      assert Escape(s) + ['\''] + rest == EscapeChar(s[0]) + t;
      ReadEscapedChar(s[0], t);
      ReadEscaped(s[1..], rest);
      assert s == [s[0]] + s[1..];
    }
  }

  lemma {:induction false} ReadRestShrinks(t: string, backslash: bool)
    ensures ReadRest(t, backslash).Some? ==> |ReadRest(t, backslash).value.1| < |t|
  {
    if t != [] {
      if t[0] == '\'' { if |t| > 1 && t[1] == '\'' { ReadRestShrinks(t[2..], backslash); } }
      else if backslash && t[0] == '\\' { if |t| > 1 { ReadRestShrinks(t[2..], backslash); } }
      else { ReadRestShrinks(t[1..], backslash); }
    }
  }

  /** In front of a further quote the reader takes the closing quote for a doubled one. */
  lemma {:induction false} LiteralReadsTooFar(s: string, rest: string, backslash: bool)
    requires rest != [] && rest[0] == '\''
    ensures var r := ReadRest(Escape(s) + ['\''] + rest, backslash); r.Some? ==> |r.value.1| < |rest|
  {
    if s == [] {
      var t := Escape(s) + ['\''] + rest;
      assert t == ['\''] + rest && t[2..] == rest[1..];
      ReadRestShrinks(rest[1..], backslash);
    } else {
      var t := Escape(s[1..]) + ['\''] + rest;
      assert Escape(s) + ['\''] + rest == EscapeChar(s[0]) + t;
      if backslash { ReadEscapedChar(s[0], t); } else { ReadPlainChar(s[0], t); }
      LiteralReadsTooFar(s[1..], rest, backslash);
    }
  }

  lemma LiteralBody(s: string, rest: string, backslash: bool)
    ensures ReadLiteral(Literal(s) + rest, backslash) == ReadRest(Escape(s) + ['\''] + rest, backslash)
  {
    var body := Escape(s) + ['\''] + rest;
    assert Literal(s) + rest == ['\''] + body;
    assert (['\''] + body)[1..] == body;
  }

  /**
   * Under the default mode a literal reads back as the original and ends at its closing quote, exactly
   * when what follows does not begin with a further quote.
   */
  lemma LiteralRoundTrip(s: string, rest: string)
    ensures ReadLiteral(Literal(s) + rest, true) == Some((s, rest)) <==> rest == [] || rest[0] != '\''
  {
    LiteralBody(s, rest, true);
    if rest == [] || rest[0] != '\'' { ReadEscaped(s, rest); } else { LiteralReadsTooFar(s, rest, true); }
  }

  // ---------- without backslash escapes ----------

  /** What the server makes of the literal then: the escapes are taken literally. */
  function Taken(s: string): string {
    if s == [] then [] else (if s[0] == '\'' then ['\''] else EscapeChar(s[0])) + Taken(s[1..])
  }

  predicate Inert(c: char) { c == '\'' || EscapeChar(c) == [c] }

  /** A character that is no quote is taken as it stands. */
  lemma ReadOne(c: char, t: string)
    requires c != '\''
    ensures ReadRest([c] + t, false) == Join([c], ReadRest(t, false))
  {
    assert ([c] + t)[1..] == t;
  }

  lemma JoinTwice(c: char, d: char, r: Option<(string, string)>)
    ensures Join([c], Join([d], r)) == Join([c, d], r)
  {
    if r.Some? { assert [c] + ([d] + r.value.0) == [c, d] + r.value.0; }
  }

  lemma ReadPlainChar(c: char, t: string)
    ensures ReadRest(EscapeChar(c) + t, false) == Join(if c == '\'' then ['\''] else EscapeChar(c), ReadRest(t, false))
  {
    var e := EscapeChar(c);
    UnescapeEscape(c);
    if c == '\'' {
      assert (e + t)[2..] == t;
    } else if |e| == 2 {
      EscapedHasNoQuote(c);
      assert e + t == ['\\'] + ([e[1]] + t);
      ReadOne('\\', [e[1]] + t);
      ReadOne(e[1], t);
      JoinTwice('\\', e[1], ReadRest(t, false));
    } else {
      ReadOne(c, t);
    }
  }

  lemma EscapedHasNoQuote(c: char)
    requires c != '\''
    ensures forall i :: 0 <= i < |EscapeChar(c)| ==> EscapeChar(c)[i] != '\''
  {}

  lemma {:induction false} ReadTaken(s: string, rest: string)
    requires rest == [] || rest[0] != '\''
    ensures ReadRest(Escape(s) + ['\''] + rest, false) == Some((Taken(s), rest))
  {
    if s == [] {
      assert Escape(s) + ['\''] + rest == ['\''] + rest;
      assert (['\''] + rest)[1..] == rest;
    } else {
      var t := Escape(s[1..]) + ['\''] + rest;
      assert Escape(s) + ['\''] + rest == EscapeChar(s[0]) + t;
      ReadPlainChar(s[0], t);
      ReadTaken(s[1..], rest);
    }
  }

  lemma {:induction false} TakenLength(s: string)
    ensures |Taken(s)| >= |s|
    ensures |Taken(s)| == |s| <==> forall i :: 0 <= i < |s| ==> Inert(s[i])
    ensures (forall i :: 0 <= i < |s| ==> Inert(s[i])) ==> Taken(s) == s
  {
    if s != [] {
      TakenLength(s[1..]);
      assert s == [s[0]] + s[1..];
      assert forall i :: 0 < i < |s| ==> s[i] == s[1..][i - 1];
      assert forall i :: 0 <= i < |s[1..]| ==> s[1..][i] == s[i + 1];
    }
  }

  /**
   * With backslash escapes off the literal still ends at the same closing quote, under the same
   * condition; its value is the original exactly when no character needed a backslash.
   */
  lemma LiteralWithoutBackslashes(s: string, rest: string)
    ensures
      var r := ReadLiteral(Literal(s) + rest, false);
      && (r.Some? && r.value.1 == rest <==> rest == [] || rest[0] != '\'')
      && (r.Some? && r.value.1 == rest ==> (r.value.0 == s <==> forall i :: 0 <= i < |s| ==> Inert(s[i])))
  {
    LiteralBody(s, rest, false);
    if rest == [] || rest[0] != '\'' {
      ReadTaken(s, rest);
      TakenLength(s);
    } else {
      LiteralReadsTooFar(s, rest, false);
    }
  }
}
