/**
 * The JSON Patch printer and, as its reference, a reader of patch documents without whitespace
 * between tokens, after section 4 of RFC 6902.
 */
module JsonPatch {
  import opened Common
  import opened JsonStrings
  import opened JsonValues

  // ---------- patches ----------

  /** An operation; an empty `from` is an absent one. */
  datatype Patch = Patch(op: string, path: string, from: string, value: Option<string>)

  // Texts are given with what follows them, so that printing and reading meet at the same seams.

  function MemberThen(key: string, v: string, t: string): string {
    "\"" + (key + ("\"" + (":\"" + (Escaped(v) + ("\"" + t)))))
  }

  function ValueThen(p: Patch, t: string): string {
    if p.value.Some? then ",\"value\":" + (p.value.value + ("}" + t)) else "}" + t
  }

  function FromThen(p: Patch, t: string): string {
    if p.from != "" then "," + MemberThen("from", p.from, ValueThen(p, t)) else ValueThen(p, t)
  }

  function PatchThen(p: Patch, t: string): string {
    "{" + MemberThen("op", p.op, "," + MemberThen("path", p.path, FromThen(p, t)))
  }

  function ListThen(ps: seq<Patch>, t: string): string {
    if ps == [] then t
    else if |ps| == 1 then PatchThen(ps[0], t)
    else PatchThen(ps[0], "," + ListThen(ps[1..], t))
  }

  function ToJSON(ps: seq<Patch>): string { "[" + ListThen(ps, "]") }

  // The printer appends to a growing buffer; `rest` is what is still to come.

  lemma Assoc(a: string, b: string, c: string)
    ensures (a + b) + c == a + (b + c)
  {}

  method AppendMember(dst: string, key: string, v: string, ghost rest: string) returns (buf: string)
    ensures buf + rest == dst + MemberThen(key, v, rest)
  {
    buf := dst + "\"";
    buf := buf + key;
    buf := buf + "\"";
    buf := buf + ":\"";
    ghost var open := buf;
    buf := AppendEscapedString(buf, v);
    buf := buf + "\"";
    MemberAssoc(dst, key, v, rest);
    assert buf == ((((dst + "\"") + key) + "\"") + ":\"") + Escaped(v) + "\"";
  }

  lemma MemberAssoc(dst: string, key: string, v: string, rest: string)
    ensures ((((((dst + "\"") + key) + "\"") + ":\"") + Escaped(v)) + "\"") + rest == dst + MemberThen(key, v, rest)
  {
    var e := Escaped(v);
    Assoc(((((dst + "\"") + key) + "\"") + ":\"") + e, "\"", rest);
    Assoc((((dst + "\"") + key) + "\"") + ":\"", e, "\"" + rest);
    Assoc(((dst + "\"") + key) + "\"", ":\"", e + ("\"" + rest));
    Assoc((dst + "\"") + key, "\"", ":\"" + (e + ("\"" + rest)));
    Assoc(dst + "\"", key, "\"" + (":\"" + (e + ("\"" + rest))));
    Assoc(dst, "\"", key + ("\"" + (":\"" + (e + ("\"" + rest)))));
  }

  method AppendValue(dst: string, p: Patch, ghost rest: string) returns (buf: string)
    ensures buf + rest == dst + ValueThen(p, rest)
  {
    buf := dst;
    if p.value.Some? {
      buf := buf + ",\"value\":";
      buf := buf + p.value.value;
      Assoc(dst, ",\"value\":", p.value.value + ("}" + rest));
      Assoc(dst + ",\"value\":", p.value.value, "}" + rest);
    }
    Assoc(buf, "}", rest);
    buf := buf + "}";
  }

  method AppendPatch(dst: string, p: Patch, ghost rest: string) returns (buf: string)
    ensures buf + rest == dst + PatchThen(p, rest)
  {
    ghost var path := MemberThen("path", p.path, FromThen(p, rest));
    Assoc(dst, "{", MemberThen("op", p.op, "," + path));
    buf := dst + "{";
    buf := AppendMember(buf, "op", p.op, "," + path);
    Assoc(buf, ",", path);
    buf := buf + ",";
    buf := AppendMember(buf, "path", p.path, FromThen(p, rest));
    if p.from != "" {
      Assoc(buf, ",", MemberThen("from", p.from, ValueThen(p, rest)));
      buf := buf + ",";
      buf := AppendMember(buf, "from", p.from, ValueThen(p, rest));
    }
    buf := AppendValue(buf, p, rest);
  }

  /** The printer, patch after patch. */
  method Print(ps: seq<Patch>) returns (buf: string)
    ensures buf == ToJSON(ps)
  {
    if |ps| == 0 {
      assert ToJSON(ps) == "[]";
      return "[]";
    }
    buf := "[";
    for i := 0 to |ps|
      invariant buf + Remaining(ps, i) == ToJSON(ps)
    {
      assert ps[i..][1..] == ps[i + 1..];
      if i > 0 {
        Assoc(buf, ",", ListThen(ps[i..], "]"));
        buf := buf + ",";
      }
      buf := AppendPatch(buf, ps[i], Remaining(ps, i + 1));
    }
    buf := buf + "]";
  }

  /** What is still to be printed behind the first `i` patches. */
  function Remaining(ps: seq<Patch>, i: nat): string
    requires i <= |ps|
  {
    if i == |ps| then "]" else if i == 0 then ListThen(ps, "]") else "," + ListThen(ps[i..], "]")
  }

  // ---------- reading patches ----------

  datatype Fields = Fields(op: Option<string>, path: Option<string>, from: Option<string>, value: Option<string>)

  /** One member: the three strings, the value as it stands, anything else is ignored. */
  function ReadMember(t: string, f: Fields): (r: Option<(Fields, string)>)
    ensures r.Some? ==> |r.value.1| < |t|
  {
    if t == [] || t[0] != '"' || ScanString(t[1..]).None? then None
    else
      var key, u := ReadString(t[1..]).value.0, ScanString(t[1..]).value;
      if u == [] || u[0] != ':' then None
      else if key == "op" || key == "path" || key == "from" then
        if |u| < 2 || u[1] != '"' || ScanString(u[2..]).None? then None
        else
          var v := ReadString(u[2..]).value.0;
          var f' := if key == "op" then f.(op := Some(v)) else if key == "path" then f.(path := Some(v)) else f.(from := Some(v));
          Some((f', ScanString(u[2..]).value))
      else
        var v := ScanValue(u[1..]);
        if v.None? then None
        else Some((if key == "value" then f.(value := Some(u[1..|u| - |v.value|])) else f, v.value))
  }

  function ReadMembers(t: string, f: Fields): (r: Option<(Fields, string)>)
    ensures r.Some? ==> |r.value.1| < |t|
    decreases |t|
  {
    var m := ReadMember(t, f);
    if m.None? || m.value.1 == [] then None
    else if m.value.1[0] == '}' then Some((m.value.0, m.value.1[1..]))
    else if m.value.1[0] == ',' then ReadMembers(m.value.1[1..], m.value.0)
    else None
  }

  const NOTHING := Fields(None, None, None, None)

  function ReadPatch(t: string): (r: Option<(Patch, string)>)
    ensures r.Some? ==> |r.value.1| < |t|
  {
    if t == [] || t[0] != '{' then None
    else
      var m := ReadMembers(t[1..], NOTHING);
      if m.None? || m.value.0.op.None? || m.value.0.path.None? then None
      else
        var f := m.value.0;
        Some((Patch(f.op.value, f.path.value, if f.from.Some? then f.from.value else "", f.value), m.value.1))
  }

  function ReadList(t: string): Option<seq<Patch>>
    decreases |t|
  {
    var p := ReadPatch(t);
    if p.None? || p.value.1 == [] then None
    else if p.value.1 == "]" then Some([p.value.0])
    else if p.value.1[0] == ',' then
      var rest := ReadList(p.value.1[1..]);
      if rest.None? then None else Some([p.value.0] + rest.value)
    else None
  }

  function ReadDocument(t: string): Option<seq<Patch>> {
    if t == "[]" then Some([]) else if t == [] || t[0] != '[' then None else ReadList(t[1..])
  }

  // ---------- round trip ----------

  predicate Plain(c: char) { ' ' <= c < 0x80 as char && c != '"' && c != '\\' }

  lemma {:induction false} PlainIsUnescaped(k: string)
    requires forall i :: 0 <= i < |k| ==> Plain(k[i])
    ensures Escaped(k) == k
  {
    if k != [] {
      PlainIsUnescaped(k[1..]);
      assert k == [k[0]] + k[1..];
    }
  }

  /** What a reader makes of a printed string. */
  function Heard(v: string): Option<string> {
    if AllWritable(Heads(v)) && Utf8(Heads(v)) then Some(Heads(v)) else None
  }

  lemma TextReads(v: string, t: string)
    ensures ReadString(Escaped(v) + ("\"" + t)) == if Heard(v).Some? then Some((Heard(v).value, t)) else None
    ensures ScanString(Escaped(v) + ("\"" + t)) == if Heard(v).Some? then Some(t) else None
  {
    Assoc(Escaped(v), "\"", t);
    ReadEscaped(v, t);
  }

  lemma HeardIsClean(v: string)
    ensures Heard(v) == Some(v) <==> Clean(v)
  {
    Assoc(Escaped(v), "\"", "");
    StringRoundTrip(v, "");
    TextReads(v, "");
  }

  lemma KeyReads(k: string, t: string)
    requires forall i :: 0 <= i < |k| ==> Plain(k[i])
    ensures ReadString(k + ("\"" + t)) == Some((k, t)) && ScanString(k + ("\"" + t)) == Some(t)
  {
    PlainIsUnescaped(k);
    HeardIsClean(k);
    TextReads(k, t);
  }

  lemma Behind(a: string, t: string)
    ensures (a + t)[|a|..] == t
  {}

  function With(f: Fields, key: string, v: string): Fields {
    if key == "op" then f.(op := Some(v)) else if key == "path" then f.(path := Some(v)) else f.(from := Some(v))
  }

  lemma MemberReads(key: string, v: string, t: string, f: Fields)
    requires key == "op" || key == "path" || key == "from"
    ensures ReadMember(MemberThen(key, v, t), f) == if Heard(v).Some? then Some((With(f, key, Heard(v).value), t)) else None
  {
    var u := ":\"" + (Escaped(v) + ("\"" + t));
    Behind("\"", key + ("\"" + u));
    KeyReads(key, u);
    Behind(":\"", Escaped(v) + ("\"" + t));
    TextReads(v, t);
  }

  lemma ValueSeam(t: string)
    ensures "\"value\":" + t == "\"" + ("value" + ("\"" + (":" + t)))
  {}

  lemma ValueReads(v: string, t: string, f: Fields)
    requires Complete(v) && Delimits(t)
    ensures ReadMember("\"value\":" + (v + t), f) == Some((f.(value := Some(v)), t))
  {
    var u := ":" + (v + t);
    ValueSeam(v + t);
    Behind("\"", "value" + ("\"" + u));
    KeyReads("value", u);
    Behind(":", v + t);
    ValueExtends(v, t);
    assert [] + t == t;
    assert u[1..1 + |v|] == v;
    assert |"value"| == 5 && |"op"| == 2 && |"path"| == 4 && |"from"| == 4;
  }

  /** What a reader makes of a printed patch whose value is complete. */
  function Reads(p: Patch): Option<Patch> {
    if Heard(p.op).None? || Heard(p.path).None? || (p.from != "" && Heard(p.from).None?) then None
    else Some(Patch(Heard(p.op).value, Heard(p.path).value, if p.from != "" then Heard(p.from).value else "", p.value))
  }

  predicate CompleteValue(p: Patch) { p.value.Some? ==> Complete(p.value.value) }

  predicate Printable(p: Patch) {
    Clean(p.op) && Clean(p.path) && Clean(p.from) && CompleteValue(p)
  }

  lemma PrintableReads(p: Patch)
    ensures Reads(p) == Some(p) && CompleteValue(p) <==> Printable(p)
  {
    HeardIsClean(p.op);
    HeardIsClean(p.path);
    HeardIsClean(p.from);
  }

  /** What follows a member: the closing brace or, behind a comma, further members. */
  function Continue(f: Fields, t: string): Option<(Fields, string)> {
    if t == [] then None
    else if t[0] == '}' then Some((f, t[1..]))
    else if t[0] == ',' then ReadMembers(t[1..], f)
    else None
  }

  lemma MembersContinue(t: string, f: Fields)
    ensures ReadMembers(t, f) == if ReadMember(t, f).None? then None else Continue(ReadMember(t, f).value.0, ReadMember(t, f).value.1)
  {}

  /** A string member, and the rest behind it. */
  lemma MemberContinues(key: string, v: string, t: string, f: Fields)
    requires key == "op" || key == "path" || key == "from"
    ensures ReadMembers(MemberThen(key, v, t), f) == if Heard(v).Some? then Continue(With(f, key, Heard(v).value), t) else None
    ensures Continue(f, "," + MemberThen(key, v, t)) == ReadMembers(MemberThen(key, v, t), f)
  {
    Behind(",", MemberThen(key, v, t));
    MemberReads(key, v, t, f);
    MembersContinue(MemberThen(key, v, t), f);
  }

  lemma ValueContinues(p: Patch, t: string, f: Fields)
    requires CompleteValue(p)
    ensures Continue(f, ValueThen(p, t)) == Some((if p.value.Some? then f.(value := p.value) else f, t))
  {
    Behind("}", t);
    if p.value.Some? {
      var v := p.value.value;
      var member := "\"value\":" + (v + ("}" + t));
      assert ValueThen(p, t) == "," + member;
      Behind(",", member);
      ValueReads(v, "}" + t, f);
      MembersContinue(member, f);
    }
  }

  lemma WithKeys(f: Fields, v: string)
    ensures With(f, "op", v) == f.(op := Some(v)) && With(f, "path", v) == f.(path := Some(v)) && With(f, "from", v) == f.(from := Some(v))
  {
    assert "op"[0] == 'o' && "path"[0] == 'p' && "from"[0] == 'f';
  }

  lemma FromContinues(p: Patch, t: string, f: Fields)
    requires CompleteValue(p)
    ensures
      if p.from != "" && Heard(p.from).None? then Continue(f, FromThen(p, t)) == None
      else
        var f' := if p.from != "" then f.(from := Heard(p.from)) else f;
        Continue(f, FromThen(p, t)) == Some((if p.value.Some? then f'.(value := p.value) else f', t))
  {
    if p.from != "" {
      MemberContinues("from", p.from, ValueThen(p, t), f);
      if Heard(p.from).Some? {
        WithKeys(f, Heard(p.from).value);
        ValueContinues(p, t, f.(from := Heard(p.from)));
      }
    } else {
      ValueContinues(p, t, f);
    }
  }

  /** A printed patch with a complete value reads as its strings are heard. */
  lemma PatchReads(p: Patch, t: string)
    requires CompleteValue(p)
    ensures ReadPatch(PatchThen(p, t)) == if Reads(p).Some? then Some((Reads(p).value, t)) else None
  {
    var tail := FromThen(p, t);
    var path := MemberThen("path", p.path, tail);
    Behind("{", MemberThen("op", p.op, "," + path));
    MemberContinues("op", p.op, "," + path, NOTHING);
    if Heard(p.op).Some? {
      var f1 := NOTHING.(op := Heard(p.op));
      WithKeys(NOTHING, Heard(p.op).value);
      MemberContinues("path", p.path, tail, f1);
      if Heard(p.path).Some? {
        WithKeys(f1, Heard(p.path).value);
        FromContinues(p, t, f1.(path := Heard(p.path)));
      }
    }
  }

  /** A printed patch reads back as itself. */
  lemma PatchRoundTrip(p: Patch, t: string)
    requires Printable(p)
    ensures ReadPatch(PatchThen(p, t)) == Some((p, t))
  {
    PrintableReads(p);
    PatchReads(p, t);
  }

  // ---------- lists ----------

  function AllRead(ps: seq<Patch>): Option<seq<Patch>> {
    if ps == [] then Some([])
    else if Reads(ps[0]).None? || AllRead(ps[1..]).None? then None
    else Some([Reads(ps[0]).value] + AllRead(ps[1..]).value)
  }

  lemma ReadLast(x: string, p: Patch)
    requires ReadPatch(x) == Some((p, "]"))
    ensures ReadList(x) == Some([p])
  {}

  lemma ReadNext(x: string, p: Patch, rest: string)
    requires ReadPatch(x) == Some((p, "," + rest))
    ensures ReadList(x) == if ReadList(rest).Some? then Some([p] + ReadList(rest).value) else None
  {
    Behind(",", rest);
    assert ("," + rest)[0] == ',' && "]"[0] == ']';
  }

  lemma {:induction false} ListReads(ps: seq<Patch>)
    requires ps != [] && forall i :: 0 <= i < |ps| ==> CompleteValue(ps[i])
    ensures ReadList(ListThen(ps, "]")) == AllRead(ps)
  {
    var text := ListThen(ps, "]");
    if |ps| == 1 {
      PatchReads(ps[0], "]");
      assert ps[1..] == [];
      if Reads(ps[0]).Some? {
        ReadLast(text, Reads(ps[0]).value);
        assert [Reads(ps[0]).value] + [] == [Reads(ps[0]).value];
      }
    } else {
      var rest := ListThen(ps[1..], "]");
      ListReads(ps[1..]);
      PatchReads(ps[0], "," + rest);
      if Reads(ps[0]).Some? { ReadNext(text, Reads(ps[0]).value, rest); }
    }
  }

  lemma {:induction false} AllReadIsSame(ps: seq<Patch>)
    ensures AllRead(ps) == Some(ps) <==> forall i :: 0 <= i < |ps| ==> Reads(ps[i]) == Some(ps[i])
  {
    if ps != [] {
      var rest := ps[1..];
      AllReadIsSame(rest);
      assert ps == [ps[0]] + rest;
      assert forall i :: 0 <= i < |rest| ==> rest[i] == ps[i + 1];
      if forall i :: 0 <= i < |rest| ==> Reads(rest[i]) == Some(rest[i]) {
        forall i | 1 <= i < |ps| ensures Reads(ps[i]) == Some(ps[i]) { assert ps[i] == rest[i - 1]; }
      }
      if AllRead(ps) == Some(ps) { assert [Reads(ps[0]).value] + AllRead(rest).value == [ps[0]] + rest; SameTail(Reads(ps[0]).value, AllRead(rest).value, ps[0], rest); }
    }
  }

  lemma SameTail(p: Patch, a: seq<Patch>, q: Patch, b: seq<Patch>)
    requires [p] + a == [q] + b
    ensures p == q && a == b
  {
    assert p == ([p] + a)[0] && a == ([p] + a)[1..] && b == ([q] + b)[1..];
  }

  // ---------- a reader yields complete values only ----------

  predicate CompleteField(f: Fields) { f.value.Some? ==> Complete(f.value.value) }

  lemma MemberIsComplete(t: string, f: Fields)
    requires CompleteField(f) && ReadMember(t, f).Some? && Delimits(ReadMember(t, f).value.1)
    ensures CompleteField(ReadMember(t, f).value.0)
  {
    var key, u := ReadString(t[1..]).value.0, ScanString(t[1..]).value;
    if key == "value" {
      assert |"value"| == 5 && |"op"| == 2 && |"path"| == 4 && |"from"| == 4;
      var x := ReadMember(t, f).value.1;
      ValueIsSuffix(u[1..]);
      var v := u[1..|u| - |x|];
      assert u[1..] == v + x;
      TakenIsComplete(v, x);
    }
  }

  lemma {:induction false} MembersAreComplete(t: string, f: Fields)
    requires CompleteField(f) && ReadMembers(t, f).Some?
    ensures CompleteField(ReadMembers(t, f).value.0)
    decreases |t|
  {
    var m := ReadMember(t, f).value;
    MemberIsComplete(t, f);
    if m.1[0] == ',' { MembersAreComplete(m.1[1..], m.0); }
  }

  lemma {:induction false} ListIsComplete(t: string)
    requires ReadList(t).Some?
    ensures forall i :: 0 <= i < |ReadList(t).value| ==> CompleteValue(ReadList(t).value[i])
    decreases |t|
  {
    var p := ReadPatch(t).value;
    MembersAreComplete(t[1..], NOTHING);
    if p.1 != "]" { ListIsComplete(p.1[1..]); }
  }

  /** Reading a printed document gives the operations back, in order, exactly when every one is printable. */
  lemma DocumentRoundTrip(ps: seq<Patch>)
    ensures ReadDocument(ToJSON(ps)) == Some(ps) <==> forall i :: 0 <= i < |ps| ==> Printable(ps[i])
  {
    if ps != [] {
      var text := ListThen(ps, "]");
      Behind("[", text);
      assert ToJSON(ps) == "[]" ==> text == "]";
      assert text[0] == '{';
      if ReadList(text) == Some(ps) { ListIsComplete(text); }
      if forall i :: 0 <= i < |ps| ==> CompleteValue(ps[i]) {
        ListReads(ps);
        AllReadIsSame(ps);
        forall i | 0 <= i < |ps| ensures Reads(ps[i]) == Some(ps[i]) <==> Printable(ps[i]) { PrintableReads(ps[i]); }
      }
    }
  }
}
