/**
  A decoder for the proto3 text that `Proto.Render` produces. Its round-trip
  lemma shows the generated document is unambiguous: reading it back gives
  exactly the declarations (names, field types, field numbers, rpc request
  and reply types) that were rendered, in order.
*/
module ProtoParse {
  import opened Wrappers
  import opened Proto

  /** The rest of `s` after the literal `lit`, if `s` starts with it. */
  function Token(lit: string, s: string): (r: Option<string>)
    ensures r.Some? ==> lit + r.value == s
  {
    if |lit| <= |s| && s[..|lit|] == lit then Some(s[|lit|..]) else None
  }

  function IdentSpan(s: string): (n: nat)
    ensures n <= |s|
    ensures forall i :: 0 <= i < n ==> IsIdentChar(s[i])
  {
    if s != [] && IsIdentChar(s[0]) then 1 + IdentSpan(s[1..]) else 0
  }

  /** The longest identifier at the front of `s`, and what follows it. */
  function ParseIdent(s: string): (r: Option<(string, string)>)
    ensures r.Some? ==> IsIdent(r.value.0) && r.value.0 + r.value.1 == s
  {
    var n := IdentSpan(s);
    if n > 0 && IsLetter(s[0]) then Some((s[..n], s[n..])) else None
  }

  function DigitSpan(s: string): (n: nat)
    ensures n <= |s|
    ensures forall i :: 0 <= i < n ==> IsDigit(s[i])
  {
    if s != [] && IsDigit(s[0]) then 1 + DigitSpan(s[1..]) else 0
  }

  predicate AllDigits(d: string)
  {
    forall i :: 0 <= i < |d| ==> IsDigit(d[i])
  }

  /** The value of a decimal numeral, most significant digit first. */
  function DigitsValue(d: string): nat
    requires AllDigits(d)
  {
    if d == [] then 0 else DigitsValue(d[..|d| - 1]) * 10 + (d[|d| - 1] as int - '0' as int)
  }

  function ParseNumber(s: string): (r: Option<(nat, string)>)
    ensures r.Some? ==> |r.value.1| < |s|
  {
    var n := DigitSpan(s);
    if n > 0 then Some((DigitsValue(s[..n]), s[n..])) else None
  }

  /**
    Items read by `item` for as long as the text starts with `lookahead`;
    an item that fails to read fails the whole list.
  */
  function ParseAll<T>(item: string -> Option<(T, string)>, lookahead: string, s: string): (r: Option<(seq<T>, string)>)
    requires forall t :: item(t).Some? ==> |item(t).value.1| < |t|
    ensures r.Some? ==> |r.value.1| <= |s|
    decreases |s|
  {
    if Token(lookahead, s).Some? then
      var x :- item(s);
      var xs :- ParseAll(item, lookahead, x.1);
      Some(([x.0] + xs.0, xs.1))
    else
      Some(([], s))
  }

  function ParseField(s: string): (r: Option<(Field, string)>)
    ensures r.Some? ==> |r.value.1| < |s|
  {
    var s1 :- Token("  ", s);
    var ty :- ParseIdent(s1);
    var s2 :- Token(" ", ty.1);
    var name :- ParseIdent(s2);
    var s3 :- Token(" = ", name.1);
    var num :- ParseNumber(s3);
    var s4 :- Token(";\n", num.1);
    Some((Field(ty.0, name.0, num.0), s4))
  }

  function ParseFields(s: string): (r: Option<(seq<Field>, string)>)
    ensures r.Some? ==> |r.value.1| <= |s|
  {
    ParseAll(ParseField, "  ", s)
  }

  function ParseMessage(s: string): (r: Option<(Message, string)>)
    ensures r.Some? ==> |r.value.1| < |s|
  {
    var s1 :- Token("message ", s);
    var name :- ParseIdent(s1);
    var s2 :- Token(" {\n", name.1);
    var fs :- ParseFields(s2);
    var s3 :- Token("}\n\n", fs.1);
    Some((Message(name.0, fs.0), s3))
  }

  function ParseMessages(s: string): (r: Option<(seq<Message>, string)>)
    ensures r.Some? ==> |r.value.1| <= |s|
  {
    ParseAll(ParseMessage, "message ", s)
  }

  function ParseRpc(s: string): (r: Option<(Rpc, string)>)
    ensures r.Some? ==> |r.value.1| < |s|
  {
    var s1 :- Token("  rpc ", s);
    var name :- ParseIdent(s1);
    var s2 :- Token(" (", name.1);
    var input :- ParseIdent(s2);
    var s3 :- Token(") returns (", input.1);
    var output :- ParseIdent(s3);
    var s4 :- Token(");\n", output.1);
    Some((Rpc(name.0, input.0, output.0), s4))
  }

  function ParseRpcs(s: string): (r: Option<(seq<Rpc>, string)>)
    ensures r.Some? ==> |r.value.1| <= |s|
  {
    ParseAll(ParseRpc, "  rpc ", s)
  }

  function ParseService(s: string): (r: Option<(Service, string)>)
    ensures r.Some? ==> |r.value.1| < |s|
  {
    var s1 :- Token("service ", s);
    var name :- ParseIdent(s1);
    var s2 :- Token(" {\n", name.1);
    var rs :- ParseRpcs(s2);
    var s3 :- Token("}\n\n", rs.1);
    Some((Service(name.0, rs.0), s3))
  }

  function ParseServices(s: string): (r: Option<(seq<Service>, string)>)
    ensures r.Some? ==> |r.value.1| <= |s|
  {
    ParseAll(ParseService, "service ", s)
  }

  /** Reads a whole document; trailing text that is not a declaration is an error. */
  function ParseProto(s: string): Option<ProtoFile>
  {
    var s1 :- Token(SyntaxLine + "package ", s);
    var package :- ParseIdent(s1);
    var s2 :- Token(";\n\n", package.1);
    var ms :- ParseMessages(s2);
    var ss :- ParseServices(ms.1);
    if ss.1 == [] then Some(ProtoFile(package.0, ms.0, ss.0)) else None
  }

  // ---- Round trip ----

  lemma TokenOf(lit: string, rest: string)
    ensures Token(lit, lit + rest) == Some(rest)
  {
    assert (lit + rest)[..|lit|] == lit;
    assert (lit + rest)[|lit|..] == rest;
  }

  /** A separator whose first character differs from `lit`'s first character does not match `lit`. */
  lemma TokenMismatch(lit: string, s: string)
    requires lit != [] && s != [] && s[0] != lit[0]
    ensures Token(lit, s).None?
  {
  }

  lemma {:induction false} IdentSpanOf(id: string, rest: string)
    requires forall i :: 0 <= i < |id| ==> IsIdentChar(id[i])
    requires rest == [] || !IsIdentChar(rest[0])
    ensures IdentSpan(id + rest) == |id|
  {
    if id == [] {
      assert id + rest == rest;
    } else {
      assert (id + rest)[1..] == id[1..] + rest;
      IdentSpanOf(id[1..], rest);
    }
  }

  lemma IdentOf(id: string, rest: string)
    requires IsIdent(id)
    requires rest == [] || !IsIdentChar(rest[0])
    ensures ParseIdent(id + rest) == Some((id, rest))
  {
    IdentSpanOf(id, rest);
    assert (id + rest)[..|id|] == id;
    assert (id + rest)[|id|..] == rest;
  }

  lemma {:induction false} DigitSpanOf(d: string, rest: string)
    requires AllDigits(d)
    requires rest == [] || !IsDigit(rest[0])
    ensures DigitSpan(d + rest) == |d|
  {
    if d == [] {
      assert d + rest == rest;
    } else {
      assert (d + rest)[1..] == d[1..] + rest;
      DigitSpanOf(d[1..], rest);
    }
  }

  /** `Decimal` prints only digits, and reading them back gives the number printed. */
  lemma {:induction false} DecimalRoundTrip(n: nat)
    ensures |Decimal(n)| > 0 && AllDigits(Decimal(n))
    ensures DigitsValue(Decimal(n)) == n
  {
    if n >= 10 {
      DecimalRoundTrip(n / 10);
      var d := Decimal(n / 10);
      assert Decimal(n) == d + [DigitChar(n % 10)];
      assert Decimal(n)[..|Decimal(n)| - 1] == d;
    }
  }

  lemma NumberOf(n: nat, rest: string)
    requires rest == [] || !IsDigit(rest[0])
    ensures ParseNumber(Decimal(n) + rest) == Some((n, rest))
  {
    DecimalRoundTrip(n);
    DigitSpanOf(Decimal(n), rest);
    assert (Decimal(n) + rest)[..|Decimal(n)|] == Decimal(n);
    assert (Decimal(n) + rest)[|Decimal(n)|..] == rest;
  }

  /** One more item in front of a list that reads back. */
  lemma ParseAllCons<T>(item: string -> Option<(T, string)>, lookahead: string, s: string,
                        x: T, after: string, xs: seq<T>, rest: string)
    requires forall t :: item(t).Some? ==> |item(t).value.1| < |t|
    requires Token(lookahead, s).Some?
    requires item(s) == Some((x, after))
    requires ParseAll(item, lookahead, after) == Some((xs, rest))
    ensures ParseAll(item, lookahead, s) == Some(([x] + xs, rest))
  {
  }

  /** Items that read back from their own text, whatever follows it. */
  ghost predicate ReadBack<T>(item: string -> Option<(T, string)>, render: T -> string, lookahead: string, xs: seq<T>)
  {
    forall i, r :: 0 <= i < |xs| ==>
      Token(lookahead, render(xs[i]) + r).Some? && item(render(xs[i]) + r) == Some((xs[i], r))
  }

  lemma ReadBackFirst<T>(item: string -> Option<(T, string)>, render: T -> string, lookahead: string,
                         xs: seq<T>, rest: string)
    requires xs != [] && ReadBack(item, render, lookahead, xs)
    ensures var s := RenderAll(render, xs) + rest;
            Token(lookahead, s).Some? && item(s) == Some((xs[0], RenderAll(render, xs[1..]) + rest))
  {
    assert RenderAll(render, xs) + rest == render(xs[0]) + (RenderAll(render, xs[1..]) + rest);
  }

  lemma ReadBackTail<T>(item: string -> Option<(T, string)>, render: T -> string, lookahead: string, xs: seq<T>)
    requires xs != [] && ReadBack(item, render, lookahead, xs)
    ensures ReadBack(item, render, lookahead, xs[1..])
  {
    forall i, r | 0 <= i < |xs[1..]|
      ensures Token(lookahead, render(xs[1..][i]) + r).Some? && item(render(xs[1..][i]) + r) == Some((xs[1..][i], r))
    {
      assert xs[1..][i] == xs[i + 1];
    }
  }

  /**
    The list reader undoes the list renderer, given that each item reads
    back from its own text whatever follows it, and that the text after
    the list does not start with the lookahead.
  */
  lemma {:induction false} ParseAllRoundTrip<T>(item: string -> Option<(T, string)>, render: T -> string,
                                                lookahead: string, xs: seq<T>, rest: string)
    requires forall t :: item(t).Some? ==> |item(t).value.1| < |t|
    requires ReadBack(item, render, lookahead, xs)
    requires Token(lookahead, rest).None?
    ensures ParseAll(item, lookahead, RenderAll(render, xs) + rest) == Some((xs, rest))
  {
    if xs == [] {
      assert RenderAll(render, xs) + rest == rest;
    } else {
      var tail := RenderAll(render, xs[1..]) + rest;
      ReadBackFirst(item, render, lookahead, xs, rest);
      ReadBackTail(item, render, lookahead, xs);
      ParseAllRoundTrip(item, render, lookahead, xs[1..], rest);
      ParseAllCons(item, lookahead, RenderAll(render, xs) + rest, xs[0], tail, xs[1..], rest);
      assert [xs[0]] + xs[1..] == xs;
    }
  }

  lemma FieldText(f: Field, rest: string)
    ensures RenderField(f) + rest == "  " + (f.typeName + (" " + (f.name + (" = " + (Decimal(f.number) + (";\n" + rest))))))
  {
  }

  /** The reading steps of one field line, over arbitrary intermediate texts. */
  lemma ParseFieldSteps(s: string, s1: string, ty: string, t1: string, s2: string, name: string,
                        t2: string, s3: string, number: nat, t3: string, rest: string)
    requires Token("  ", s) == Some(s1)
    requires ParseIdent(s1) == Some((ty, t1))
    requires Token(" ", t1) == Some(s2)
    requires ParseIdent(s2) == Some((name, t2))
    requires Token(" = ", t2) == Some(s3)
    requires ParseNumber(s3) == Some((number, t3))
    requires Token(";\n", t3) == Some(rest)
    ensures ParseField(s) == Some((Field(ty, name, number), rest))
  {
  }

  lemma FieldRoundTrip(f: Field, rest: string)
    requires WellFormedField(f)
    ensures Token("  ", RenderField(f) + rest).Some?
    ensures ParseField(RenderField(f) + rest) == Some((f, rest))
  {
    var t4 := ";\n" + rest;
    var t3 := Decimal(f.number) + t4;
    var t2b := " = " + t3;
    var t2 := f.name + t2b;
    var t1b := " " + t2;
    var t1 := f.typeName + t1b;
    FieldText(f, rest);
    assert Token("  ", RenderField(f) + rest) == Some(t1) by { TokenOf("  ", t1); }
    assert ParseIdent(t1) == Some((f.typeName, t1b)) by { IdentOf(f.typeName, t1b); }
    assert Token(" ", t1b) == Some(t2) by { TokenOf(" ", t2); }
    assert ParseIdent(t2) == Some((f.name, t2b)) by { IdentOf(f.name, t2b); }
    assert Token(" = ", t2b) == Some(t3) by { TokenOf(" = ", t3); }
    assert ParseNumber(t3) == Some((f.number, t4)) by { NumberOf(f.number, t4); }
    assert Token(";\n", t4) == Some(rest) by { TokenOf(";\n", rest); }
    ParseFieldSteps(RenderField(f) + rest, t1, f.typeName, t1b, t2, f.name, t2b, t3, f.number, t4, rest);
  }

  lemma FieldsRoundTrip(fs: seq<Field>, rest: string)
    requires forall i :: 0 <= i < |fs| ==> WellFormedField(fs[i])
    requires Token("  ", rest).None?
    ensures ParseFields(RenderFields(fs) + rest) == Some((fs, rest))
  {
    forall i, r | 0 <= i < |fs|
      ensures Token("  ", RenderField(fs[i]) + r).Some? && ParseField(RenderField(fs[i]) + r) == Some((fs[i], r))
    {
      FieldRoundTrip(fs[i], r);
    }
    ParseAllRoundTrip(ParseField, RenderField, "  ", fs, rest);
  }

  lemma MessageText(m: Message, rest: string)
    ensures RenderMessage(m) + rest == "message " + (m.name + (" {\n" + (RenderFields(m.fields) + ("}\n\n" + rest))))
  {
  }

  /** The reading steps of one message block, over arbitrary intermediate texts. */
  lemma ParseMessageSteps(s: string, s1: string, name: string, t1: string, s2: string,
                          fields: seq<Field>, t2: string, rest: string)
    requires Token("message ", s) == Some(s1)
    requires ParseIdent(s1) == Some((name, t1))
    requires Token(" {\n", t1) == Some(s2)
    requires ParseFields(s2) == Some((fields, t2))
    requires Token("}\n\n", t2) == Some(rest)
    ensures ParseMessage(s) == Some((Message(name, fields), rest))
  {
  }

  lemma MessageRoundTrip(m: Message, rest: string)
    requires WellFormedMessage(m)
    ensures Token("message ", RenderMessage(m) + rest).Some?
    ensures ParseMessage(RenderMessage(m) + rest) == Some((m, rest))
  {
    var t3 := "}\n\n" + rest;
    var t2 := RenderFields(m.fields) + t3;
    var t1b := " {\n" + t2;
    var t1 := m.name + t1b;
    MessageText(m, rest);
    assert Token("message ", RenderMessage(m) + rest) == Some(t1) by { TokenOf("message ", t1); }
    assert ParseIdent(t1) == Some((m.name, t1b)) by { IdentOf(m.name, t1b); }
    assert Token(" {\n", t1b) == Some(t2) by { TokenOf(" {\n", t2); }
    assert ParseFields(t2) == Some((m.fields, t3)) by {
      TokenMismatch("  ", t3);
      FieldsRoundTrip(m.fields, t3);
    }
    assert Token("}\n\n", t3) == Some(rest) by { TokenOf("}\n\n", rest); }
    ParseMessageSteps(RenderMessage(m) + rest, t1, m.name, t1b, t2, m.fields, t3, rest);
  }

  lemma MessagesRoundTrip(ms: seq<Message>, rest: string)
    requires forall i :: 0 <= i < |ms| ==> WellFormedMessage(ms[i])
    requires Token("message ", rest).None?
    ensures ParseMessages(RenderMessages(ms) + rest) == Some((ms, rest))
  {
    forall i, r | 0 <= i < |ms|
      ensures Token("message ", RenderMessage(ms[i]) + r).Some? && ParseMessage(RenderMessage(ms[i]) + r) == Some((ms[i], r))
    {
      MessageRoundTrip(ms[i], r);
    }
    ParseAllRoundTrip(ParseMessage, RenderMessage, "message ", ms, rest);
  }

  /** The reading steps of one rpc line, over arbitrary intermediate texts. */
  lemma ParseRpcSteps(s: string, s1: string, name: string, t1: string, s2: string, input: string,
                      t2: string, s3: string, output: string, t3: string, rest: string)
    requires Token("  rpc ", s) == Some(s1)
    requires ParseIdent(s1) == Some((name, t1))
    requires Token(" (", t1) == Some(s2)
    requires ParseIdent(s2) == Some((input, t2))
    requires Token(") returns (", t2) == Some(s3)
    requires ParseIdent(s3) == Some((output, t3))
    requires Token(");\n", t3) == Some(rest)
    ensures ParseRpc(s) == Some((Rpc(name, input, output), rest))
  {
  }

  lemma RpcText(r: Rpc, rest: string)
    ensures RenderRpc(r) + rest == "  rpc " + (r.name + (" (" + (r.input + (") returns (" + (r.output + (");\n" + rest))))))
  {
  }

  lemma RpcRoundTrip(r: Rpc, rest: string)
    requires WellFormedRpc(r)
    ensures Token("  rpc ", RenderRpc(r) + rest).Some?
    ensures ParseRpc(RenderRpc(r) + rest) == Some((r, rest))
  {
    var t4 := ");\n" + rest;
    var t3 := r.output + t4;
    var t2b := ") returns (" + t3;
    var t2 := r.input + t2b;
    var t1b := " (" + t2;
    var t1 := r.name + t1b;
    RpcText(r, rest);
    assert Token("  rpc ", RenderRpc(r) + rest) == Some(t1) by { TokenOf("  rpc ", t1); }
    assert ParseIdent(t1) == Some((r.name, t1b)) by { IdentOf(r.name, t1b); }
    assert Token(" (", t1b) == Some(t2) by { TokenOf(" (", t2); }
    assert ParseIdent(t2) == Some((r.input, t2b)) by { IdentOf(r.input, t2b); }
    assert Token(") returns (", t2b) == Some(t3) by { TokenOf(") returns (", t3); }
    assert ParseIdent(t3) == Some((r.output, t4)) by { IdentOf(r.output, t4); }
    assert Token(");\n", t4) == Some(rest) by { TokenOf(");\n", rest); }
    ParseRpcSteps(RenderRpc(r) + rest, t1, r.name, t1b, t2, r.input, t2b, t3, r.output, t4, rest);
  }

  lemma RpcsRoundTrip(rs: seq<Rpc>, rest: string)
    requires forall i :: 0 <= i < |rs| ==> WellFormedRpc(rs[i])
    requires Token("  rpc ", rest).None?
    ensures ParseRpcs(RenderRpcs(rs) + rest) == Some((rs, rest))
  {
    forall i, r | 0 <= i < |rs|
      ensures Token("  rpc ", RenderRpc(rs[i]) + r).Some? && ParseRpc(RenderRpc(rs[i]) + r) == Some((rs[i], r))
    {
      RpcRoundTrip(rs[i], r);
    }
    ParseAllRoundTrip(ParseRpc, RenderRpc, "  rpc ", rs, rest);
  }

  lemma ServiceText(v: Service, rest: string)
    ensures RenderService(v) + rest == "service " + (v.name + (" {\n" + (RenderRpcs(v.rpcs) + ("}\n\n" + rest))))
  {
  }

  /** The reading steps of one service block, over arbitrary intermediate texts. */
  lemma ParseServiceSteps(s: string, s1: string, name: string, t1: string, s2: string,
                          rpcs: seq<Rpc>, t2: string, rest: string)
    requires Token("service ", s) == Some(s1)
    requires ParseIdent(s1) == Some((name, t1))
    requires Token(" {\n", t1) == Some(s2)
    requires ParseRpcs(s2) == Some((rpcs, t2))
    requires Token("}\n\n", t2) == Some(rest)
    ensures ParseService(s) == Some((Service(name, rpcs), rest))
  {
  }

  lemma ServiceRoundTrip(v: Service, rest: string)
    requires WellFormedService(v)
    ensures Token("service ", RenderService(v) + rest).Some?
    ensures ParseService(RenderService(v) + rest) == Some((v, rest))
  {
    var t3 := "}\n\n" + rest;
    var t2 := RenderRpcs(v.rpcs) + t3;
    var t1b := " {\n" + t2;
    var t1 := v.name + t1b;
    ServiceText(v, rest);
    assert Token("service ", RenderService(v) + rest) == Some(t1) by { TokenOf("service ", t1); }
    assert ParseIdent(t1) == Some((v.name, t1b)) by { IdentOf(v.name, t1b); }
    assert Token(" {\n", t1b) == Some(t2) by { TokenOf(" {\n", t2); }
    assert ParseRpcs(t2) == Some((v.rpcs, t3)) by {
      TokenMismatch("  rpc ", t3);
      RpcsRoundTrip(v.rpcs, t3);
    }
    assert Token("}\n\n", t3) == Some(rest) by { TokenOf("}\n\n", rest); }
    ParseServiceSteps(RenderService(v) + rest, t1, v.name, t1b, t2, v.rpcs, t3, rest);
  }

  lemma ServicesRoundTrip(ss: seq<Service>)
    requires forall i :: 0 <= i < |ss| ==> WellFormedService(ss[i])
    ensures ParseServices(RenderServices(ss)) == Some((ss, []))
  {
    forall i, r | 0 <= i < |ss|
      ensures Token("service ", RenderService(ss[i]) + r).Some? && ParseService(RenderService(ss[i]) + r) == Some((ss[i], r))
    {
      ServiceRoundTrip(ss[i], r);
    }
    assert RenderServices(ss) + [] == RenderServices(ss);
    ParseAllRoundTrip(ParseService, RenderService, "service ", ss, []);
  }

  lemma DocumentText(p: ProtoFile)
    ensures Render(p) == (SyntaxLine + "package ") + (p.package + (";\n\n" + (RenderMessages(p.messages) + RenderServices(p.services))))
  {
  }

  /** The reading steps of a whole document, over arbitrary intermediate texts. */
  lemma ParseProtoSteps(s: string, s1: string, package: string, t1: string, s2: string,
                        messages: seq<Message>, t2: string, services: seq<Service>)
    requires Token(SyntaxLine + "package ", s) == Some(s1)
    requires ParseIdent(s1) == Some((package, t1))
    requires Token(";\n\n", t1) == Some(s2)
    requires ParseMessages(s2) == Some((messages, t2))
    requires ParseServices(t2) == Some((services, []))
    ensures ParseProto(s) == Some(ProtoFile(package, messages, services))
  {
  }

  /**
    Decoding the rendered text of a well-formed file gives the file back:
    the generated document names every message, field, number, service and
    rpc exactly once, in the order it was rendered.
  */
  lemma RenderRoundTrip(p: ProtoFile)
    requires WellFormed(p)
    ensures ParseProto(Render(p)) == Some(p)
  {
    var services := RenderServices(p.services);
    var t2 := RenderMessages(p.messages) + services;
    var t1b := ";\n\n" + t2;
    var t1 := p.package + t1b;
    DocumentText(p);
    assert Token(SyntaxLine + "package ", Render(p)) == Some(t1) by { TokenOf(SyntaxLine + "package ", t1); }
    assert ParseIdent(t1) == Some((p.package, t1b)) by { IdentOf(p.package, t1b); }
    assert Token(";\n\n", t1b) == Some(t2) by { TokenOf(";\n\n", t2); }
    assert Token("message ", services).None? by {
      if p.services != [] {
        ServiceRoundTrip(p.services[0], RenderServices(p.services[1..]));
        assert services == RenderService(p.services[0]) + RenderServices(p.services[1..]);
        assert services[0] == 's';
        TokenMismatch("message ", services);
      }
    }
    assert ParseMessages(t2) == Some((p.messages, services)) by { MessagesRoundTrip(p.messages, services); }
    assert ParseServices(services) == Some((p.services, [])) by { ServicesRoundTrip(p.services); }
    ParseProtoSteps(Render(p), t1, p.package, t1b, t2, p.messages, services, p.services);
  }
}
