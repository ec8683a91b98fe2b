/**
  The subset of proto3 (Protocol Buffers Version 3 Language Specification)
  that the generator emits: a package, messages with numbered scalar fields,
  and services with unary rpc declarations; and its concrete text.
*/
module Proto {

  datatype Field = Field(typeName: string, name: string, number: nat)

  datatype Message = Message(name: string, fields: seq<Field>)

  datatype Rpc = Rpc(name: string, input: string, output: string)

  datatype Service = Service(name: string, rpcs: seq<Rpc>)

  datatype ProtoFile = ProtoFile(package: string, messages: seq<Message>, services: seq<Service>)

  predicate IsLetter(c: char) { 'a' <= c <= 'z' || 'A' <= c <= 'Z' }

  predicate IsDigit(c: char) { '0' <= c <= '9' }

  predicate IsIdentChar(c: char) { IsLetter(c) || IsDigit(c) || c == '_' }

  /** A proto3 identifier: a letter followed by letters, digits and underscores. */
  predicate IsIdent(s: string)
  {
    |s| > 0 && IsLetter(s[0]) && forall i :: 0 <= i < |s| ==> IsIdentChar(s[i])
  }

  /** Every name in the file is an identifier, so the text below can be read back unambiguously. */
  predicate WellFormed(p: ProtoFile)
  {
    && IsIdent(p.package)
    && (forall i :: 0 <= i < |p.messages| ==> WellFormedMessage(p.messages[i]))
    && (forall i :: 0 <= i < |p.services| ==> WellFormedService(p.services[i]))
  }

  predicate WellFormedField(f: Field)
  {
    IsIdent(f.typeName) && IsIdent(f.name)
  }

  predicate WellFormedMessage(m: Message)
  {
    IsIdent(m.name) && forall i :: 0 <= i < |m.fields| ==> WellFormedField(m.fields[i])
  }

  predicate WellFormedRpc(r: Rpc)
  {
    IsIdent(r.name) && IsIdent(r.input) && IsIdent(r.output)
  }

  predicate WellFormedService(s: Service)
  {
    IsIdent(s.name) && forall i :: 0 <= i < |s.rpcs| ==> WellFormedRpc(s.rpcs[i])
  }

  function DigitChar(d: nat): char
    requires d < 10
  {
    ('0' as int + d) as char
  }

  /** The decimal numeral of `n`, as a template literal prints a non-negative integer. */
  function Decimal(n: nat): string
  {
    if n < 10 then [DigitChar(n)] else Decimal(n / 10) + [DigitChar(n % 10)]
  }

  const SyntaxLine := "syntax = \"proto3\";\n"

  function Header(package: string): string
  {
    SyntaxLine + "package " + package + ";\n\n"
  }

  /** The texts of `xs`, one after another. */
  function RenderAll<T>(render: T -> string, xs: seq<T>): string
  {
    if xs == [] then "" else render(xs[0]) + RenderAll(render, xs[1..])
  }

  function RenderField(f: Field): string
  {
    "  " + f.typeName + " " + f.name + " = " + Decimal(f.number) + ";\n"
  }

  function RenderFields(fs: seq<Field>): string
  {
    RenderAll(RenderField, fs)
  }

  function RenderMessage(m: Message): string
  {
    "message " + m.name + " {\n" + RenderFields(m.fields) + "}\n\n"
  }

  function RenderMessages(ms: seq<Message>): string
  {
    RenderAll(RenderMessage, ms)
  }

  function RenderRpc(r: Rpc): string
  {
    "  rpc " + r.name + " (" + r.input + ") returns (" + r.output + ");\n"
  }

  function RenderRpcs(rs: seq<Rpc>): string
  {
    RenderAll(RenderRpc, rs)
  }

  function RenderService(s: Service): string
  {
    "service " + s.name + " {\n" + RenderRpcs(s.rpcs) + "}\n\n"
  }

  function RenderServices(ss: seq<Service>): string
  {
    RenderAll(RenderService, ss)
  }

  /** The document text: header, then every message, then every service. */
  function Render(p: ProtoFile): string
  {
    Header(p.package) + RenderMessages(p.messages) + RenderServices(p.services)
  }

  // Appending one declaration appends its text: the shape in which the
  // generator builds the document, one pushed part at a time.

  lemma {:induction false} RenderAllSnoc<T>(render: T -> string, xs: seq<T>, x: T)
    ensures RenderAll(render, xs + [x]) == RenderAll(render, xs) + render(x)
  {
    if xs == [] {
      assert [x][1..] == [];
    } else {
      assert (xs + [x])[1..] == xs[1..] + [x];
      RenderAllSnoc(render, xs[1..], x);
    }
  }
}
