/**
  `generateProtoFromRouter`: the router's schemas and services as a proto3
  document. `ProtoOfRouter` is the declaration-level reference (what the
  document declares); `GenerateProto` builds the text the way the source
  does, pushing parts and counting fields, and is proved to produce
  exactly the rendering of that reference.
*/
module Generator {
  import opened Wrappers
  import opened Naming
  import opened Schemas
  import opened Routers
  import opened Proto
  import ProtoParse

  /** The package both server and client load their services from. */
  const Package := "zrpc"

  /** Field `k` of a shape becomes field number `k + 1`, typed by `ProtoType`. */
  function FieldsOf(shape: seq<(string, Schema)>): seq<Field>
  {
    seq(|shape|, k requires 0 <= k < |shape| => Field(ProtoType(shape[k].1), shape[k].0, k + 1))
  }

  /** One message per object schema, in schema order; other schemas declare nothing. */
  function MessagesOf(schemas: seq<(string, Schema)>): seq<Message>
  {
    if schemas == [] then []
    else
      var last := schemas[|schemas| - 1];
      MessagesOf(schemas[..|schemas| - 1])
        + (if last.1.Obj? then [Message(last.0, FieldsOf(last.1.shape))] else [])
  }

  /** The rpc for method `m`, whether or not its request and reply schemas exist. */
  function RpcOf(m: string): Rpc
  {
    Rpc(m, RequestTypeName(m), ReplyTypeName(m))
  }

  function ServiceOf(svc: ServiceEntry): Service
  {
    Service(svc.name, seq(|svc.methods|, j requires 0 <= j < |svc.methods| => RpcOf(svc.methods[j].name)))
  }

  function ServicesOf(services: seq<ServiceEntry>): seq<Service>
  {
    seq(|services|, i requires 0 <= i < |services| => ServiceOf(services[i]))
  }

  /** What the generated document declares for a router. */
  function ProtoOfRouter(r: Router): ProtoFile
  {
    ProtoFile(Package, MessagesOf(r.schemas), ServicesOf(r.services))
  }

  /** The total length of the parts. */
  function TotalLength(parts: seq<string>): nat
  {
    if parts == [] then 0 else TotalLength(parts[..|parts| - 1]) + |parts[|parts| - 1]|
  }

  /** The text of `parts[i]` sits in `t` right after the text of the parts before it. */
  predicate PlacedAt(parts: seq<string>, t: string, i: int)
    requires 0 <= i < |parts|
  {
    TotalLength(parts[..i]) + |parts[i]| <= |t| &&
    t[TotalLength(parts[..i])..TotalLength(parts[..i]) + |parts[i]|] == parts[i]
  }

  /**
    `parts.join('')`: the parts one after another. The text is exactly as
    long as all parts together, and each part sits in it right after the
    text of the parts before it.
  */
  function Concat(parts: seq<string>): (r: string)
    ensures |r| == TotalLength(parts)
    ensures forall i :: 0 <= i < |parts| ==> PlacedAt(parts, r, i)
  {
    if parts == [] then ""
    else
      var init, last := parts[..|parts| - 1], parts[|parts| - 1];
      var r := Concat(init) + last;
      assert parts == init + [last];
      assert forall i :: 0 <= i < |parts| ==> PlacedAt(parts, r, i) by {
        forall i | 0 <= i < |parts| ensures PlacedAt(parts, r, i) {
          PlacedAfterAppend(init, last, Concat(init), i);
        }
      }
      r
  }

  lemma PlacedAfterAppend(init: seq<string>, last: string, t: string, i: int)
    requires 0 <= i <= |init|
    requires |t| == TotalLength(init)
    requires i < |init| ==> PlacedAt(init, t, i)
    ensures PlacedAt(init + [last], t + last, i)
  {
    var parts := init + [last];
    assert parts[..|parts| - 1] == init;
    if i < |init| {
      assert parts[..i] == init[..i];
      var lo := TotalLength(init[..i]);
      assert (t + last)[lo..lo + |init[i]|] == t[lo..lo + |init[i]|];
    } else {
      assert parts[..i] == init;
      assert (t + last)[|t|..] == last;
    }
  }

  function CountObjects(schemas: seq<(string, Schema)>): nat
  {
    if schemas == [] then 0
    else CountObjects(schemas[..|schemas| - 1]) + (if schemas[|schemas| - 1].1.Obj? then 1 else 0)
  }

  // Small steps of the text-building proof, each kept in its own context.

  lemma ConcatPush(parts: seq<string>, x: string)
    ensures Concat(parts + [x]) == Concat(parts) + x
  {
    assert (parts + [x])[..|parts|] == parts;
  }

  lemma HeaderParts()
    ensures Concat(["syntax = \"proto3\";\n", "package zrpc;\n\n"]) == Header(Package)
  {
    var parts := ["syntax = \"proto3\";\n", "package zrpc;\n\n"];
    assert parts[..1] == ["syntax = \"proto3\";\n"];
    assert parts[..1][..0] == [];
  }

  lemma MessagesOfPrefix(schemas: seq<(string, Schema)>, i: nat)
    requires i < |schemas|
    ensures MessagesOf(schemas[..i + 1]) == MessagesOf(schemas[..i])
      + (if schemas[i].1.Obj? then [Message(schemas[i].0, FieldsOf(schemas[i].1.shape))] else [])
  {
    assert schemas[..i + 1][..i] == schemas[..i];
  }

  lemma FieldsOfPrefix(shape: seq<(string, Schema)>, j: nat)
    requires j < |shape|
    ensures FieldsOf(shape)[..j + 1] == FieldsOf(shape)[..j] + [Field(ProtoType(shape[j].1), shape[j].0, j + 1)]
  {
  }

  lemma ServicesOfPrefix(services: seq<ServiceEntry>, i: nat)
    requires i < |services|
    ensures ServicesOf(services[..i + 1]) == ServicesOf(services[..i]) + [ServiceOf(services[i])]
  {
  }

  lemma MessageBlock(before: string, name: string, fields: seq<Field>)
    ensures before + ("message " + name + " {\n") + RenderFields(fields) + "}\n\n"
         == before + RenderMessage(Message(name, fields))
  {
  }

  lemma ServiceBlock(before: string, svc: Service)
    ensures before + ("service " + svc.name + " {\n") + RenderRpcs(svc.rpcs) + "}\n\n"
         == before + RenderService(svc)
  {
  }

  /** Appending `y` to a text that is `start + x` gives `start + z` when `z` is `x + y`. */
  lemma AppendStep(start: string, before: string, after: string, x: string, y: string, z: string)
    requires before == start + x
    requires after == before + y
    requires z == x + y
    ensures after == start + z
  {
  }

  lemma FieldStep(start: string, before: string, after: string, shape: seq<(string, Schema)>, j: nat)
    requires j < |shape|
    requires before == start + RenderFields(FieldsOf(shape)[..j])
    requires after == before + RenderField(Field(ProtoType(shape[j].1), shape[j].0, j + 1))
    ensures after == start + RenderFields(FieldsOf(shape)[..j + 1])
  {
    var f := Field(ProtoType(shape[j].1), shape[j].0, j + 1);
    FieldsOfPrefix(shape, j);
    RenderAllSnoc(RenderField, FieldsOf(shape)[..j], f);
    AppendStep(start, before, after, RenderFields(FieldsOf(shape)[..j]), RenderField(f),
               RenderFields(FieldsOf(shape)[..j + 1]));
  }

  lemma RpcStep(start: string, before: string, after: string, rpcs: seq<Rpc>, j: nat)
    requires j < |rpcs|
    requires before == start + RenderRpcs(rpcs[..j])
    requires after == before + RenderRpc(rpcs[j])
    ensures after == start + RenderRpcs(rpcs[..j + 1])
  {
    assert rpcs[..j + 1] == rpcs[..j] + [rpcs[j]];
    RenderAllSnoc(RenderRpc, rpcs[..j], rpcs[j]);
    AppendStep(start, before, after, RenderRpcs(rpcs[..j]), RenderRpc(rpcs[j]), RenderRpcs(rpcs[..j + 1]));
  }

  /** The body of the schema loop for one object schema: its message block, fields numbered from 1. */
  method PushMessage(parts: seq<string>, schemaName: string, shape: seq<(string, Schema)>)
    returns (parts': seq<string>)
    ensures Concat(parts') == Concat(parts) + RenderMessage(Message(schemaName, FieldsOf(shape)))
  {
    ghost var before := Concat(parts);
    parts' := parts;
    ConcatPush(parts', "message " + schemaName + " {\n");
    parts' := parts' + ["message " + schemaName + " {\n"];
    ghost var openText := Concat(parts');
    var fieldIndex := 1;
    var j := 0;
    while j < |shape|
      invariant 0 <= j <= |shape|
      invariant fieldIndex == j + 1
      invariant Concat(parts') == openText + RenderFields(FieldsOf(shape)[..j])
    {
      var key := shape[j].0;
      var fieldType := shape[j].1;
      var line := "  " + ProtoType(fieldType) + " " + key + " = " + Decimal(fieldIndex) + ";\n";
      assert line == RenderField(Field(ProtoType(shape[j].1), shape[j].0, j + 1));
      ghost var b := Concat(parts');
      ConcatPush(parts', line);
      parts' := parts' + [line];
      FieldStep(openText, b, Concat(parts'), shape, j);
      fieldIndex := fieldIndex + 1;
      j := j + 1;
    }
    ghost var fieldsText := Concat(parts');
    ConcatPush(parts', "}\n\n");
    parts' := parts' + ["}\n\n"];
    assert FieldsOf(shape)[..j] == FieldsOf(shape);
    MessageBlock(before, schemaName, FieldsOf(shape));
  }

  /** The body of the service loop for one service: its block, one rpc line per method key. */
  method PushService(parts: seq<string>, service: ServiceEntry) returns (parts': seq<string>)
    ensures Concat(parts') == Concat(parts) + RenderService(ServiceOf(service))
  {
    ghost var before := Concat(parts);
    var serviceName := service.name;
    var methods := service.methods;
    parts' := parts;
    ConcatPush(parts', "service " + serviceName + " {\n");
    parts' := parts' + ["service " + serviceName + " {\n"];
    ghost var openText := Concat(parts');
    var j := 0;
    while j < |methods|
      invariant 0 <= j <= |methods|
      invariant Concat(parts') == openText + RenderRpcs(ServiceOf(service).rpcs[..j])
    {
      var methodName := methods[j].name;
      var reqMessage := RequestTypeName(methodName);
      var resMessage := ReplyTypeName(methodName);
      var line := "  rpc " + methodName + " (" + reqMessage + ") returns (" + resMessage + ");\n";
      assert line == RenderRpc(ServiceOf(service).rpcs[j]);
      ghost var b := Concat(parts');
      ConcatPush(parts', line);
      parts' := parts' + [line];
      RpcStep(openText, b, Concat(parts'), ServiceOf(service).rpcs, j);
      j := j + 1;
    }
    ConcatPush(parts', "}\n\n");
    parts' := parts' + ["}\n\n"];
    assert ServiceOf(service).rpcs[..j] == ServiceOf(service).rpcs;
    ServiceBlock(before, ServiceOf(service));
  }

  lemma SchemaStep(start: string, before: string, after: string, schemas: seq<(string, Schema)>, i: nat)
    requires i < |schemas|
    requires before == start + RenderMessages(MessagesOf(schemas[..i]))
    requires schemas[i].1.Obj? ==> after == before + RenderMessage(Message(schemas[i].0, FieldsOf(schemas[i].1.shape)))
    requires !schemas[i].1.Obj? ==> after == before
    ensures after == start + RenderMessages(MessagesOf(schemas[..i + 1]))
  {
    MessagesOfPrefix(schemas, i);
    if schemas[i].1.Obj? {
      var m := Message(schemas[i].0, FieldsOf(schemas[i].1.shape));
      RenderAllSnoc(RenderMessage, MessagesOf(schemas[..i]), m);
      AppendStep(start, before, after, RenderMessages(MessagesOf(schemas[..i])), RenderMessage(m),
                 RenderMessages(MessagesOf(schemas[..i + 1])));
    } else {
      assert MessagesOf(schemas[..i + 1]) == MessagesOf(schemas[..i]);
    }
  }

  lemma ServiceStep(start: string, before: string, after: string, services: seq<ServiceEntry>, i: nat)
    requires i < |services|
    requires before == start + RenderServices(ServicesOf(services[..i]))
    requires after == before + RenderService(ServiceOf(services[i]))
    ensures after == start + RenderServices(ServicesOf(services[..i + 1]))
  {
    ServicesOfPrefix(services, i);
    RenderAllSnoc(RenderService, ServicesOf(services[..i]), ServiceOf(services[i]));
    AppendStep(start, before, after, RenderServices(ServicesOf(services[..i])), RenderService(ServiceOf(services[i])),
               RenderServices(ServicesOf(services[..i + 1])));
  }

  /**
    The generator: a header, a message block per object schema, a service
    block per service with one rpc line per method key. It has no failure path.
  */
  method GenerateProto(router: Router) returns (text: string)
    ensures text == Render(ProtoOfRouter(router))
  {
    var parts: seq<string> := [];
    parts := parts + ["syntax = \"proto3\";\n"];
    parts := parts + ["package zrpc;\n\n"];
    HeaderParts();
    parts := PushMessages(parts, router.schemas);
    parts := PushServices(parts, router.services);
    text := Concat(parts);
  }

  /** The first loop: one message block per object schema, in key order. */
  method PushMessages(parts: seq<string>, schemas: seq<(string, Schema)>) returns (parts': seq<string>)
    ensures Concat(parts') == Concat(parts) + RenderMessages(MessagesOf(schemas))
  {
    ghost var start := Concat(parts);
    parts' := parts;
    var i := 0;
    while i < |schemas|
      invariant 0 <= i <= |schemas|
      invariant Concat(parts') == start + RenderMessages(MessagesOf(schemas[..i]))
    {
      var schemaName := schemas[i].0;
      var schema := schemas[i].1;
      ghost var before := Concat(parts');
      if schema.Obj? {
        parts' := PushMessage(parts', schemaName, schema.shape);
      }
      SchemaStep(start, before, Concat(parts'), schemas, i);
      i := i + 1;
    }
    assert schemas[..i] == schemas;
  }

  /** The second loop: one service block per router service, in key order. */
  method PushServices(parts: seq<string>, services: seq<ServiceEntry>) returns (parts': seq<string>)
    ensures Concat(parts') == Concat(parts) + RenderServices(ServicesOf(services))
  {
    ghost var start := Concat(parts);
    parts' := parts;
    var i := 0;
    while i < |services|
      invariant 0 <= i <= |services|
      invariant Concat(parts') == start + RenderServices(ServicesOf(services[..i]))
    {
      ghost var before := Concat(parts');
      parts' := PushService(parts', services[i]);
      ServiceStep(start, before, Concat(parts'), services, i);
      i := i + 1;
    }
    assert services[..i] == services;
  }

  // ---- What the generated document declares ----

  /** Message `m` is the one for schema `name`: field `j` is key `j` of the shape, numbered `j + 1`. */
  ghost predicate MessageDescribes(m: Message, name: string, shape: seq<(string, Schema)>)
  {
    && m.name == name
    && |m.fields| == |shape|
    && forall j :: 0 <= j < |shape| ==> m.fields[j] == Field(ProtoType(shape[j].1), shape[j].0, j + 1)
  }

  /** Service `s` declares one rpc per method key of `svc`, in key order, with the conventional types. */
  ghost predicate ServiceDescribes(s: Service, svc: ServiceEntry)
  {
    && s.name == svc.name
    && |s.rpcs| == |svc.methods|
    && forall j :: 0 <= j < |svc.methods| ==>
         s.rpcs[j] == Rpc(svc.methods[j].name, RequestTypeName(svc.methods[j].name), ReplyTypeName(svc.methods[j].name))
  }

  /**
    `p` declares package `zrpc`, exactly one message per object schema in
    schema order (the object schema at index `k` gives message number
    `CountObjects(schemas[..k])`, and there are no others), and exactly one
    service per router service in order.
  */
  ghost predicate Describes(p: ProtoFile, r: Router)
  {
    && p.package == Package
    && |p.messages| == CountObjects(r.schemas)
    && (forall k :: 0 <= k < |r.schemas| && r.schemas[k].1.Obj? ==>
          CountObjects(r.schemas[..k]) < |p.messages| &&
          MessageDescribes(p.messages[CountObjects(r.schemas[..k])], r.schemas[k].0, r.schemas[k].1.shape))
    && |p.services| == |r.services|
    && (forall i :: 0 <= i < |r.services| ==> ServiceDescribes(p.services[i], r.services[i]))
  }

  /** Message `m`, number `i`, is the one of an object schema with `i` object schemas before it. */
  ghost predicate FromObjectSchema(s: seq<(string, Schema)>, i: nat, m: Message)
  {
    exists k :: 0 <= k < |s| && s[k].1.Obj? && CountObjects(s[..k]) == i &&
      m == Message(s[k].0, FieldsOf(s[k].1.shape))
  }

  /** Each object schema gives the message numbered by the object schemas before it. */
  lemma {:induction false} MessagesOfForward(s: seq<(string, Schema)>)
    ensures |MessagesOf(s)| == CountObjects(s)
    ensures forall k :: 0 <= k < |s| && s[k].1.Obj? ==>
              CountObjects(s[..k]) < |MessagesOf(s)| &&
              MessagesOf(s)[CountObjects(s[..k])] == Message(s[k].0, FieldsOf(s[k].1.shape))
  {
    if s != [] {
      var n := |s| - 1;
      var init := s[..n];
      MessagesOfForward(init);
      forall k | 0 <= k < |s| && s[k].1.Obj?
        ensures CountObjects(s[..k]) < |MessagesOf(s)|
        ensures MessagesOf(s)[CountObjects(s[..k])] == Message(s[k].0, FieldsOf(s[k].1.shape))
      {
        if k < n {
          assert s[..k] == init[..k];
          assert init[k] == s[k];
        } else {
          assert s[..k] == init;
        }
      }
    } else {
      assert MessagesOf(s) == [];
    }
  }

  /** Every message comes from an object schema. */
  lemma {:induction false} MessagesOfBackward(s: seq<(string, Schema)>)
    ensures forall i :: 0 <= i < |MessagesOf(s)| ==> FromObjectSchema(s, i, MessagesOf(s)[i])
  {
    if s != [] {
      var n := |s| - 1;
      var init := s[..n];
      MessagesOfBackward(init);
      MessagesOfForward(init);
      forall i | 0 <= i < |MessagesOf(s)|
        ensures FromObjectSchema(s, i, MessagesOf(s)[i])
      {
        if i < |MessagesOf(init)| {
          assert MessagesOf(s)[i] == MessagesOf(init)[i];
          assert FromObjectSchema(init, i, MessagesOf(init)[i]);
          var k :| 0 <= k < |init| && init[k].1.Obj? && CountObjects(init[..k]) == i &&
                   MessagesOf(init)[i] == Message(init[k].0, FieldsOf(init[k].1.shape));
          assert s[..k] == init[..k];
          assert s[k] == init[k];
          assert FromObjectSchema(s, i, MessagesOf(s)[i]);
        } else {
          assert s[..n] == init;
          assert s[n].1.Obj?;
          assert MessagesOf(s)[i] == Message(s[n].0, FieldsOf(s[n].1.shape));
          assert FromObjectSchema(s, i, MessagesOf(s)[i]);
        }
      }
    }
  }

  /** Object schemas map to messages one to one and in order; other schemas map to nothing. */
  lemma MessagesOfObjects(s: seq<(string, Schema)>)
    ensures |MessagesOf(s)| == CountObjects(s)
    ensures forall k :: 0 <= k < |s| && s[k].1.Obj? ==>
              CountObjects(s[..k]) < |MessagesOf(s)| &&
              MessagesOf(s)[CountObjects(s[..k])] == Message(s[k].0, FieldsOf(s[k].1.shape))
    ensures forall i :: 0 <= i < |MessagesOf(s)| ==> FromObjectSchema(s, i, MessagesOf(s)[i])
  {
    MessagesOfForward(s);
    MessagesOfBackward(s);
  }

  /** Every name the router contributes to the document is a proto3 identifier. */
  predicate IdentifierNames(r: Router)
  {
    && (forall k :: 0 <= k < |r.schemas| && r.schemas[k].1.Obj? ==>
          IsIdent(r.schemas[k].0) &&
          forall j :: 0 <= j < |r.schemas[k].1.shape| ==> IsIdent(r.schemas[k].1.shape[j].0))
    && (forall i :: 0 <= i < |r.services| ==>
          IsIdent(r.services[i].name) &&
          forall j :: 0 <= j < |r.services[i].methods| ==> IsIdent(r.services[i].methods[j].name))
  }

  lemma ProtoTypeIsIdent(s: Schema)
    ensures IsIdent(ProtoType(s))
  {
    var t := ProtoType(s);
    assert t == "string" || t == "double" || t == "bool";
  }

  /** The conventional message names of an identifier are identifiers. */
  lemma TypeNamesAreIdents(m: string)
    requires IsIdent(m)
    ensures IsIdent(RequestTypeName(m)) && IsIdent(ReplyTypeName(m))
  {
    var c := Capitalize(m);
    assert c[0] == ToUpper(m[0]);
    assert forall i :: 1 <= i < |c| ==> c[i] == m[i];
    assert forall i :: 0 <= i < |c| ==> IsIdentChar(c[i]);
    var q, y := RequestTypeName(m), ReplyTypeName(m);
    assert forall i :: |c| <= i < |q| ==> q[i] == RequestSuffix[i - |c|];
    assert forall i :: |c| <= i < |y| ==> y[i] == ReplySuffix[i - |c|];
  }

  lemma ProtoOfRouterWellFormed(r: Router)
    requires IdentifierNames(r)
    ensures WellFormed(ProtoOfRouter(r))
  {
    var ms := MessagesOf(r.schemas);
    MessagesOfObjects(r.schemas);
    forall i | 0 <= i < |ms| ensures WellFormedMessage(ms[i]) {
      assert FromObjectSchema(r.schemas, i, ms[i]);
      var k :| 0 <= k < |r.schemas| && r.schemas[k].1.Obj? && CountObjects(r.schemas[..k]) == i &&
               ms[i] == Message(r.schemas[k].0, FieldsOf(r.schemas[k].1.shape));
      var shape := r.schemas[k].1.shape;
      forall j | 0 <= j < |shape| ensures WellFormedField(FieldsOf(shape)[j]) {
        ProtoTypeIsIdent(shape[j].1);
      }
    }
    var ss := ServicesOf(r.services);
    forall i | 0 <= i < |ss| ensures WellFormedService(ss[i]) {
      var methods := r.services[i].methods;
      forall j | 0 <= j < |methods| ensures WellFormedRpc(ss[i].rpcs[j]) {
        TypeNamesAreIdents(methods[j].name);
      }
    }
    assert IsIdent(Package) by {
      assert forall i :: 0 <= i < |Package| ==> IsLetter(Package[i]);
    }
  }

  /**
    The declarations state package `zrpc`, one message per object schema in
    schema order, and one service per router service with the conventional
    request and reply types on each rpc.
  */
  lemma ProtoOfRouterDescribes(r: Router)
    ensures Describes(ProtoOfRouter(r), r)
  {
    MessagesOfObjects(r.schemas);
  }

  /**
    The document the generator emits, read back as proto3, declares exactly
    what the router describes: the `zrpc` package, one message per object
    schema in order with its fields numbered 1..n in shape order and typed by
    `ProtoType`, and one service per router service with one rpc per method
    key whose request and reply types follow the naming convention.
  */
  lemma GeneratedDocumentDescribesRouter(r: Router)
    requires IdentifierNames(r)
    ensures ProtoParse.ParseProto(Render(ProtoOfRouter(r))).Some?
    ensures Describes(ProtoParse.ParseProto(Render(ProtoOfRouter(r))).value, r)
  {
    ProtoOfRouterWellFormed(r);
    ProtoParse.RenderRoundTrip(ProtoOfRouter(r));
    ProtoOfRouterDescribes(r);
  }
}
