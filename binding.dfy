/**
  How the generated document and the runtime lookups fit together: the
  services a loader finds in the generated text are the router's services,
  and the request message an rpc names exists exactly when the schema the
  server and client look up for it is an object schema.
*/
module Binding {
  import opened Wrappers
  import opened Naming
  import opened Schemas
  import opened Routers
  import opened Proto
  import ProtoParse
  import opened Generator

  /** The service names a proto document declares. */
  function DeclaredServices(p: ProtoFile): set<string>
  {
    set i | 0 <= i < |p.services| :: p.services[i].name
  }

  /**
    If the loader provides every service declared in the generated text,
    the service check in server and client construction never aborts.
  */
  lemma GeneratedServicesAreFound(r: Router, loaded: set<string>)
    requires IdentifierNames(r)
    requires var parsed := ProtoParse.ParseProto(Render(ProtoOfRouter(r)));
             parsed.Some? ==> DeclaredServices(parsed.value) <= loaded
    ensures forall i :: 0 <= i < |r.services| ==> r.services[i].name in loaded
  {
    GeneratedDocumentDescribesRouter(r);
    var p := ProtoParse.ParseProto(Render(ProtoOfRouter(r))).value;
    forall i | 0 <= i < |r.services|
      ensures r.services[i].name in loaded
    {
      assert ServiceDescribes(p.services[i], r.services[i]);
      assert p.services[i].name in DeclaredServices(p);
    }
  }

  /** The document declares a message called `name`. */
  ghost predicate DeclaresMessage(p: ProtoFile, name: string)
  {
    exists i :: 0 <= i < |p.messages| && p.messages[i].name == name
  }

  /**
    The request type an rpc of method `m` names is declared in the generated
    document exactly when `router.schemas` holds an object schema under it,
    which is the key both the server wrapper and the client closure look up.
  */
  lemma RequestMessageDeclaredIffObjectSchema(r: Router, m: string)
    requires DistinctKeys(r)
    ensures DeclaresMessage(ProtoOfRouter(r), RequestTypeName(m))
            <==> Lookup(r.schemas, RequestTypeName(m)).Some? && Lookup(r.schemas, RequestTypeName(m)).value.Obj?
  {
    var s := r.schemas;
    var key := RequestTypeName(m);
    var ms := MessagesOf(s);
    MessagesOfObjects(s);
    if DeclaresMessage(ProtoOfRouter(r), key) {
      var i :| 0 <= i < |ms| && ms[i].name == key;
      assert FromObjectSchema(s, i, ms[i]);
      var k :| 0 <= k < |s| && s[k].1.Obj? && CountObjects(s[..k]) == i && ms[i] == Message(s[k].0, FieldsOf(s[k].1.shape));
      LookupFindsEntry(s, k);
    }
    if Lookup(s, key).Some? && Lookup(s, key).value.Obj? {
      var k :| 0 <= k < |s| && s[k] == (key, Lookup(s, key).value);
      assert ms[CountObjects(s[..k])].name == key;
    }
  }
}
