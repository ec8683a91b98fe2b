/**
  `createZrpcClient`: per-service method closures that validate a request
  against its schema before any network call, then send the original
  request under the lower-first rpc name and settle with the answer.
*/
module Client {
  import opened Wrappers
  import opened Naming
  import opened Schemas
  import opened Routers
  import opened Text
  import Server

  /** What the per-service gRPC channel reports for one call. */
  datatype TransportOutcome = Response(value: Json) | Failed(code: nat, details: string)

  /** One service's channel: rpc name and request to the call's outcome. */
  type Transport = (string, Json) -> TransportOutcome

  /** Why the returned promise rejects. */
  datatype Rejection =
    | ClientFailure(message: string)
    | ValidationFailure(issues: seq<string>)
    | ServiceError(code: nat, details: string)

  /** How the returned promise settles. */
  datatype Settled = Resolved(value: Json) | Rejected(reason: Rejection)

  /** The rejection for a method without a request schema; it names the missing schema. */
  function SchemaNotFound(methodName: string): (r: string)
    ensures Occurs(RequestTypeName(methodName), r)
  {
    OccursBetween("Client Error: Schema '", RequestTypeName(methodName), "' not found.");
    "Client Error: Schema '" + RequestTypeName(methodName) + "' not found."
  }

  /**
    The rpc name the closure calls on the service client, `m` with its first
    letter lower-cased. It has the method's length and resolves to the same
    request and reply types as the method itself.
  */
  function RpcName(methodName: string): (r: string)
    ensures |r| == |methodName|
    ensures methodName != [] ==> r[0] == ToLower(methodName[0]) && r[1..] == methodName[1..]
    ensures RequestTypeName(r) == RequestTypeName(methodName)
    ensures ReplyTypeName(r) == ReplyTypeName(methodName)
  {
    var r := LowerFirst(methodName);
    assert Capitalize(r) == Capitalize(methodName);
    r
  }

  /** One call of `client[service][methodName](request)`. */
  function Invoke(schemas: seq<(string, Schema)>, methodName: string, parse: Parser,
                  transport: Transport, request: Json): (r: Settled)
    ensures Lookup(schemas, RequestTypeName(methodName)).None? ==>
              r == Rejected(ClientFailure(SchemaNotFound(methodName)))
    ensures r.Rejected? && r.reason.ValidationFailure? ==>
              var schema := Lookup(schemas, RequestTypeName(methodName));
              schema.Some? && parse(schema.value, request) == Invalid(r.reason.issues)
    ensures var schema := Lookup(schemas, RequestTypeName(methodName));
            schema.Some? && parse(schema.value, request).Invalid? ==>
              r == Rejected(ValidationFailure(parse(schema.value, request).issues))
    ensures var schema := Lookup(schemas, RequestTypeName(methodName));
            schema.Some? && parse(schema.value, request).Parsed? ==>
              r == match transport(RpcName(methodName), request)
                   case Response(v) => Resolved(v)
                   case Failed(code, details) => Rejected(ServiceError(code, details))
    ensures r.Resolved? ==>
              var schema := Lookup(schemas, RequestTypeName(methodName));
              schema.Some? && parse(schema.value, request).Parsed? &&
              transport(RpcName(methodName), request) == Response(r.value)
    ensures r.Rejected? && r.reason.ServiceError? ==>
              var schema := Lookup(schemas, RequestTypeName(methodName));
              schema.Some? && parse(schema.value, request).Parsed? &&
              transport(RpcName(methodName), request) == Failed(r.reason.code, r.reason.details)
  {
    match Lookup(schemas, RequestTypeName(methodName))
    case None => Rejected(ClientFailure(SchemaNotFound(methodName)))
    case Some(schema) =>
      match parse(schema, request)
      case Invalid(issues) => Rejected(ValidationFailure(issues))
      case Parsed(_) =>
        match transport(RpcName(methodName), request)
        case Response(response) => Resolved(response)
        case Failed(code, details) => Rejected(ServiceError(code, details))
  }

  /** A missing schema or an invalid request settles without touching the network. */
  lemma NoNetworkCallUnlessValid(schemas: seq<(string, Schema)>, methodName: string, parse: Parser,
                                 transport1: Transport, transport2: Transport, request: Json)
    requires Lookup(schemas, RequestTypeName(methodName)).None? ||
             parse(Lookup(schemas, RequestTypeName(methodName)).value, request).Invalid?
    ensures Invoke(schemas, methodName, parse, transport1, request)
         == Invoke(schemas, methodName, parse, transport2, request)
  {
  }

  /**
    Once validated, the closure sends the request exactly as the caller gave
    it, under the lower-first name; what validation produced plays no part.
  */
  lemma SendsOriginalRequest(schemas: seq<(string, Schema)>, methodName: string, parse: Parser,
                             transport: Transport, request: Json, schema: Schema)
    requires Lookup(schemas, RequestTypeName(methodName)) == Some(schema)
    requires parse(schema, request).Parsed?
    ensures Invoke(schemas, methodName, parse, transport, request)
            == match transport(LowerFirst(methodName), request)
               case Response(v) => Resolved(v)
               case Failed(c, d) => Rejected(ServiceError(c, d))
  {
  }

  /**
    What the channel does to a message on its way: the request is encoded
    into the generated message type on the client and decoded with default
    values on the server, and the reply likewise in the other direction.
    Keys the message lacks are dropped and missing fields are filled in, so
    neither direction is the identity in general.
  */
  type Codec = Json -> Json

  /** The server status as the channel reports it to the client, the reply passed through `decode`. */
  function Delivered(decode: Codec, result: Server.CallResult): TransportOutcome
  {
    match result
    case Reply(v) => Response(decode(v))
    case Status(code, details) => Failed(Server.CodeNumber(code), details)
  }

  /**
    Client and server together over a channel that routes the rpc name to
    the server's wrapped handler, re-encoding the request with `encode` and
    the reply with `decode`. Once the client has accepted a request, the
    server validates the encoded request again: it may reject it with
    INVALID_ARGUMENT, and otherwise the caller sees the decoded handler
    result on the value validated there, or its error as classified by the
    server.
  */
  lemma ClientAndServerAgree(schemas: seq<(string, Schema)>, methodName: string, impl: Handler,
                             parse: Parser, encode: Codec, decode: Codec, transport: Transport,
                             request: Json, schema: Schema)
    requires forall req :: transport(RpcName(methodName), req)
                           == Delivered(decode, Server.HandleUnary(schemas, methodName, impl, parse, encode(req)))
    requires Lookup(schemas, RequestTypeName(methodName)) == Some(schema)
    requires parse(schema, request).Parsed?
    ensures Invoke(schemas, methodName, parse, transport, request)
            == match parse(schema, encode(request))
               case Invalid(issues) =>
                 Rejected(ServiceError(Server.CodeNumber(Server.InvalidArgument), Server.InvalidDetails(issues)))
               case Parsed(v) =>
                 match impl(v)
                 case Returned(x) => Resolved(decode(x))
                 case Threw(e) => Rejected(ServiceError(Server.CodeNumber(Server.Classify(e).code),
                                                        Server.Classify(e).details))
  {
    assert transport(RpcName(methodName), request)
           == Delivered(decode, Server.HandleUnary(schemas, methodName, impl, parse, encode(request)));
  }

  // ---- Construction ----

  type ClientMethod = Json -> Settled

  /** The object returned to the caller: service name to method name to closure. */
  type ClientTable = map<string, map<string, ClientMethod>>

  /** The construction error for a router service the loader does not provide; it names the service. */
  function ServiceNotFound(serviceName: string): (r: string)
    ensures Occurs(serviceName, r)
  {
    OccursBetween("Client Error: Service '", serviceName, "' not found in proto.");
    "Client Error: Service '" + serviceName + "' not found in proto."
  }

  /** Every method key of the service has its closure, implemented or not. */
  ghost predicate ServiceBound(bound: map<string, ClientMethod>, schemas: seq<(string, Schema)>,
                               methods: seq<MethodEntry>, parse: Parser, transport: Transport)
  {
    && bound.Keys == (set j | 0 <= j < |methods| :: methods[j].name)
    && forall j, request :: 0 <= j < |methods| ==>
         bound[methods[j].name](request) == Invoke(schemas, methods[j].name, parse, transport, request)
  }

  /** Every router service is present, each over its own channel. */
  ghost predicate Bound(client: ClientTable, router: Router, parse: Parser, connect: string -> Transport)
  {
    && client.Keys == (set i | 0 <= i < |router.services| :: router.services[i].name)
    && forall i :: 0 <= i < |router.services| ==>
         ServiceBound(client[router.services[i].name], router.schemas, router.services[i].methods,
                      parse, connect(router.services[i].name))
  }

  /** The inner loop: one closure per method key. */
  method BindService(schemas: seq<(string, Schema)>, methods: seq<MethodEntry>, parse: Parser,
                     transport: Transport) returns (bound: map<string, ClientMethod>)
    requires DistinctMethodNames(methods)
    ensures ServiceBound(bound, schemas, methods, parse, transport)
  {
    bound := map[];
    var j := 0;
    while j < |methods|
      invariant 0 <= j <= |methods|
      invariant bound.Keys == (set k | 0 <= k < j :: methods[k].name)
      invariant forall k, request :: 0 <= k < j ==>
                  bound[methods[k].name](request) == Invoke(schemas, methods[k].name, parse, transport, request)
    {
      var methodName := methods[j].name;
      bound := bound[methodName := (request: Json) => Invoke(schemas, methodName, parse, transport, request)];
      j := j + 1;
    }
  }

  /**
    The construction loop: abort on the first router service the loaded
    descriptors lack; otherwise connect each service and bind its methods.
  */
  method CreateClient(router: Router, loaded: set<string>, parse: Parser, connect: string -> Transport)
    returns (r: Result<ClientTable, string>)
    requires DistinctKeys(router)
    ensures r.Failure? <==> exists i :: 0 <= i < |router.services| && router.services[i].name !in loaded
    ensures r.Failure? ==>
              exists i :: 0 <= i < |router.services| && router.services[i].name !in loaded &&
                (forall k :: 0 <= k < i ==> router.services[k].name in loaded) &&
                r.error == ServiceNotFound(router.services[i].name)
    ensures r.Success? ==> Bound(r.value, router, parse, connect)
  {
    var services := router.services;
    var client: ClientTable := map[];
    var i := 0;
    while i < |services|
      invariant 0 <= i <= |services|
      invariant forall k :: 0 <= k < i ==> services[k].name in loaded
      invariant client.Keys == (set k | 0 <= k < i :: services[k].name)
      invariant forall k :: 0 <= k < i ==>
                  ServiceBound(client[services[k].name], router.schemas, services[k].methods,
                               parse, connect(services[k].name))
    {
      var serviceName := services[i].name;
      if serviceName !in loaded {
        return Failure(ServiceNotFound(serviceName));
      }
      var serviceClient := connect(serviceName);
      var bound := BindService(router.schemas, services[i].methods, parse, serviceClient);
      client := client[serviceName := bound];
      i := i + 1;
    }
    return Success(client);
  }
}
