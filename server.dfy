/**
  `createZrpcServer`: the service check against the loaded descriptors,
  the wrapping of every implemented method, and the wrapped unary handler
  that validates, invokes and translates errors into gRPC status codes.
*/
module Server {
  import opened Wrappers
  import opened Naming
  import opened Schemas
  import opened Routers
  import opened Text

  /** The two gRPC status codes the wrapper reports. */
  datatype StatusCode = InvalidArgument | Internal

  /** Their numbers in gRPC's status code list. */
  function CodeNumber(c: StatusCode): nat
  {
    match c
    case InvalidArgument => 3
    case Internal => 13
  }

  /** What the wrapped handler passes to the gRPC callback: a reply, or an error status. */
  datatype CallResult = Reply(value: Json) | Status(code: StatusCode, details: string)

  const InternalDetails := "An internal server error occurred."

  const InvalidPrefix := "Invalid request: "

  /**
    `Array.prototype.join`: no items give the empty text, one item gives
    itself, and every item occurs in the joined text.
  */
  function Join(xs: seq<string>, sep: string): (r: string)
    ensures |xs| == 0 ==> r == ""
    ensures |xs| == 1 ==> r == xs[0]
    ensures forall i :: 0 <= i < |xs| ==> Occurs(xs[i], r)
  {
    if |xs| == 0 then ""
    else if |xs| == 1 then
      assert OccursAt(xs[0], xs[0], 0);
      xs[0]
    else
      var rest := Join(xs[1..], sep);
      JoinStep(xs, sep, rest);
      xs[0] + sep + rest
  }

  /** Every item of a join of two or more occurs in it, given that the later ones occur in the joined tail. */
  lemma JoinStep(xs: seq<string>, sep: string, rest: string)
    requires |xs| >= 2
    requires forall i :: 0 <= i < |xs[1..]| ==> Occurs(xs[1..][i], rest)
    ensures forall i :: 0 <= i < |xs| ==> Occurs(xs[i], xs[0] + sep + rest)
  {
    forall i | 0 <= i < |xs| ensures Occurs(xs[i], xs[0] + sep + rest) {
      if i == 0 {
        OccursBetween([], xs[0], sep + rest);
        assert [] + xs[0] + (sep + rest) == xs[0] + sep + rest;
      } else {
        assert xs[i] == xs[1..][i - 1];
        OccursInAppend(xs[i], xs[0] + sep, rest);
      }
    }
  }

  /**
    `Invalid request: ` followed by the issue messages separated by `, `:
    the details begin with the fixed prefix and name every issue.
  */
  function InvalidDetails(issues: seq<string>): (r: string)
    ensures |InvalidPrefix| <= |r| && r[..|InvalidPrefix|] == InvalidPrefix
    ensures issues == [] ==> r == InvalidPrefix
    ensures |issues| == 1 ==> r == InvalidPrefix + issues[0]
    ensures forall i :: 0 <= i < |issues| ==> Occurs(issues[i], r)
  {
    var joined := Join(issues, ", ");
    var r := InvalidPrefix + joined;
    assert forall i :: 0 <= i < |issues| ==> Occurs(issues[i], r) by {
      forall i | 0 <= i < |issues| ensures Occurs(issues[i], r) {
        OccursInAppend(issues[i], InvalidPrefix, joined);
      }
    }
    r
  }

  /** Joining one more item appends the separator and that item: items keep their order, one separator between neighbours. */
  lemma {:induction false} JoinSnoc(xs: seq<string>, x: string, sep: string)
    requires xs != []
    ensures Join(xs + [x], sep) == Join(xs, sep) + sep + x
  {
    if |xs| == 1 {
      assert (xs + [x])[1..] == [x];
    } else {
      assert (xs + [x])[1..] == xs[1..] + [x];
      JoinSnoc(xs[1..], x, sep);
    }
  }

  /** One more issue appends `, ` and its message to the INVALID_ARGUMENT details. */
  lemma InvalidDetailsSnoc(issues: seq<string>, issue: string)
    requires issues != []
    ensures InvalidDetails(issues + [issue]) == InvalidDetails(issues) + ", " + issue
  {
    JoinSnoc(issues, issue, ", ");
  }

  /** The `catch` block: a ZodError becomes INVALID_ARGUMENT, anything else a generic INTERNAL. */
  function Classify(e: Thrown): (r: CallResult)
    ensures r.Status?
    ensures r.code == InvalidArgument <==> e.ZodFailure?
    ensures e.ZodFailure? ==> r.details == InvalidDetails(e.issues)
    ensures e.OtherFailure? ==> r.details == InternalDetails
  {
    match e
    case ZodFailure(issues) => Status(InvalidArgument, InvalidDetails(issues))
    case OtherFailure(_) => Status(Internal, InternalDetails)
  }

  /**
    The error thrown when the request schema is missing. It names the
    missing schema and the method, and it is not a validation error, so
    `Classify` answers it INTERNAL without showing its text.
  */
  function SchemaNotFound(methodName: string): (r: Thrown)
    ensures r.OtherFailure?
    ensures Occurs(RequestTypeName(methodName), r.message) && Occurs(methodName, r.message)
    ensures Classify(r) == Status(Internal, InternalDetails)
  {
    var message := "Schema '" + RequestTypeName(methodName) + "' not found for method '" + methodName + "'.";
    OccursBothBetween("Schema '", RequestTypeName(methodName), "' not found for method '", methodName, "'.");
    OtherFailure(message)
  }

  /**
    The wrapped unary handler of `methodName`, run on one inbound request:
    look up the request schema, validate, invoke the implementation with
    the validated value, and classify whatever was thrown on the way.
  */
  function HandleUnary(schemas: seq<(string, Schema)>, methodName: string, impl: Handler,
                       parse: Parser, request: Json): (r: CallResult)
    ensures Lookup(schemas, RequestTypeName(methodName)).None? ==> r == Status(Internal, InternalDetails)
    ensures r.Reply? ==>
              var schema := Lookup(schemas, RequestTypeName(methodName));
              schema.Some? && parse(schema.value, request).Parsed? &&
              impl(parse(schema.value, request).value) == Returned(r.value)
    ensures r.Status? && r.code == Internal ==> r.details == InternalDetails
    ensures var schema := Lookup(schemas, RequestTypeName(methodName));
            schema.Some? && parse(schema.value, request).Invalid? ==>
              r == Status(InvalidArgument, InvalidDetails(parse(schema.value, request).issues))
    ensures var schema := Lookup(schemas, RequestTypeName(methodName));
            schema.Some? && parse(schema.value, request).Parsed? ==>
              r == match impl(parse(schema.value, request).value)
                   case Returned(result) => Reply(result)
                   case Threw(e) => Classify(e)
    ensures r.Status? && r.code == InvalidArgument ==>
              var schema := Lookup(schemas, RequestTypeName(methodName));
              schema.Some? &&
              match parse(schema.value, request)
              case Invalid(issues) => r.details == InvalidDetails(issues)
              case Parsed(v) => impl(v).Threw? && impl(v).error.ZodFailure? &&
                                r.details == InvalidDetails(impl(v).error.issues)
  {
    match Lookup(schemas, RequestTypeName(methodName))
    case None => Classify(SchemaNotFound(methodName))
    case Some(schema) =>
      match parse(schema, request)
      case Invalid(issues) => Classify(ZodFailure(issues))
      case Parsed(validated) =>
        match impl(validated)
        case Returned(result) => Reply(result)
        case Threw(e) => Classify(e)
  }

  /** A request that fails validation is answered INVALID_ARGUMENT with every issue listed. */
  lemma ValidationFailureIsInvalidArgument(schemas: seq<(string, Schema)>, methodName: string,
                                           impl: Handler, parse: Parser, request: Json, schema: Schema)
    requires Lookup(schemas, RequestTypeName(methodName)) == Some(schema)
    requires parse(schema, request).Invalid?
    ensures HandleUnary(schemas, methodName, impl, parse, request)
            == Status(InvalidArgument, InvalidDetails(parse(schema, request).issues))
  {
  }

  /**
    The implementation is consulted only once the schema exists and the
    request is valid: otherwise any two implementations give the same answer.
  */
  lemma HandlerNotInvokedUnlessValid(schemas: seq<(string, Schema)>, methodName: string,
                                     impl1: Handler, impl2: Handler, parse: Parser, request: Json)
    requires Lookup(schemas, RequestTypeName(methodName)).None? ||
             parse(Lookup(schemas, RequestTypeName(methodName)).value, request).Invalid?
    ensures HandleUnary(schemas, methodName, impl1, parse, request)
         == HandleUnary(schemas, methodName, impl2, parse, request)
  {
  }

  /** The implementation sees only the validated value: requests that parse alike are answered alike. */
  lemma HandlerSeesOnlyValidatedValue(schemas: seq<(string, Schema)>, methodName: string, impl: Handler,
                                      parse: Parser, request1: Json, request2: Json, schema: Schema)
    requires Lookup(schemas, RequestTypeName(methodName)) == Some(schema)
    requires parse(schema, request1).Parsed? && parse(schema, request1) == parse(schema, request2)
    ensures HandleUnary(schemas, methodName, impl, parse, request1)
         == HandleUnary(schemas, methodName, impl, parse, request2)
  {
  }

  /**
    No text of a non-validation error reaches the caller: two implementations
    that differ only in the messages they throw are indistinguishable.
  */
  lemma ThrownTextNeverLeaks(schemas: seq<(string, Schema)>, methodName: string,
                             impl1: Handler, impl2: Handler, parse: Parser, request: Json)
    requires forall v :: impl1(v) == impl2(v) ||
               (impl1(v).Threw? && impl1(v).error.OtherFailure? &&
                impl2(v).Threw? && impl2(v).error.OtherFailure?)
    ensures HandleUnary(schemas, methodName, impl1, parse, request)
         == HandleUnary(schemas, methodName, impl2, parse, request)
  {
  }

  // ---- Binding ----

  type WrappedHandler = Json -> CallResult

  /** What `server.addService` receives, per service name: method name to wrapped handler. */
  type ServerTable = map<string, map<string, WrappedHandler>>

  /** The construction error for a router service the loader does not provide; it names the service. */
  function ServiceNotFound(serviceName: string): (r: string)
    ensures Occurs(serviceName, r)
  {
    OccursBetween("Service '", serviceName, "' could not be found in the generated gRPC object.");
    "Service '" + serviceName + "' could not be found in the generated gRPC object."
  }

  /** The methods of one service that have an implementation, each wrapped by `HandleUnary`. */
  ghost predicate ServiceInstalled(wrapped: map<string, WrappedHandler>, schemas: seq<(string, Schema)>,
                                   methods: seq<MethodEntry>, parse: Parser)
  {
    && wrapped.Keys == (set j | 0 <= j < |methods| && methods[j].impl.Some? :: methods[j].name)
    && forall j, request :: 0 <= j < |methods| && methods[j].impl.Some? ==>
         wrapped[methods[j].name](request) == HandleUnary(schemas, methods[j].name, methods[j].impl.value, parse, request)
  }

  /** Every router service is registered, and each has exactly its implemented methods wrapped. */
  ghost predicate Installed(table: ServerTable, router: Router, parse: Parser)
  {
    && table.Keys == (set i | 0 <= i < |router.services| :: router.services[i].name)
    && forall i :: 0 <= i < |router.services| ==>
         ServiceInstalled(table[router.services[i].name], router.schemas, router.services[i].methods, parse)
  }

  /** The inner loop over one service's method keys, skipping keys without an implementation. */
  method WrapService(schemas: seq<(string, Schema)>, serviceImpl: seq<MethodEntry>, parse: Parser)
    returns (wrapped: map<string, WrappedHandler>)
    requires DistinctMethodNames(serviceImpl)
    ensures ServiceInstalled(wrapped, schemas, serviceImpl, parse)
  {
    wrapped := map[];
    var j := 0;
    while j < |serviceImpl|
      invariant 0 <= j <= |serviceImpl|
      invariant wrapped.Keys == (set k | 0 <= k < j && serviceImpl[k].impl.Some? :: serviceImpl[k].name)
      invariant forall k, request :: 0 <= k < j && serviceImpl[k].impl.Some? ==>
                  wrapped[serviceImpl[k].name](request)
                  == HandleUnary(schemas, serviceImpl[k].name, serviceImpl[k].impl.value, parse, request)
    {
      var methodName := serviceImpl[j].name;
      var methodImplementation := serviceImpl[j].impl;
      if methodImplementation.Some? {
        var impl := methodImplementation.value;
        wrapped := wrapped[methodName := (request: Json) => HandleUnary(schemas, methodName, impl, parse, request)];
      }
      j := j + 1;
    }
  }

  /**
    The construction loop: abort on the first router service the loaded
    descriptors lack; otherwise register every service with its wrapped methods.
  */
  method CreateServer(router: Router, loaded: set<string>, parse: Parser) returns (r: Result<ServerTable, string>)
    requires DistinctKeys(router)
    ensures r.Failure? <==> exists i :: 0 <= i < |router.services| && router.services[i].name !in loaded
    ensures r.Failure? ==>
              exists i :: 0 <= i < |router.services| && router.services[i].name !in loaded &&
                (forall k :: 0 <= k < i ==> router.services[k].name in loaded) &&
                r.error == ServiceNotFound(router.services[i].name)
    ensures r.Success? ==> Installed(r.value, router, parse)
  {
    var services := router.services;
    var table: ServerTable := map[];
    var i := 0;
    while i < |services|
      invariant 0 <= i <= |services|
      invariant forall k :: 0 <= k < i ==> services[k].name in loaded
      invariant table.Keys == (set k | 0 <= k < i :: services[k].name)
      invariant forall k :: 0 <= k < i ==>
                  ServiceInstalled(table[services[k].name], router.schemas, services[k].methods, parse)
    {
      var serviceName := services[i].name;
      if serviceName !in loaded {
        return Failure(ServiceNotFound(serviceName));
      }
      var wrapped := WrapService(router.schemas, services[i].methods, parse);
      table := table[serviceName := wrapped];
      i := i + 1;
    }
    return Success(table);
  }
}
