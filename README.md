# zRPC core, modelled in Dafny

zRPC turns a *router* — a record of named validation schemas and named
services, each service a record of method handlers — into a gRPC service
definition, a gRPC server and a typed client. Everything is derived from
one convention: method `m` is served by rpc `m` whose request type is
`Capitalize(m) + "Request"` and whose reply type is `Capitalize(m) + "Reply"`.
Those are also the keys under which the router's schemas are found.

This project models the core module, `packages/core/src/index.ts`:

- **Naming** (`naming.dfy`): `charAt(0).toUpperCase() + slice(1)` and its
  lower-case twin; the request and reply type names.
- **Schemas** (`schemas.dfy`): the schema kinds the core distinguishes;
  `zodToProtoType`; the validation engine as an uninterpreted `Parser`.
- **Routers** (`router.dfy`): the router as ordered key lists (JavaScript
  object enumeration order); `router.schemas[key]` as `Lookup`.
- **Proto** and **ProtoParse** (`proto.dfy`, `proto_parse.dfy`): the proto3
  subset the generator emits, its exact text, and a reader for that text.
  The reader is the partner of the renderer. Reading back a rendered
  document whose names are all proto3 identifiers gives back every package,
  message, field (type, name, number), service and rpc, in order.
- **Generator** (`generator.dfy`): `generateProtoFromRouter` as an
  imperative method that pushes parts and joins them. It is proved equal
  to rendering the declarations the router describes. When every schema,
  field, service and method name is a proto3 identifier, reading back the
  generated text gives exactly one message per object schema and one rpc
  per method key, with the naming convention.
- **Text** (`text.dfy`): one string occurring inside another, used to
  state what error messages and status details carry.
- **Server** (`server.dfy`): the per-call wrapper. It looks up the request
  schema, validates, invokes the handler and classifies errors into
  INVALID_ARGUMENT (3) and INTERNAL (13). The construction loop aborts on
  a service missing from the loaded descriptors and wraps every
  implemented method.
- **Client** (`client.dfy`): the per-method closure. It validates before
  any network call, then sends the original request under the lower-first
  rpc name. The construction loop binds every method key.
- **Binding** (`binding.dfy`): how generated text and runtime lookups fit
  together.

The validation engine, the handlers, the gRPC loader, the transport and
the channel's message encoding are parameters (`Parser`, `Handler`, a set
of loaded service names, a `Transport` per service, a `Codec` per
direction). Exceptions and promise settlement are values:
`HandlerOutcome`, `CallResult`, `Settled`.

Where the documented behaviour and the code disagree, the model follows the code:

- A `ZodError` thrown by a *handler*, not only by request validation, is
  answered INVALID_ARGUMENT with the handler's issue messages. The
  `instanceof ZodError` test does not know where the error came from.
- `index.ts` has no check of its own, at construction, that every method
  has a request schema. The loader calls at `packages/core/src/index.ts:95`
  (server) and `packages/core/src/index.ts:189` (client) are
  what reject such a router, when the server or the client is built: an
  rpc line (`packages/core/src/index.ts:73-75`) that names a `…Request` or
  `…Reply` message the generated text does not declare fails to load. The
  same happens when the schema under that key is not an object schema. The
  per-call paths for a missing schema (INTERNAL with the generic message on
  the server, `Client Error: Schema … not found.` on the client) are
  therefore reachable only when that loading is bypassed. The loader is not
  part of this model, so the per-call wrappers are modelled with those
  paths as written.
- Neither side checks a reply against the `…Reply` schema.

## Model

| member | source | states |
|---|---|---|
| Naming.Capitalize | packages/core/src/index.ts:73 | Capitalizing keeps the length and every character after the first; the first becomes its upper-case form and is never lower-case |
| Naming.LowerFirst | packages/core/src/index.ts:227 | Lower-casing the first character keeps the length and every character after the first; the first becomes its lower-case form and is never upper-case |
| Naming.RequestTypeName | packages/core/src/index.ts:73 | The request type name is the method name with its first character upper-cased (so never lower-case) and the rest unchanged, followed by `Request` |
| Naming.ReplyTypeName | packages/core/src/index.ts:74 | The reply type name is the method name with its first character upper-cased (so never lower-case) and the rest unchanged, followed by `Reply` |
| Naming.LowerFirstKeepsName | packages/core/src/index.ts:227 | The name the client calls equals the declared rpc name exactly when the method name is empty or does not start with an upper-case letter |
| Naming.LowerFirstUndoesCapitalize | packages/core/src/index.ts:227 | Lower-casing the first character of a capitalized name gives back any name that did not start upper-case |
| Naming.CapitalizeUndoesLowerFirst | packages/core/src/index.ts:125 | Capitalizing a lower-first name gives back any name that did not start lower-case |
| Naming.RequestTypeNameInjective | packages/core/src/index.ts:125 | Two methods resolve to the same request schema key if and only if their capitalized names agree |
| Naming.RequestNeverReply | packages/core/src/index.ts:73-74 | No request type name equals any reply type name |
| Schemas.ProtoType | packages/core/src/index.ts:33-40 | The proto type is `double` iff the schema is a number, `bool` iff a boolean, and `string` for every other kind |
| Routers.Lookup | packages/core/src/index.ts:126 | No schema is found iff no entry has the key; a found schema is one stored under that key |
| Routers.LookupFindsEntry | packages/core/src/index.ts:126 | With distinct keys, looking up an entry's key returns that entry's schema |
| Proto.RenderAllSnoc | packages/core/src/index.ts:80 | Rendering a list with one more declaration appends exactly that declaration's text |
| ProtoParse.DecimalRoundTrip | packages/core/src/index.ts:63 | A printed field number is a non-empty run of digits whose value is the number |
| ProtoParse.ParseAllRoundTrip | packages/core/src/index.ts:48-81 | The list reader returns exactly the rendered items and the text after them, provided each item reads back and the following text does not start a new item |
| ProtoParse.FieldRoundTrip | packages/core/src/index.ts:63 | When its type and name are identifiers, a field line reads back as its type, name and number, whatever text follows |
| ProtoParse.MessageRoundTrip | packages/core/src/index.ts:59-65 | When its name and its fields' types and names are identifiers, a message block reads back as its name and all its fields in order |
| ProtoParse.RpcRoundTrip | packages/core/src/index.ts:75 | When its names are identifiers, an rpc line reads back as its name, request type and reply type |
| ProtoParse.ServiceRoundTrip | packages/core/src/index.ts:70-77 | When its name and its rpcs' names and message types are identifiers, a service block reads back as its name and all its rpcs in order |
| ProtoParse.RenderRoundTrip | packages/core/src/index.ts:48-81 | Reading the rendered text of a well-formed document gives back the whole document |
| Generator.Concat | packages/core/src/index.ts:80 | Joining with the empty separator places every part, in order, right after the text of the parts before it, and the result is exactly as long as all parts together |
| Generator.PushMessage | packages/core/src/index.ts:59-65 | Pushing one object schema's parts appends the text of a message with that name and fields numbered from 1 in shape order |
| Generator.PushService | packages/core/src/index.ts:70-77 | Pushing one service's parts appends the text of a service with one rpc per method key |
| Generator.PushMessages | packages/core/src/index.ts:55-66 | The schema loop appends the text of one message per object schema, in key order, and nothing for any other schema |
| Generator.PushServices | packages/core/src/index.ts:69-78 | The service loop appends the text of one service block per router service, in key order |
| Generator.GenerateProto | packages/core/src/index.ts:48-81 | The joined parts are exactly the rendering of the router's declarations: header, messages, services |
| Generator.MessagesOfObjects | packages/core/src/index.ts:55-66 | Messages correspond one to one and in order with the object schemas; non-object schemas give none |
| Generator.ProtoOfRouterWellFormed | packages/core/src/index.ts:48-81 | When the router's names are identifiers, every name in the generated declarations is one |
| Generator.ProtoOfRouterDescribes | packages/core/src/index.ts:48-81 | The declarations are package `zrpc`, one message per object schema and one service per router service with the conventional rpc types |
| Generator.GeneratedDocumentDescribesRouter | packages/core/src/index.ts:48-81 | When every schema, field, service and method name is a proto3 identifier, reading back the generated text succeeds and describes the router as above |
| Server.SchemaNotFound | packages/core/src/index.ts:129 | The missing-schema error names the request type and the method, is not a validation error, and is therefore answered INTERNAL with the fixed message |
| Server.Join | packages/core/src/index.ts:142 | Joining no issues gives the empty text, one issue gives itself, and every issue occurs in the joined text |
| Server.JoinSnoc | packages/core/src/index.ts:142 | Joining one more item appends the separator and that item, so items keep their order with one separator between neighbours |
| Server.InvalidDetails | packages/core/src/index.ts:142 | The INVALID_ARGUMENT details begin with `Invalid request: ` and name every validation issue; with no issue they are the prefix alone, with one issue the prefix and that message |
| Server.InvalidDetailsSnoc | packages/core/src/index.ts:142 | One more issue appends `, ` and its message to the details |
| Server.Classify | packages/core/src/index.ts:138-148 | A validation error becomes INVALID_ARGUMENT with its issues; any other error becomes INTERNAL with the fixed message |
| Server.HandleUnary | packages/core/src/index.ts:124-149 | A missing schema gives INTERNAL; an invalid request gets INVALID_ARGUMENT with the text of its issues; a valid request gets exactly the handler's result on the validated value, or the handler's error as classified; a reply only ever comes from that path; INTERNAL never carries more than the fixed message; INVALID_ARGUMENT lists the issues of request validation or of a validation error the handler threw |
| Server.ValidationFailureIsInvalidArgument | packages/core/src/index.ts:132-143 | A request failing validation is answered INVALID_ARGUMENT with the `Invalid request:` text of its issues |
| Server.HandlerNotInvokedUnlessValid | packages/core/src/index.ts:125-135 | With the schema missing or the request invalid, the answer does not depend on the handler |
| Server.HandlerSeesOnlyValidatedValue | packages/core/src/index.ts:133-136 | Requests that validate to the same value get the same answer |
| Server.ThrownTextNeverLeaks | packages/core/src/index.ts:144-147 | Handlers that differ only in the text of non-validation errors are indistinguishable to the caller |
| Server.ServiceNotFound | packages/core/src/index.ts:110 | The server's construction error names the service that was not loaded |
| Server.WrapService | packages/core/src/index.ts:116-152 | The wrapped table has exactly the implemented method keys, each running the per-call wrapper for that method |
| Server.CreateServer | packages/core/src/index.ts:106-154 | Construction fails iff some router service is not loaded, naming the first such service; otherwise every service is registered with its wrapped methods |
| Client.SchemaNotFound | packages/core/src/index.ts:215 | The client's missing-schema rejection names the request type it looked for |
| Client.RpcName | packages/core/src/index.ts:227 | The name the client calls is the method name with its first character lower-cased and the rest unchanged; it resolves to the same request and reply types as the method |
| Client.Invoke | packages/core/src/index.ts:210-232 | A missing schema rejects with the client error; an invalid request rejects with exactly its validation issues, and a validation rejection only ever comes from that; otherwise the result is exactly what the transport answers for the lower-first name and the original request |
| Client.NoNetworkCallUnlessValid | packages/core/src/index.ts:212-223 | With the schema missing or the request invalid, the result does not depend on the transport |
| Client.SendsOriginalRequest | packages/core/src/index.ts:226-231 | A valid request is sent unchanged under the lower-first name, and the promise settles with the transport's answer |
| Client.ClientAndServerAgree | packages/core/src/index.ts:210-232 | Over a channel that re-encodes the request and the reply on the way to and from the server wrapper, a request the client accepts is validated again by the server in its encoded form: the caller gets INVALID_ARGUMENT with the server's issues, or the decoded handler result on the value the server validated, or the handler's classified error |
| Client.ServiceNotFound | packages/core/src/index.ts:203 | The client's construction error names the service that was not loaded |
| Client.BindService | packages/core/src/index.ts:209-234 | Every method key, implemented or not, gets a closure that performs the client call |
| Client.CreateClient | packages/core/src/index.ts:200-236 | Construction fails iff some router service is not loaded, naming the first such service; otherwise every service is bound over its own channel |
| Binding.GeneratedServicesAreFound | packages/core/src/index.ts:106-111 | A loader that provides every service declared in the generated text makes the service check pass for every router service |
| Binding.RequestMessageDeclaredIffObjectSchema | packages/core/src/index.ts:55-75 | The request type an rpc names is declared as a message iff the schema found under that key is an object schema |

## Left out

- Writing the generated text to a temporary file, the timestamped file name and deleting the file. These are file-system I/O. The loader is a set of loaded service names; the model does not read the text back through it.
- The gRPC runtime: `loadPackageDefinition`, `server.addService`, channel credentials, and how a client channel resolves a method name. The loaded services are a parameter, and the service table is a map.
- Server start-up (`bindAsync`), its logging, the `start` wrapper and the exposed `grpcServer`. These are network and console side effects with no state the core reads back.
- The validation library's parse algorithm, which is the abstract `Parser`. Errors other than validation errors that a schema might throw while parsing are not modelled. A client-side parse therefore either succeeds or rejects with a validation error.
- Client.ClientAndServerAgree: the protobuf encoding on the channel (`fromObject` dropping keys the message lacks, decoding with `defaults: true` filling missing fields) is an abstract `Codec` in each direction. The lemma holds for every codec, and the model does not state which values the generated messages preserve.
- Promise scheduling and `await`. A handler's settled promise is a value, and a rejection counts as a throw.
- The type-level `CreateZrpcClient` mapping: it has no run-time behaviour.
- The example applications outside `packages/core`.
- Naming.Capitalize: upper- and lower-casing follow ASCII only. JavaScript's full Unicode case mapping (including one-to-many mappings) is not modelled.
- Generator.GenerateProto: the order of keys is taken as the given sequence order. JavaScript's rule that integer-like keys enumerate first is not modelled.
- Proto.Decimal: field numbers are unbounded. Protocol Buffers' upper limit on field numbers and its reserved range are not checked, as the generator does not check them either.
- Routers.DistinctKeys: construction assumes distinct keys, which JavaScript objects guarantee. Repeated keys cannot occur in the source.
- Binding.RequestMessageDeclaredIffObjectSchema: states when the request message exists. It does not model the loader rejecting, when the server or client is built, a document whose rpc names an undeclared message; the per-call missing-schema paths that loading makes unreachable are modelled as written.
