/**
  The router: named schemas and named services, each service an ordered
  map from method name to an optional handler. JavaScript objects keep
  their keys distinct and iterate them in a fixed order; the model keeps
  that order as a sequence and states distinctness as `DistinctKeys`.
*/
module Routers {
  import opened Wrappers
  import opened Schemas

  /** What a thrown value is, as far as the server's `catch` can tell. */
  datatype Thrown = ZodFailure(issues: seq<string>) | OtherFailure(message: string)

  /** The settled promise of a handler call. */
  datatype HandlerOutcome = Returned(result: Json) | Threw(error: Thrown)

  type Handler = Json -> HandlerOutcome

  /** One key of a service; on the client side the handler is absent. */
  datatype MethodEntry = MethodEntry(name: string, impl: Option<Handler>)

  datatype ServiceEntry = ServiceEntry(name: string, methods: seq<MethodEntry>)

  datatype Router = Router(schemas: seq<(string, Schema)>, services: seq<ServiceEntry>)

  /** `router.schemas[key]`: the schema stored under `key`, if any. */
  function Lookup(schemas: seq<(string, Schema)>, key: string): (r: Option<Schema>)
    ensures r.None? <==> forall i :: 0 <= i < |schemas| ==> schemas[i].0 != key
    ensures r.Some? ==> exists i :: 0 <= i < |schemas| && schemas[i] == (key, r.value)
  {
    if schemas == [] then None
    else if schemas[0].0 == key then Some(schemas[0].1)
    else Lookup(schemas[1..], key)
  }

  /** With distinct keys, Lookup finds exactly the entry stored under the key. */
  lemma LookupFindsEntry(schemas: seq<(string, Schema)>, i: nat)
    requires i < |schemas|
    requires forall j, k :: 0 <= j < k < |schemas| ==> schemas[j].0 != schemas[k].0
    ensures Lookup(schemas, schemas[i].0) == Some(schemas[i].1)
  {
  }

  predicate DistinctMethodNames(ms: seq<MethodEntry>)
  {
    forall j, k :: 0 <= j < k < |ms| ==> ms[j].name != ms[k].name
  }

  /** Keys of one JavaScript object are distinct: schemas, services, and each service's methods. */
  predicate DistinctKeys(r: Router)
  {
    && (forall j, k :: 0 <= j < k < |r.schemas| ==> r.schemas[j].0 != r.schemas[k].0)
    && (forall j, k :: 0 <= j < k < |r.services| ==> r.services[j].name != r.services[k].name)
    && (forall i :: 0 <= i < |r.services| ==> DistinctMethodNames(r.services[i].methods))
  }
}
