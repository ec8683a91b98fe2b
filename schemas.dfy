/**
  The part of the validation library the core depends on: a closed
  classification of schema nodes, the ordered fields of an object schema,
  the scalar type a node maps to in proto3, and an uninterpreted `parse`.
*/
module Schemas {

  /** A schema node. `Obj` lists its shape's fields in enumeration order. */
  datatype Schema = Obj(shape: seq<(string, Schema)>) | Str | Num | Bool | Other

  /** A JSON-like payload; the core never looks inside one. */
  datatype Json =
    | JNull
    | JBool(b: bool)
    | JNumber(n: real)
    | JString(s: string)
    | JArray(items: seq<Json>)
    | JObject(members: seq<(string, Json)>)

  /** What `schema.parse(value)` does: the validated value, or the issue messages of a ZodError. */
  datatype ParseResult = Parsed(value: Json) | Invalid(issues: seq<string>)

  /** The validation engine itself is not modelled: every operation takes it as a parameter. */
  type Parser = (Schema, Json) -> ParseResult

  /**
    `zodToProtoType`: strings map to `string`, numbers to `double`, booleans to
    `bool`, and every other kind (objects included) falls back to `string`.
  */
  function ProtoType(s: Schema): (t: string)
    ensures t == "double" <==> s.Num?
    ensures t == "bool" <==> s.Bool?
    ensures t == "string" <==> !s.Num? && !s.Bool?
  {
    match s
    case Str => "string"
    case Num => "double"
    case Bool => "bool"
    case _ => "string"
  }
}
