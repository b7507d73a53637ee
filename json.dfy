/**
  * The JSON values a request body can parse to, as Python's `json.loads`
  * hands them to the handler, and the two Python operations the handler
  * applies to them: truthiness (`bool(x)`, `if x:`) and `dict.get`.
  */
module JsonValue {
  import opened Wrappers

  /** A parsed JSON value. An object is a Python dict: each key once. */
  datatype Json =
    | Null
    | Bool(b: bool)
    | Int(i: int)
    | Float(f: real)
    | Str(s: string)
    | Array(items: seq<Json>)
    | Object(fields: map<string, Json>)

  /** The empty object `{}`. */
  const EmptyObject: Json := Object(map[])

  /** Python's truth value of a parsed JSON value: `null`, `false`, zero and empty collections are false. */
  predicate Truthy(j: Json) {
    match j
    case Null => false
    case Bool(b) => b
    case Int(i) => i != 0
    case Float(f) => f != 0.0
    case Str(s) => s != ""
    case Array(items) => items != []
    case Object(fields) => fields != map[]
  }

  /** The Python type name of a parsed JSON value, as it appears in exception messages. */
  function TypeName(j: Json): string {
    match j
    case Null => "NoneType"
    case Bool(_) => "bool"
    case Int(_) => "int"
    case Float(_) => "float"
    case Str(_) => "str"
    case Array(_) => "list"
    case Object(_) => "dict"
  }

  /**
    * `req.get(key, fallback)`: only a dict has `get`; on any other value
    * Python raises AttributeError.
    */
  function Get(req: Json, key: string, fallback: Json): (r: Result<Json, string>)
    ensures r.Success? <==> req.Object?
    ensures req.Object? ==> r.value == if key in req.fields then req.fields[key] else fallback
    ensures !req.Object? ==> r.error == "'" + TypeName(req) + "' object has no attribute 'get'"
  {
    match req
    case Object(fields) => Success(if key in fields then fields[key] else fallback)
    case _ => Failure("'" + TypeName(req) + "' object has no attribute 'get'")
  }
}
