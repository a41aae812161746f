/**
 * JSON values as `JSON.parse` produces them, with the JavaScript truthiness and
 * property reads the application code applies to them, and the HTTP responses
 * of the API routes.
 */
module Json {
  import opened Options

  /** A JSON document. Numbers are reals: JSON has no NaN or infinity. */
  datatype Json =
    | Null
    | Bool(b: bool)
    | Num(n: real)
    | Str(s: string)
    | Arr(items: seq<Json>)
    | Obj(fields: map<string, Json>)

  /** Outcome of `JSON.parse`: it throws a SyntaxError (whose message the engine writes) or yields a value. */
  datatype ParseOutcome = SyntaxError(message: string) | Parsed(value: Json)

  /** JavaScript truthiness of a JSON value (`if (v)`, `!v`, `v && ...`). */
  predicate Truthy(v: Json) {
    match v
    case Null => false
    case Bool(b) => b
    case Num(n) => n != 0.0
    case Str(s) => s != ""
    case Arr(_) => true
    case Obj(_) => true
  }

  /** Truthiness of a possibly `undefined` value. */
  predicate Holds(v: Option<Json>) {
    v.Some? && Truthy(v.value)
  }

  /**
   * Reading property `key` of a non-null value: an object's own field, and
   * `undefined` (None) for a missing field and for every other kind of value.
   */
  function Get(v: Json, key: string): (r: Option<Json>)
    ensures r.Some? <==> v.Obj? && key in v.fields
    ensures r.Some? ==> r.value == v.fields[key]
  {
    if v.Obj? && key in v.fields then Some(v.fields[key]) else None
  }

  /** Optional chaining `v?.key`: `undefined` when `v` is null. */
  function GetOpt(v: Json, key: string): (r: Option<Json>)
    ensures v.Null? ==> r.None?
    ensures !v.Null? ==> r == Get(v, key)
  {
    if v.Null? then None else Get(v, key)
  }

  /** The `||` operator: `v` itself when it is truthy, else the fallback. */
  function OrElse(v: Option<Json>, fallback: Json): (r: Json)
    ensures Holds(v) ==> r == v.value
    ensures !Holds(v) ==> r == fallback
  {
    if Holds(v) then v.value else fallback
  }

  /** An HTTP response as `NextResponse.json(body, { status })` builds it. */
  datatype Response = Response(status: int, body: Json)
}
