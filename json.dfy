/**
 * JSON values as the template catalog holds them, with the JavaScript operations the validator
 * applies to them: truthiness (`!x`), `typeof`, `Array.isArray` and property reads.
 */
module Json {
  import opened Wrappers

  /** A parsed JSON value. Numbers are kept exactly; JSON has no NaN or infinities. */
  datatype Json =
    | JNull
    | JBool(b: bool)
    | JNumber(n: real)
    | JString(s: string)
    | JArray(items: seq<Json>)
    | JObject(fields: map<string, Json>)

  /** The exception JavaScript raises when a property of `null` is read. */
  datatype Thrown = TypeError(message: string)

  /**
   * `v.key` for a value `v` that is not null: an object's own property, and `undefined` (None)
   * for every other value. The keys read by the modelled code ("id", "name", "awsServices", ...)
   * are not built-in properties of arrays, strings, numbers or booleans. Reading a property of
   * null throws instead; callers test for null before they read.
   */
  function Get(v: Json, key: string): (r: Option<Json>)
    ensures r.Some? <==> v.JObject? && key in v.fields
    ensures r.Some? ==> r.value == v.fields[key]
  {
    match v
    case JObject(fields) => if key in fields then Some(fields[key]) else None
    case _ => None
  }

  /**
   * JavaScript truthiness of a possibly undefined value: `!x` holds for undefined, null, false,
   * 0 and the empty string, and for nothing else.
   */
  predicate Truthy(v: Option<Json>) {
    match v
    case None => false
    case Some(JNull) => false
    case Some(JBool(b)) => b
    case Some(JNumber(n)) => n != 0.0
    case Some(JString(s)) => s != ""
    case Some(JArray(_)) => true
    case Some(JObject(_)) => true
  }

  /** `typeof x === 'object'`: true of null, of arrays and of objects. */
  predicate TypeofObject(v: Option<Json>) {
    v.Some? && (v.value.JNull? || v.value.JArray? || v.value.JObject?)
  }

  /** `typeof x === 'string'`. */
  predicate TypeofString(v: Option<Json>) {
    v.Some? && v.value.JString?
  }

  /** `Array.isArray(x)`. */
  predicate IsArray(v: Option<Json>) {
    v.Some? && v.value.JArray?
  }
}
