/** JSON values as the Python code sees them after `json.load` / `response.json()`,
    with the parts of Python's dynamic typing that the core relies on:
    truthiness, `dict.get`, and `isinstance(x, (float, int))`. */
module JsonValue {

  datatype Option<+T> = None | Some(value: T)

  /** `d.get(key, default)` once the lookup is an Option. */
  function OrElse<T>(o: Option<T>, default: T): T {
    if o.Some? then o.value else default
  }

  datatype Result<+T, +E> = Ok(value: T) | Err(error: E)

  /** A value, or an exception that escapes to the caller. */
  datatype Raising<+T> = Returns(value: T) | Raises

  /** A decoded JSON document. Objects are maps: only lookups are made on them. */
  datatype Json =
    | JNull
    | JBool(b: bool)
    | JInt(i: int)
    | JFloat(r: real)
    | JStr(s: string)
    | JArr(items: seq<Json>)
    | JObj(fields: map<string, Json>)

  /** Python truthiness (`bool(x)`): null, false, zero, and empty containers are falsy. */
  predicate Truthy(j: Json) {
    match j
    case JNull => false
    case JBool(b) => b
    case JInt(i) => i != 0
    case JFloat(r) => r != 0.0
    case JStr(s) => s != ""
    case JArr(xs) => xs != []
    case JObj(m) => m != map[]
  }

  /** Truthiness of an optional value: a missing key (`None`) is falsy. */
  predicate TruthyOpt(o: Option<Json>) {
    o.Some? && Truthy(o.value)
  }

  /** `d.get(key)` on a dictionary. */
  function Get(m: map<string, Json>, key: string): (r: Option<Json>)
    ensures r.Some? <==> key in m
    ensures key in m ==> r.value == m[key]
  {
    if key in m then Some(m[key]) else None
  }

  /** `a or b` on two optional values: the first when truthy, else the second. */
  function Or(a: Option<Json>, b: Option<Json>): (r: Option<Json>)
    ensures TruthyOpt(a) ==> r == a
    ensures !TruthyOpt(a) ==> r == b
  {
    if TruthyOpt(a) then a else b
  }

  /** `isinstance(x, (float, int))`; in Python `bool` is a subclass of `int`. */
  predicate IsNumber(j: Json) {
    j.JBool? || j.JInt? || j.JFloat?
  }

  /** `float(x)` of a value for which `IsNumber` holds. */
  function NumberValue(j: Json): real
    requires IsNumber(j)
  {
    match j
    case JBool(b) => if b then 1.0 else 0.0
    case JInt(i) => i as real
    case JFloat(r) => r
  }

  /** `x.get(key)` guarded by `isinstance(x, dict)`: `None` for a non-object. */
  function Field(j: Json, key: string): (r: Option<Json>)
    ensures !j.JObj? ==> r == None
  {
    if j.JObj? then Get(j.fields, key) else None
  }

  /** What a `requests` call produced: a transport exception, or a response whose
      body either decoded as JSON or did not (`None`). */
  datatype HttpOutcome =
    | TransportError(message: string)
    | Response(status: int, body: Option<Json>)
}
