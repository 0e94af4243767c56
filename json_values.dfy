/** The JSON-shaped values that templates, settings and query rows hold, with the
    Python operations the core applies to them. */
module JsonValues {
  import opened Wrappers
  import opened Strings

  datatype Json =
    | JNull
    | JBool(b: bool)
    | JInt(i: int)
    | JFloat(r: real)
    | JStr(s: string)
    | JArr(items: seq<Json>)
    | JObj(fields: map<string, Json>)

  type Object = map<string, Json>

  /** Python truthiness: `None`, `False`, zero, and empty strings, lists and dicts
      are false. */
  predicate Truthy(j: Json) {
    match j
    case JNull => false
    case JBool(b) => b
    case JInt(i) => i != 0
    case JFloat(r) => r != 0.0
    case JStr(s) => s != ""
    case JArr(items) => items != []
    case JObj(fields) => fields != map[]
  }

  /** `d.get(key, default)`. */
  function Get(d: Object, key: string, default: Json): (r: Json)
    ensures key in d ==> r == d[key]
    ensures key !in d ==> r == default
  {
    if key in d then d[key] else default
  }

  /** Truncation toward zero, as `int()` does to a float. */
  function Truncate(r: real): (n: int)
    ensures n as real <= r < n as real + 1.0 || n as real - 1.0 < r <= n as real
    ensures 0.0 <= r ==> 0 <= n && n as real <= r
    ensures r <= 0.0 ==> n <= 0 && r <= n as real
  {
    if r >= 0.0 then r.Floor else -((-r).Floor)
  }

  /** Python's `int(x)`, with `None` standing for the `TypeError` or `ValueError` it raises. */
  function PyInt(j: Json): (r: Option<int>)
    ensures j.JInt? ==> r == Some(j.i)
    ensures j.JNull? || j.JArr? || j.JObj? ==> r == None
  {
    match j
    case JBool(b) => Some(if b then 1 else 0)
    case JInt(i) => Some(i)
    case JFloat(x) => Some(Truncate(x))
    case JStr(s) => ParseInt(s)
    case _ => None
  }

  /** Unary minus; `None` for the `TypeError` raised on a non-number. */
  function Negate(j: Json): (r: Option<Json>)
    ensures r.Some? <==> (j.JInt? || j.JFloat? || j.JBool?)
    ensures j.JInt? ==> r == Some(JInt(-j.i))
  {
    match j
    case JBool(b) => Some(JInt(if b then -1 else 0))
    case JInt(i) => Some(JInt(-i))
    case JFloat(x) => Some(JFloat(-x))
    case _ => None
  }
}
