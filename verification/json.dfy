/**
 * JSON values as `json.load` produces them, and Python's truthiness on them.
 */
module Json {

  /** A JSON value; numbers are kept as reals (Python int or float). */
  datatype Json =
    | JNull
    | JBool(b: bool)
    | JNumber(n: real)
    | JString(s: string)
    | JArray(items: seq<Json>)
    | JObject(fields: map<string, Json>)

  /** A user, device or message record: a JSON object. */
  type Record = map<string, Json>

  /** Python's `bool(v)` on a decoded JSON value. */
  predicate Truthy(v: Json): (t: bool)
    ensures !t <==> v in {JNull, JBool(false), JNumber(0.0), JString(""), JArray([]), JObject(map[])}
  {
    match v
    case JNull => false
    case JBool(b) => b
    case JNumber(n) => n != 0.0
    case JString(s) => s != ""
    case JArray(items) => items != []
    case JObject(fields) => fields != map[]
  }

  /** Python's `d.get(key)`: the value under `key`, or None (JSON null) when absent. */
  function Get(d: map<string, Json>, key: string): (v: Json)
    ensures key in d ==> v == d[key]
    ensures key !in d ==> v == JNull && !Truthy(v)
  {
    if key in d then d[key] else JNull
  }
}
