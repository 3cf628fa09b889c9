/** Decoded JSON documents, and the few Python operations the core applies to them. */
module PyJson {
  import opened Results

  /** A JSON value as `response.json()` decodes it (integers and floats are both numbers). */
  datatype Json =
    | JNull
    | JBool(b: bool)
    | JNum(n: real)
    | JStr(s: string)
    | JArr(items: seq<Json>)
    | JObj(fields: map<string, Json>)

  /** The Python exception an operation on a decoded value raises. */
  datatype PyException = TypeError | AttributeError | IndexError | KeyError

  /** Python truthiness of a decoded value: null, false, zero and empty containers are false. */
  predicate Truthy(j: Json)
  {
    match j
    case JNull => false
    case JBool(b) => b
    case JNum(x) => x != 0.0
    case JStr(s) => s != []
    case JArr(a) => a != []
    case JObj(m) => m != map[]
  }

  /** `d.get(key)`: `None` when the key is absent or holds JSON null. */
  function Get(d: map<string, Json>, key: string): Option<Json>
  {
    if key in d && d[key] != JNull then Some(d[key]) else None
  }

  /** `d.get(key, default)`: the default only when the key is absent (a stored null is kept). */
  function GetOr(d: map<string, Json>, key: string, default: Json): Json
  {
    if key in d then d[key] else default
  }
}
