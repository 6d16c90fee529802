/**
 * Parsed JSON and YAML documents once loaded: `None`, booleans, integers,
 * strings, lists and dicts with string keys. Floats are not modelled.
 */
module JsonValue {

  datatype Json =
    | JNull
    | JBool(b: bool)
    | JNum(n: int)
    | JStr(s: string)
    | JArr(items: seq<Json>)
    | JObj(fields: map<string, Json>)

  /** Python truthiness of the value. */
  predicate Truthy(j: Json) {
    match j
    case JNull => false
    case JBool(b) => b
    case JNum(n) => n != 0
    case JStr(s) => s != []
    case JArr(items) => items != []
    case JObj(fields) => fields != map[]
  }

  /** `d.get(k)`: the stored value, or `None` when the key is missing. */
  function Get(d: map<string, Json>, k: string): Json
  {
    if k in d then d[k] else JNull
  }

  /** `d.get(k, default)`. */
  function GetOr(d: map<string, Json>, k: string, default: Json): Json
  {
    if k in d then d[k] else default
  }
}
