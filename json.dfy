/**
 * The Python values that the formatter exchanges as dictionaries: every tier
 * of the style cascade, every preset file and every model reply is produced
 * by `json.load`/`json.loads`, so it is a JSON value. Python's `None` and
 * JSON `null` are the same value here (`JNull`).
 */
module JsonValues {

  datatype Json =
    | JNull
    | JBool(b: bool)
    | JNum(n: real)
    | JStr(s: string)
    | JArr(items: seq<Json>)
    | JObj(fields: map<string, Json>)

  /** Python truthiness of a parsed JSON value (`if d:`). */
  predicate Truthy(j: Json)
  {
    match j
    case JNull => false
    case JBool(b) => b
    case JNum(n) => n != 0.0
    case JStr(s) => s != ""
    case JArr(xs) => xs != []
    case JObj(m) => m != map[]
  }

  /** No top-level entry of the dictionary is `None`. */
  predicate NullFree(m: map<string, Json>)
  {
    forall k :: k in m ==> m[k] != JNull
  }
}
