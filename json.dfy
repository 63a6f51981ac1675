/** Decoded JSON values, standing in for what `json.loads` returns. */
module Json {

  datatype JsonValue =
    | JNull
    | JBool(b: bool)
    | JNum(n: real)
    | JStr(s: string)
    | JArr(items: seq<JsonValue>)
    | JObj(fields: map<string, JsonValue>)

  /** The empty dict `{}`. */
  const EMPTY_OBJECT: JsonValue := JObj(map[])

  /** Python's `bool(x)` on a decoded JSON value. */
  predicate Truthy(j: JsonValue) {
    match j
    case JNull => false
    case JBool(b) => b
    case JNum(n) => n != 0.0
    case JStr(s) => s != ""
    case JArr(items) => items != []
    case JObj(fields) => fields != map[]
  }

  /** `d.get(key, default)` on a decoded dict. */
  function Get(fields: map<string, JsonValue>, key: string, default: JsonValue): JsonValue {
    if key in fields then fields[key] else default
  }
}
