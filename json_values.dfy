/**
  The decoded JSON payload that a status error carries in its `body`, and
  the part of Python's truthiness that the queue-state lookup relies on.
  Floating-point numbers are not modelled.
 */
module JsonValues {

  datatype JsonValue =
    | JNull
    | JBool(b: bool)
    | JNumber(n: int)
    | JString(s: string)
    | JArray(items: seq<JsonValue>)
    | JObject(fields: map<string, JsonValue>)

  /** Whether Python treats the decoded value as true in an `if`. */
  predicate Truthy(v: JsonValue) {
    match v
    case JNull => false
    case JBool(b) => b
    case JNumber(n) => n != 0
    case JString(s) => s != ""
    case JArray(items) => items != []
    case JObject(fields) => |fields| != 0
  }
}
