/** JavaScript values as they flow through the response pipeline: what a
    controller returns and what an exception carries as its response body. */
module Json {

  datatype Json =
    | JUndefined
    | JNull
    | JBool(b: bool)
    | JNum(n: int)
    | JStr(s: string)
    | JArr(items: seq<Json>)
    | JObj(fields: map<string, Json>)

  /** JavaScript truthiness (`if (v)`, `v || d`); numbers are whole, so NaN does not arise. */
  predicate Truthy(v: Json) {
    match v
    case JUndefined => false
    case JNull => false
    case JBool(b) => b
    case JNum(n) => n != 0
    case JStr(s) => s != ""
    case JArr(_) => true
    case JObj(_) => true
  }

  /** `key in v`: an own key of an object (arrays carry no named keys here). */
  predicate HasKey(v: Json, key: string) {
    v.JObj? && key in v.fields
  }

  /** `v[key]`: the property, or `undefined` when it is absent. */
  function Get(v: Json, key: string): Json {
    if HasKey(v, key) then v.fields[key] else JUndefined
  }
}
