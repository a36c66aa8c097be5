/** JSON values as JavaScript sees them after `JSON.parse`, with the two
    coercions the client applies to them: truthiness and `String(v)`. */
module Js {
  import opened Wrappers
  import opened Strings

  /** A JSON value. Numbers are restricted to integers. */
  datatype Json =
    | JNull
    | JBool(b: bool)
    | JNum(n: int)
    | JStr(s: string)
    | JArr(items: seq<Json>)
    | JObj(fields: map<string, Json>)

  /** JavaScript truthiness: `null`, `false`, `0` and `""` are the falsy JSON values. */
  predicate Truthy(v: Json) {
    match v
    case JNull => false
    case JBool(b) => b
    case JNum(n) => n != 0
    case JStr(s) => s != ""
    case JArr(_) => true
    case JObj(_) => true
  }

  /** Truthiness of a property read, where None is `undefined`. */
  predicate TruthyValue(v: Option<Json>) {
    v.Some? && Truthy(v.value)
  }

  /** `String(v)`: an array joins its elements with commas (null elements
      become empty), an object becomes "[object Object]". */
  function ToJsString(v: Json): (r: string)
    decreases v, 1
  {
    match v
    case JNull => "null"
    case JBool(b) => if b then "true" else "false"
    case JNum(n) => IntToString(n)
    case JStr(s) => s
    case JArr(items) => Join(items, 0)
    case JObj(_) => "[object Object]"
  }

  /** `items.slice(from).join(",")`, with `null` elements rendered empty. */
  function Join(items: seq<Json>, from: nat): string
    requires from <= |items|
    decreases items, 0, |items| - from
  {
    if from == |items| then ""
    else
      var head := if items[from] == JNull then "" else ToJsString(items[from]);
      if from + 1 == |items| then head else head + "," + Join(items, from + 1)
  }

  /** `String(v)` of a property read, where None is `undefined`. */
  function ToJsStringValue(v: Option<Json>): string {
    if v.None? then "undefined" else ToJsString(v.value)
  }
}
