/**
 * The field values the order service sends back, JavaScript truthiness, the
 * string a template literal or `Array.join` makes of a value, and the
 * `getVal` helper of the message handler (index.js:135).
 */
module Json {
  import opened JsStrings

  /** A JSON scalar; an absent field is read as `JNull` (JavaScript's `undefined`, falsy like `null`). */
  datatype JsonValue = JNull | JBool(b: bool) | JNum(n: int) | JStr(s: string)

  /** The flat field map of one order, keyed by column header. */
  type Record = map<string, JsonValue>

  /** JavaScript truthiness: `null`, `false`, `0` and `""` are falsy. */
  predicate Truthy(v: JsonValue) {
    match v
    case JNull => false
    case JBool(b) => b
    case JNum(n) => n != 0
    case JStr(s) => s != ""
  }

  /**
   * `String(v)`, as a template literal renders the value. The handler only
   * renders values `getVal` found truthy, or its `''` fallback, so `JNull`
   * never reaches it there; a truthy value never renders empty.
   */
  function Text(v: JsonValue): (r: string)
    ensures Truthy(v) ==> r != ""
  {
    match v
    case JNull => "null"
    case JBool(b) => if b then "true" else "false"
    case JNum(n) => IntToString(n)
    case JStr(s) => s
  }

  /** `data[key] || ''`: the stored value when it is truthy, the empty string otherwise. */
  function GetVal(data: Record, key: string): (v: JsonValue)
    ensures Truthy(v) <==> key in data && Truthy(data[key])
    ensures Truthy(v) ==> v == data[key]
    ensures Truthy(v) <==> Text(v) != ""
  {
    if key in data && Truthy(data[key]) then data[key] else JStr("")
  }
}
