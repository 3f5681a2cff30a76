/**
 * The JavaScript values that travel through the background script unchanged: message fields,
 * request and user identifiers, scraped product data. Only what the script does with them is
 * modelled: strict equality against string constants and truthiness tests.
 */
module JsValues {

  /** A JavaScript value. Objects and arrays are opaque; `ref` tells distinct objects apart. */
  datatype Value =
    | Undefined
    | Null
    | Bool(b: bool)
    | Num(n: int)
    | Str(text: string)
    | Object(ref: nat)

  /** JavaScript truthiness: `undefined`, `null`, `false`, `0` and `""` are falsy, everything else is truthy. */
  predicate Truthy(v: Value) {
    match v
    case Undefined => false
    case Null => false
    case Bool(b) => b
    case Num(n) => n != 0
    case Str(s) => s != ""
    case Object(_) => true
  }
}
