/**
 * JavaScript values as they travel in extension messages and preference
 * records (JSON-shaped: numbers are whole numbers in this model). A missing
 * object property is JavaScript's `undefined`.
 */
module JsValues {
  import opened Wrappers
  import opened Strings

  datatype Value = Null | Bool(b: bool) | Num(n: int) | Str(s: string)

  /** A JSON object: property name to value; an absent name reads as `undefined`. */
  type Object = map<string, Value>

  /** JavaScript truthiness (`if (v)`, `v || x`). */
  predicate Truthy(v: Value) {
    match v
    case Null => false
    case Bool(b) => b
    case Num(n) => n != 0
    case Str(s) => s != ""
  }

  /** `${v}` in a template literal. */
  function Text(v: Value): string {
    match v
    case Null => "null"
    case Bool(b) => if b then "true" else "false"
    case Num(n) => IntToString(n)
    case Str(s) => s
  }

  /** `${obj.name}`: the property's text, or "undefined" when it is absent. */
  function FieldText(obj: Object, name: string): string {
    if name in obj then Text(obj[name]) else "undefined"
  }

  /** `obj.name` read for truthiness: an absent property is falsy. */
  predicate FieldTruthy(obj: Object, name: string) {
    name in obj && Truthy(obj[name])
  }
}
