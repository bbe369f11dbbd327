/** The JavaScript values the front end tests for truthiness: untyped
    payloads, optional strings and numbers, and the `x || fallback` idiom. */
module JsValues {
  import opened Wrappers

  /** A value typed `any`; only its truthiness is observed. */
  datatype JsValue = Null | Undefined | Bool(b: bool) | Number(n: int) | Str(s: string) | Object(id: nat)

  /** `!!v` (NaN is not modelled). */
  predicate Truthy(v: JsValue) {
    match v
    case Null => false
    case Undefined => false
    case Bool(b) => b
    case Number(n) => n != 0
    case Str(s) => s != ""
    case Object(_) => true
  }

  /** A `string | undefined` is truthy when it is a non-empty string. */
  predicate TruthyText(t: Option<string>) {
    t.Some? && t.value != ""
  }

  /** `t || fallback` for an optional string. */
  function TextOr(t: Option<string>, fallback: string): (r: string)
    ensures TruthyText(t) ==> r == t.value
    ensures !TruthyText(t) ==> r == fallback
  {
    if TruthyText(t) then t.value else fallback
  }

  /** `n || fallback` for an optional number. */
  function NumberOr(n: Option<int>, fallback: int): (r: int)
    ensures n.Some? && n.value != 0 ==> r == n.value
    ensures n.None? || n.value == 0 ==> r == fallback
  {
    if n.Some? && n.value != 0 then n.value else fallback
  }
}
