/** The JavaScript values a request body field can hold, and the three ways
    the handlers read them: truthiness (`!x`, `x || d`, `!!x`), nullish
    defaulting (`x ?? d`) and rendering inside a template literal. */
module JsValues {
  import opened Strings

  /** Numbers are integers here; objects and arrays are one opaque value. */
  datatype JsValue = Undefined | Null | Bool(b: bool) | Number(n: int) | Str(s: string) | Object

  /** The values `!x` sends to true are exactly these six. */
  predicate Truthy(v: JsValue) {
    match v
    case Undefined => false
    case Null => false
    case Bool(b) => b
    case Number(n) => n != 0
    case Str(s) => s != ""
    case Object => true
  }

  predicate Nullish(v: JsValue) {
    v.Undefined? || v.Null?
  }

  /** `v ?? d`: only `undefined` and `null` are replaced; `0`, `false` and `""` are kept. */
  function Coalesce(v: JsValue, d: JsValue): (r: JsValue)
    ensures !Nullish(v) ==> r == v
    ensures Nullish(v) ==> r == d
  {
    if Nullish(v) then d else v
  }

  /** `v || d`: every falsy value is replaced. */
  function OrElse(v: JsValue, d: JsValue): (r: JsValue)
    ensures Truthy(v) ==> r == v
    ensures !Truthy(v) ==> r == d
  {
    if Truthy(v) then v else d
  }

  /** A destructuring default `{ x = d }`: only `undefined` is replaced. */
  function DefaultTo(v: JsValue, d: JsValue): (r: JsValue)
    ensures v != Undefined ==> r == v
    ensures v == Undefined ==> r == d
  {
    if v.Undefined? then d else v
  }

  /** `${v}` inside a template literal. */
  function TemplateString(v: JsValue): (r: string)
    ensures v.Str? ==> r == v.s
  {
    match v
    case Undefined => "undefined"
    case Null => "null"
    case Bool(b) => if b then "true" else "false"
    case Number(n) => IntToString(n)
    case Str(s) => s
    case Object => "[object Object]"
  }
}
