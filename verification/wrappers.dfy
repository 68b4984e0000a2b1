/** Option and Result, and the handful of JavaScript value kinds that the
    application inspects at run time (`typeof`, `Array.isArray`, `??`,
    truthiness). */
module Wrappers {

  datatype Option<T> = None | Some(value: T)

  datatype Result<T, E> = Ok(value: T) | Err(error: E)

  /** A JavaScript value as far as the code distinguishes it. Numbers are
      integers here; NaN and fractions never reach the modelled branches. */
  datatype JsValue =
    | Undefined
    | Null
    | Bool(b: bool)
    | Num(n: int)
    | Str(s: string)
    | Arr(elems: seq<JsValue>)
    | Obj(fields: map<string, JsValue>)

  /** `Boolean(v)`. */
  predicate Truthy(v: JsValue)
  {
    match v
    case Undefined => false
    case Null => false
    case Bool(b) => b
    case Num(n) => n != 0
    case Str(s) => s != ""
    case Arr(_) => true
    case Obj(_) => true
  }

  /** `v[k]` for an object; every other value reads as `undefined`. */
  function Prop(v: JsValue, k: string): JsValue
  {
    if v.Obj? && k in v.fields then v.fields[k] else Undefined
  }
}
