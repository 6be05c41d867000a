/**
 The few JavaScript value semantics the library's helpers depend on:
 optional arguments (`undefined` or a value), raw record fields as they come
 back from the index, and the truthiness tests `x ? … : …` and `x || …`.
 */
module JsValues {

  /** An optional argument: `None` is JavaScript's `undefined`. */
  datatype Option<+T> = None | Some(value: T) {

    /** The value, or `default` when undefined (a destructuring default). */
    function GetOr(default: T): T {
      match this
      case Some(v) => v
      case None => default
    }
  }

  /** A string argument is truthy when it is given and not empty. */
  predicate TextTruthy(x: Option<string>) {
    x.Some? && x.value != ""
  }

  /** A numeric argument is truthy when it is given and not zero. */
  predicate NumberTruthy(x: Option<int>) {
    x.Some? && x.value != 0
  }

  /** A raw field of an indexed record. */
  datatype JsValue = Undefined | Null | Str(s: string) | Num(n: int)

  /** JavaScript truthiness of a raw field (NaN is not modelled). */
  predicate Truthy(v: JsValue) {
    match v
    case Undefined => false
    case Null => false
    case Str(s) => s != ""
    case Num(n) => n != 0
  }
}
