/** The JavaScript values that can sit in an untyped request field, and the
    ToBoolean conversion (section 7.1.2 of ECMA-262) that `!!x` applies to them. */
module JsValues {

  import opened Wrappers

  /** A JavaScript value. Arrays, functions and every other object are folded
      into `Obj`: ToBoolean treats them all alike. `Number` carries the
      mathematical value of a finite double (so `-0` and `0` coincide); `NaN`
      is kept apart because it is the one non-zero-looking falsy number. */
  datatype JsValue =
    | Undefined
    | Null
    | Bool(b: bool)
    | Number(x: real)
    | NaN
    | BigInt(n: int)
    | Str(s: string)
    | Obj(fields: map<string, JsValue>)

  /** ToBoolean: `!!v` in the source. */
  predicate Truthy(v: JsValue)
  {
    match v
    case Undefined => false
    case Null => false
    case Bool(b) => b
    case Number(x) => x != 0.0
    case NaN => false
    case BigInt(n) => n != 0
    case Str(s) => s != ""
    case Obj(_) => true
  }

  /** `'k' in o && !!o.k` for a field `k` of an object `o`: `None` is a field
      that is not there at all, `Some(Undefined)` one that is there but holds
      `undefined`. */
  predicate PresentAndTruthy(field: Option<JsValue>)
  {
    field.Some? && Truthy(field.value)
  }
}
