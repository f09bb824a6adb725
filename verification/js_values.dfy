/**
 * The JavaScript values that reach the send interceptor: the options tree passed to
 * `sendFile`, its nested `media` entries and `message`, and its `pFlags` object.
 */
module JsValues {
  import opened Wrappers

  /**
   * A JavaScript value. `Undefined` also stands for a property that is absent.
   * `Func` is a function or a symbol: truthy, not an object to the interceptor (its
   * `typeof` is not `'object'`), and a value `structuredClone` cannot copy. Properties
   * written onto a function are not tracked. Big integers are not represented.
   */
  datatype Value =
    | Undefined
    | Null
    | Bool(b: bool)
    | Num(n: int)
    | Str(s: string)
    | Func
    | Obj(fields: Fields)

  /**
   * An object's own state as far as the interceptor reads or writes it. `isArray` tells
   * whether the object is an Array (`Array.isArray`), and `elements` then holds its
   * elements; on any other object `elements` holds its index-named properties `0`, `1`, …
   * (which only a spread copy of an array has here); the other fields are the properties
   * `media`, `message`, `pFlags` and `ttl_seconds` (on a `pFlags` object, `ttl_seconds`
   * is the flag the interceptor sets).
   */
  datatype Fields = Fields(
    isArray: bool,
    elements: seq<Value>,
    media: Value,
    message: Value,
    pFlags: Value,
    ttlSeconds: Value)

  /** JavaScript truthiness (numbers here are integers, so NaN does not arise). */
  predicate Truthy(v: Value)
  {
    match v
    case Undefined => false
    case Null => false
    case Bool(b) => b
    case Num(n) => n != 0
    case Str(s) => s != ""
    case Func => true
    case Obj(_) => true
  }

  /** `Array.isArray(v)`. */
  predicate IsArray(v: Value)
  {
    v.Obj? && v.fields.isArray
  }

  /** `structuredClone(v)` succeeds: no function or symbol occurs anywhere in `v`. */
  predicate Cloneable(v: Value)
    decreases v
  {
    match v
    case Func => false
    case Obj(f) =>
      (forall i :: 0 <= i < |f.elements| ==> Cloneable(f.elements[i])) &&
      Cloneable(f.media) && Cloneable(f.message) && Cloneable(f.pFlags) && Cloneable(f.ttlSeconds)
    case _ => true
  }

  /** A freshly built array holding `xs` and no other own property, as `Array.prototype.map` returns. */
  function PlainArray(xs: seq<Value>): Value
  {
    Obj(Fields(true, xs, Undefined, Undefined, Undefined, Undefined))
  }

  /** A plain object with none of the interceptor's properties set, written `{}` in JavaScript. */
  function EmptyObject(): Value
  {
    Obj(Fields(false, [], Undefined, Undefined, Undefined, Undefined))
  }
}
