/** JavaScript values as the proxy sees them: decoded JSON envelopes, request
    descriptors and the objects it builds. Numbers are integers here; floating
    point (and NaN) is not modelled. */
module Js {

  datatype Value =
    | Undefined
    | Null
    | Bool(b: bool)
    | Num(n: int)
    | Str(s: string)
    | Arr(items: seq<Value>)
    | Obj(props: map<string, Value>)

  /** What a JavaScript exception carries. `Error(message)` is `new Error(message)`;
      `TypeError(property)` is what the engine throws on reading `property` of
      null or undefined, or on calling a method that is not there. */
  datatype Error =
    | Error(message: string)
    | TypeError(property: string)

  /** A settled promise: resolved with a value or rejected with an exception. */
  datatype Result<+T> = Success(value: T) | Failure(error: Error) {
    predicate IsFailure() { Failure? }

    function PropagateFailure<U>(): Result<U>
      requires Failure?
    {
      Failure(error)
    }

    function Extract(): T
      requires Success?
    {
      value
    }
  }

  datatype Option<+T> = None | Some(value: T)

  predicate Nullish(v: Value) {
    v.Undefined? || v.Null?
  }

  /** `if (v)`: the falsy values are undefined, null, false, 0 and "". */
  predicate Truthy(v: Value) {
    match v
    case Undefined => false
    case Null => false
    case Bool(b) => b
    case Num(n) => n != 0
    case Str(s) => s != ""
    case Arr(_) => true
    case Obj(_) => true
  }

  /** `v.name` (and `({ name }) => …` destructuring). Reading any property of
      null or undefined throws; an object yields its own property or undefined;
      the other primitives and arrays yield undefined. Of the built-in
      properties, only the array method `map` is read by the proxy, and that
      call is modelled where it is made, not here. */
  function Get(v: Value, name: string): Result<Value> {
    match v
    case Undefined => Failure(TypeError(name))
    case Null => Failure(TypeError(name))
    case Obj(props) => Success(if name in props then props[name] else Undefined)
    case _ => Success(Undefined)
  }
}
