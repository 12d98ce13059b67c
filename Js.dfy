/**
 * The few JavaScript notions the storage engine depends on: the kinds of
 * values its options and arguments can hold, JavaScript truthiness, thrown
 * errors, and failure-compatible result types.
 */
module Js {

  /** A JavaScript value as far as the engine inspects it. Numbers are
      modelled as integers: the engine only tests them for truthiness. */
  datatype Value =
    | Undefined
    | Null
    | Bool(b: bool)
    | Num(n: int)
    | Str(s: string)
    | Object

  /** JavaScript truthiness: `if (v)`, `!v`, `a || b`. */
  predicate Truthy(v: Value)
  {
    match v
    case Undefined => false
    case Null => false
    case Bool(b) => b
    case Num(n) => n != 0
    case Str(s) => s != ""
    case Object => true
  }

  /** `typeof v === 'object'`, which holds of `null` as well. */
  predicate IsObjectType(v: Value)
  {
    v.Null? || v.Object?
  }

  /** `a || b` */
  function Or(a: Value, b: Value): (r: Value)
    ensures Truthy(a) ==> r == a
    ensures !Truthy(a) ==> r == b
  {
    if Truthy(a) then a else b
  }

  /** A thrown error: one the engine raises itself (`new Error(message)`),
      a `TypeError` raised by the runtime, or whatever a collaborator throws. */
  datatype Error =
    | Error(message: string)
    | TypeError(message: string)

  datatype Option<+T> = None | Some(value: T)

  /** Either the value a call returns or the error it throws. */
  datatype Result<+T> = Ok(value: T) | Err(error: Error) {
    predicate IsFailure() { Err? }

    function PropagateFailure<U>(): Result<U>
      requires Err?
    {
      Err(error)
    }

    function Extract(): T
      requires Ok?
    {
      value
    }
  }
}
