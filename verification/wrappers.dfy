/** Option, Result and the panic outcome used throughout the model. */
module Wrappers {

  datatype Option<+T> = None | Some(value: T)

  datatype Result<+T, +E> = Ok(value: T) | Err(error: E)

  /** The outcome of Rust code that may panic (`expect`, `panic!`): either it returns a
      value, or it unwinds with the given message. It works with `:-`, so a chain of
      `expect` calls reads as a chain of `:-` bindings. */
  datatype Panicking<+T> = Returns(value: T) | Panics(message: string) {
    predicate IsFailure() { Panics? }

    function PropagateFailure<U>(): Panicking<U>
      requires Panics?
    {
      Panics(message)
    }

    function Extract(): T
      requires Returns?
    {
      value
    }
  }

  /** `r.expect(message)`: the value on `Ok`, a panic carrying `message` on `Err`. */
  function Expect<T, E>(r: Result<T, E>, message: string): (p: Panicking<T>)
    ensures p.Returns? <==> r.Ok?
    ensures p.Returns? ==> p.value == r.value
    ensures p.Panics? ==> p.message == message
  {
    match r
    case Ok(v) => Returns(v)
    case Err(_) => Panics(message)
  }
}
