/** Option and the exception-carrying Result used throughout the model. */
module Wrappers {

  datatype Option<+T> = None | Some(value: T)

  /** A JavaScript exception. `Error` is what the library throws itself (`throw new Error(message)`);
      `TypeError` and `SyntaxError` are raised by the engine (a property read on null or undefined,
      a call of something that is not a function, JSON.parse of malformed text, an invalid array length). The wording of the
      engine's messages is the model's own. */
  datatype Error =
    | Error(message: string)
    | TypeError(message: string)
    | SyntaxError(message: string)
    | RangeError(message: string)

  /** The outcome of a JavaScript computation that may throw. */
  datatype Result<+T> = Ok(value: T) | Err(error: Error) {

    predicate IsFailure() {
      Err?
    }

    function PropagateFailure<U>(): Result<U>
      requires Err?
    {
      Err(error)
    }

    function Extract(): T
      requires Ok?
    {
      value
    }
  }
}
