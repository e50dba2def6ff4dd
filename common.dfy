/** Small value types shared by the modules of this model. */
module Common {

  /** A value that may be absent: `null`/`undefined` in the application. */
  datatype Option<+T> = None | Some(value: T)

  /** The outcome of a step that either produces a value or fails with an error. */
  datatype Result<+T, +E> = Ok(value: T) | Err(error: E)

  /** What a `catch` block receives: an `Error` object with its message, or any other thrown value. */
  datatype Thrown = ErrorInstance(message: string) | NonError

  /** The text a handler's `catch` shows: `error instanceof Error ? error.message : fallback`. */
  function Shown(t: Thrown, fallback: string): (text: string)
    ensures t.ErrorInstance? ==> text == t.message
    ensures t.NonError? ==> text == fallback
  {
    match t
    case ErrorInstance(m) => m
    case NonError => fallback
  }
}
