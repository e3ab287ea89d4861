/**
 * The Python exceptions the cutting engine can raise, and the value types
 * that carry them: `Result` for a call that returns or raises, `Option` for
 * a call that returns a value or `None`.
 */
module Errors {
  import opened Values

  datatype Error =
    | KeyError(key: Value)
    | IndexError
    | ValueError(message: string)
    | TypeError(message: string)
    | NameError(name: string)
    | UnboundLocalError(name: string)
    | StopIteration

  datatype Result<+T> = Ok(value: T) | Err(error: Error)

  datatype Option<+T> = None | Some(value: T)
}
