/** Option and Result, the model's rendering of Go's `(value, ok)` and `(value, error)` pairs.
    A Go `error` is represented by its message text. */
module Wrappers {

  datatype Option<+T> = None | Some(value: T)

  datatype Result<+T> = Ok(value: T) | Err(error: string)
}
