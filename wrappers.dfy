/** Option and Result values used across the model in place of JavaScript's
    `undefined`/`null` and of thrown errors. */
module Wrappers {

  datatype Option<+T> = None | Some(value: T)

  datatype Result<+T, +E> = Ok(value: T) | Err(error: E)
}
