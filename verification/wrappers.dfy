/** The two shapes JavaScript values take in this model: a value that may be
    `undefined`/`null` (Option), and a handler that may throw (Result). */
module Wrappers {

  datatype Option<+T> = None | Some(value: T)

  datatype Result<+T, +E> = Ok(value: T) | Err(error: E)
}
