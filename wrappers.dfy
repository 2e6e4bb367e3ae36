/** Option and Result, used wherever the game code returns `null`/`undefined`
    or throws after logging. */
module Wrappers {

  datatype Option<+T> = None | Some(value: T)

  datatype Result<+T, +E> = Ok(value: T) | Err(error: E)
}
