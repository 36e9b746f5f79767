/** Option and Result shared by the rest of the model.
    `Option` stands for a JavaScript value that may be null or undefined;
    `Result` stands for a computation that either returns or throws. */
module Wrappers {

  datatype Option<+T> = None | Some(value: T)

  datatype Result<+T, +E> = Ok(value: T) | Err(error: E)
}
