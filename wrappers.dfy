/** Option, Result and Outcome, as the rest of the model uses them for the source's
    `Option<_>`, `Result<_, _>` and `Result<(), _>`. */
module Wrappers {

  datatype Option<+T> = None | Some(value: T)

  datatype Result<+R, +E> = Ok(value: R) | Err(error: E)

  /** The result of an operation that returns nothing but may fail. */
  datatype Outcome<+E> = Pass | Fail(error: E)
}
