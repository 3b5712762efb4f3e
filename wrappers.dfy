/** Option, Result and pass-or-error wrappers: a nullable value, a value-or-error, a pass-or-error. */
module Wrappers {

  datatype Option<+T> = None | Some(value: T)

  datatype Result<+R, +E> = Ok(value: R) | Err(error: E)

  datatype Outcome<+E> = Pass | Fail(error: E)
}
