/** Absent-versus-present values and success-or-error results. */
module Wrappers {

  /** `None` stands for a JavaScript `undefined` (a key that is not there). */
  datatype Option<+T> = None | Some(value: T)

  datatype Result<+T, +E> = Ok(value: T) | Err(error: E)
}
