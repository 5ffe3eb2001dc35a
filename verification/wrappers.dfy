/** Absent values and error returns shared by the modules of this model. */
module Wrappers {

  /** A value that may be missing: a JavaScript `null`, a failed decode. */
  datatype Option<+T> = None | Some(value: T)

  /** Rust's `Result`: a value, or the error that replaced it. */
  datatype Result<+T, +E> = Ok(value: T) | Err(error: E)
}
