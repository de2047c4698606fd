/** Optional values and fallible results shared by both programs. */
module Wrappers {

  /** An optional value (Rust's `Option`). */
  datatype Option<+T> = None | Some(value: T)

  /** A success value or an error message (Rust's `Result<T, String>`). */
  datatype Result<+T> = Ok(value: T) | Err(error: string)
}
