/** Small value types shared by every module of the model. */
module Common {

  /** One octet, as in Rust's `u8` and JavaScript's `Uint8Array` elements. */
  newtype byte = x: int | 0 <= x < 256

  datatype Option<+T> = None | Some(value: T)

  /** Rust's `Result<T, E>` (here always with an explicit error type). */
  datatype Result<+T, +E> = Ok(value: T) | Err(error: E)

  /** A `Result<(), E>`. */
  datatype Outcome<+E> = Pass | Fail(error: E)
}
