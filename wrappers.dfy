/**
 * Small value wrappers shared by every module: Rust's `Option`, `Result`,
 * a byte, and the outcome of a call that may panic (`todo!()`, `unwrap()`).
 */
module Wrappers {

  datatype Option<T> = None | Some(value: T) {

    /** Rust's `unwrap_or`: the carried value, or `default` when absent. */
    function UnwrapOr(default: T): (r: T)
      ensures Some? ==> r == value
      ensures None? ==> r == default
    {
      match this
      case Some(v) => v
      case None => default
    }
  }

  datatype Result<T, E> = Ok(value: T) | Err(error: E)

  /** One octet of a byte buffer (`u8`). */
  type byte = b: int | 0 <= b < 256

  /** The ASCII line feed, `b'\n'`. */
  const NEWLINE: byte := 10

  /**
   * What a call does when it may panic: it either returns a value or
   * unwinds with the panic message.
   */
  datatype Outcome<T> = Returned(value: T) | Panicked(message: string)

  /**
   * The panic message of `Result::unwrap` on an `Err`, up to the `Debug`
   * rendering of the error, which is not modelled.
   */
  const UNWRAP_ON_ERR: string := "called `Result::unwrap()` on an `Err` value"
}
