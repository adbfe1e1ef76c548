/** Outcomes shared by the modules of this project. */
module Wrappers {

  datatype Option<+T> = None | Some(value: T)

  datatype Result<+T, +E> = Ok(value: T) | Err(error: E)

  /** A Rust call that returns `Result`, or aborts the thread (slice out of range,
      arithmetic underflow, division by zero, `unwrap` of a failure). */
  datatype Outcome<+T, +E> = Returns(value: T) | Fails(error: E) | Panics
}
