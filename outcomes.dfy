/** Option and Result wrappers shared by the region and strategy models. */
module Outcomes {

  /** A value that may be absent (Python's `None`). */
  datatype Option<+T> = None | Some(value: T)

  /** A computation that either yields a value or stops with an error, where the
      source would raise an exception. */
  datatype Result<+T, +E> = Ok(value: T) | Err(error: E)
}
