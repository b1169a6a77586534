/** Failure-compatible result types shared by the modules of this project. */
module Wrappers {

  /** Swift's optional `T?` and Python's `None`-or-value. */
  datatype Option<+T> = None | Some(value: T)

  /** A value or the error a throwing Swift function raises. */
  datatype Result<+R, +E> = Ok(value: R) | Err(error: E)
}
