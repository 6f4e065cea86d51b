/** Failure-compatible wrappers used throughout the model: a nullable value and
    an expected-or-error result. */
module Wrappers {

  /** A value that may be absent; stands in for a pointer that may be null. */
  datatype Option<+T> = None | Some(value: T)

  /** Either a value or an error; stands in for `tl::expected<T, E>`. */
  datatype Result<+T, +E> = Ok(value: T) | Err(error: E)
}
