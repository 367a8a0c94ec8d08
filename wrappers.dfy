/** Option and Result, used wherever the source has `undefined` or a thrown error. */
module Wrappers {

  datatype Option<+T> = None | Some(value: T)

  datatype Result<+R, +E> = Success(value: R) | Failure(error: E)

  /** JavaScript truthiness of an optional string: present and non-empty. */
  predicate Present(v: Option<string>)
  {
    v.Some? && v.value != ""
  }
}
