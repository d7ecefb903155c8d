/** Optional values and results with an error, shared by every module. */
module Wrappers {

  /** A value that may be absent: `None` models JavaScript's `undefined`
      for an optional field (a missing key). An explicit `null` in a request
      body is not modelled. */
  datatype Option<+T> = None | Some(value: T)

  /** The outcome of an operation that can fail with an error of type `E`. */
  datatype Result<+T, +E> = Ok(value: T) | Err(error: E)
}
