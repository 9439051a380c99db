/** Optional values and pass/fail outcomes, standing in for Python's None and raised exceptions. */
module Wrappers {

  /** A value that may be absent (Python's None). */
  datatype Option<+T> = None | Some(value: T)

  /** The result of an operation that either completes or raises an error. */
  datatype Outcome<+E> = Pass | Fail(error: E)
}
