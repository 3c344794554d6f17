/** Optional values and pass/fail outcomes, standing in for Java's `null`
    returns and thrown exceptions. */
module Wrappers {

  datatype Option<+T> = None | Some(value: T)

  /** The outcome of an operation that either succeeds or reports why not. */
  datatype Outcome<+E> = Pass | Fail(error: E)
}
