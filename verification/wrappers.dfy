/** Optional values and pass/fail outcomes, standing in for Go's nil pointers
    and nil-or-not `error` returns. */
module Wrappers {

  /** A value that may be absent: `None` plays the role of a nil pointer. */
  datatype Option<+T> = None | Some(value: T)

  /** The result of a check that either passes or fails with an error:
      `Pass` plays the role of a nil `error`. */
  datatype Outcome<+E> = Pass | Fail(error: E)
}
