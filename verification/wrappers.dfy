/** Option and Outcome, the two failure-carrying shapes the model needs. */
module Wrappers {

  /** A value that may be missing: JavaScript's `undefined`, `null` or `NaN`. */
  datatype Option<+T> = None | Some(value: T)

  /** The result of a statement that either completes or throws `error`. */
  datatype Outcome<+E> = Pass | Fail(error: E)
}
