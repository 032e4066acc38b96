/** Option and Result, the two failure-carrying shapes the model uses for
    JavaScript's `null` and for exceptions thrown by browser built-ins. */
module Outcomes {

  /** `null` / `undefined` versus a present value. */
  datatype Option<+T> = None | Some(value: T)

  /** A call that either returns `value` or throws `error`. */
  datatype Result<+T, +E> = Success(value: T) | Failure(error: E)
}
