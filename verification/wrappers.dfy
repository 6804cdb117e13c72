/** Failure-carrying datatypes shared by the whole model. */
module Wrappers {

  /** A value that may be absent: JavaScript `undefined`/`null` versus a present value. */
  datatype Option<+T> = None | Some(value: T) {

    /** The carried value, or `default` when absent. */
    function GetOr(default: T): T {
      match this
      case Some(v) => v
      case None => default
    }
  }

  /** The outcome of a remote call that yields a value: a resolved or a rejected promise. */
  datatype Result<+R, +E> = Success(value: R) | Failure(error: E)

  /** The outcome of a remote call whose resolved value is not used. */
  datatype Outcome<+E> = Pass | Fail(error: E)
}
