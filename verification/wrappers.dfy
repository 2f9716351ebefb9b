/** Option and Result, the two failure-carrying datatypes the model uses. */
module Wrappers {

  /** A value that may be absent; stands for a JavaScript `null`. */
  datatype Option<+T> = None | Some(value: T)
  {
    /** The carried value, or `default` when absent (the `??` operator). */
    function GetOr(default: T): T
    {
      match this
      case Some(v) => v
      case None => default
    }
  }

  /** The outcome of an operation that the source may abort by throwing. */
  datatype Result<+R, +E> = Success(value: R) | Failure(error: E)
}
