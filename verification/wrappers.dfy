/** Failure-carrying datatypes shared by the model. */
module Wrappers {

  /** An optional value; `None` stands for an argument that was not passed. */
  datatype Option<+T> = None | Some(value: T) {

    /** The carried value, or `default` when there is none (a JavaScript default parameter). */
    function GetOr(default: T): T {
      match this
      case Some(v) => v
      case None => default
    }
  }

  /** The outcome of an operation that can fail with an error of type `E`. */
  datatype Result<+R, +E> = Success(value: R) | Failure(error: E)
}
