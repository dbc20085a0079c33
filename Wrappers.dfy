/** Option and Result, used for Redis lookups and for the exceptions of the service. */
module Wrappers {

  datatype Option<+T> = None | Some(value: T)

  /** Success carries the value; Failure carries what a Java method would throw. */
  datatype Result<+R, +E> = Success(value: R) | Failure(error: E)
}
