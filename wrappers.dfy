/** Success/failure carriers used for the exceptions the services throw. */
module Wrappers {

  datatype Option<+T> = None | Some(value: T)

  datatype Result<+R, +E> = Success(value: R) | Failure(error: E)

  /** A step that either completes or throws, carrying no value. */
  datatype Outcome<+E> = Pass | Fail(error: E)
}
