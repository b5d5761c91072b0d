/** Option and Result, the two wrappers the Event model uses. */
module Wrappers {

  /** A value that may be absent. `None` stands for a Java `null` reference. */
  datatype Option<+T> = None | Some(value: T)

  /** The outcome of a call that either returns normally or throws. */
  datatype Result<+R, +E> = Success(value: R) | Failure(error: E)
}
