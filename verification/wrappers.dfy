/** Failure-carrying datatypes shared by the rest of the model. */
module Wrappers {

  /** A value that may be absent: a missing event field, an unparseable date, a chart not drawn. */
  datatype Option<+T> = None | Some(value: T)

  /** The outcome of a step that can throw in the dashboard script. */
  datatype Result<+R, +E> = Success(value: R) | Failure(error: E)
}
