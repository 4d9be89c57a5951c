/** Failure-carrying values shared by every module of the model. */
module Wrappers {

  /** A value that may be absent: Python's None, a NULL pointer, a probe that failed. */
  datatype Option<+T> = None | Some(value: T)
}
