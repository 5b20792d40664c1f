/** Failure-carrying results shared by the other modules. */
module Wrappers {

  datatype Option<T> = None | Some(value: T)

  /** The outcome of an operation that either completes or throws with a message. */
  datatype Outcome<E> = Pass | Fail(error: E)
}
