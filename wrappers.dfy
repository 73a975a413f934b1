/** Option and result types shared by the handlers. */
module Wrappers {

  /** A value that may be absent (a store read that raised, a decode that failed). */
  datatype Option<+T> = None | Some(value: T)

  /** The outcome of a request handler: its JSON body, or the HTTP error it raises. */
  datatype Result<+R, +E> = Success(value: R) | Failure(error: E)
}
