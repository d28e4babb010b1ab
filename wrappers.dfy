/** Option and Result, the tagged values used for optional results and for
    calls that either succeed or raise. */
module Wrappers {

  datatype Option<+T> = None | Some(value: T)

  /** A foreign call or an operation of the model that either returns a value
      or raises; `Failure` carries what the raised exception says. */
  datatype Result<+R, +E> = Success(value: R) | Failure(error: E)
}
