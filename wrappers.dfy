/** Option and Result, the failure-carrying values the provisioning code returns
    in place of raising a Python exception. */
module Wrappers {

  datatype Option<+T> = None | Some(value: T)

  datatype Result<+R, +E> = Success(value: R) | Failure(error: E)
}
