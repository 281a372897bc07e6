/**
 * Error kinds and result wrappers shared by every layer of the proxy-client
 * pipeline. The source reports failures as wrapped Go error strings; here the
 * kind of failure is what is kept.
 */
module Outcomes {

  /** Why an operation failed. */
  datatype ErrorKind =
    | Validation   // the caller's data broke a precondition of the use case
    | NotFound     // no row had the requested id
    | Persistence  // the store or its driver reported an error

  /** A value, or the kind of error that prevented computing it. */
  datatype Result<T> = Ok(value: T) | Err(error: ErrorKind)

  /** The outcome of an operation that returns only an error. */
  datatype Outcome = Pass | Fail(error: ErrorKind)

  datatype Option<T> = None | Some(value: T)
}
