/** The Go `error` values that the startup code creates or passes along. */
module Errors {

  datatype Error =
    /** An error returned by a call outside this model (a file read, the control-plane client, ...) */
    | Opaque(message: string)
    /** `errors.Wrap(cause, context)`: the cause kept unchanged under a context message */
    | Wrapped(context: string, cause: Error)
    /** `errors.Errorf(...)`: a fresh error with a formatted message */
    | Formatted(message: string)

  /** The outcome of an external call that yields only an error or nil. */
  datatype Outcome = Ok | Failed(err: Error)
}
