/** The failures the library raises, as a tagged datatype instead of
    exception classes. */
module Errors {
  import opened Values

  /** An error thrown by the HTTP transport. Whether it was caused by a
      Pushwoosh server error is decided by a trait whose code is not part
      of this model, so the classification travels with the error. */
  datatype TransportError = TransportError(reason: string, serverError: bool)

  /** The transient-error test the client consults before retrying. */
  predicate CausedByPushwooshServerError(e: TransportError) {
    e.serverError
  }

  datatype Error =
    /** `InvalidArgumentException` from a message setter. */
    | InvalidArgument(message: string)
    /** `PushwooshException` carrying the API's status message. */
    | ApiError(message: string)
    /** `UnknownDeviceException` carrying the devices the API rejected. */
    | UnknownDevice(devices: Value)
    /** `PushwooshException` wrapping the transport error that ended the send. */
    | CommFailure(message: string, previous: TransportError)

  /** A value, or the exception that replaced it. */
  datatype Result<+T> = Success(value: T) | Failure(error: Error)

  /** The outcome of a setter that may throw instead of returning `$this`. */
  datatype Outcome = Done | Rejected(error: Error)
}
