/**
 * `HubSpotApiException` and the other Java exceptions the core can raise,
 * gathered into one failure type so that every operation returns a `Result`
 * instead of throwing.
 */
module Errors {
  import opened Wrappers

  /** The `Throwable` handed to the two-argument constructor; only its message is read. */
  datatype Cause = Cause(message: Option<string>)

  /**
   * The exception raised for a failed remote call. Its fields are final: a
   * datatype value never changes, and `statusCode`/`errorDetails` are the
   * accessors `getStatusCode()`/`getErrorDetails()`.
   */
  datatype HubSpotApiException = HubSpotApiException(
    message: string,
    statusCode: int,
    errorDetails: Option<string>,
    cause: Option<Cause>)

  /** `new HubSpotApiException(message, statusCode, errorDetails)`. */
  function NewApiException(message: string, statusCode: int, errorDetails: Option<string>): (e: HubSpotApiException)
    ensures e.message == message
    ensures e.statusCode == statusCode
    ensures e.errorDetails == errorDetails
    ensures e.cause.None?
  {
    HubSpotApiException(message, statusCode, errorDetails, None)
  }

  /** The status the two-argument constructor always records. */
  const CauseStatusCode := 500

  /**
   * `new HubSpotApiException(message, cause)`: status 500 and the cause's own
   * message as details; a null cause fails on `cause.getMessage()`.
   */
  function NewApiExceptionWithCause(message: string, cause: Option<Cause>): (r: Result<HubSpotApiException>)
    ensures cause.None? ==> r == Err(NullPointer)
    ensures cause.Some? ==> r.Ok? && r.value.message == message && r.value.statusCode == 500
    ensures cause.Some? ==> r.Ok? && r.value.errorDetails == cause.value.message && r.value.cause == cause
  {
    match cause
    case None => Err(NullPointer)
    case Some(c) => Ok(HubSpotApiException(message, CauseStatusCode, c.message, cause))
  }

  /** What can go wrong in the core, one case per Java exception class it raises or lets through. */
  datatype Failure =
    | ApiFailure(exception: HubSpotApiException)     // HubSpotApiException
    | HttpStatusFailure(status: int, body: string)    // an HttpStatusCodeException that nobody wrapped
    | TransportFailure(message: string)               // I/O failure below HTTP (ResourceAccessException)
    | IllegalArgument(message: string)                // IllegalArgumentException
    | NullPointer                                     // NullPointerException
    | ClassCast                                       // ClassCastException

  /** A value, or the exception that was thrown instead. */
  datatype Result<+T> = Ok(value: T) | Err(error: Failure)
}
