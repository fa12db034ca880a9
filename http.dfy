/**
 * The outcome of one remote call. Transport, observables and retries are not
 * modelled: every request is paired with the response it receives, and the
 * response is handed to the operation as an `Outcome` value.
 */
module Http {
  import opened Wrappers

  /** `Failure` carries the server's `error.detail` field when the body had one. */
  datatype Outcome<+T> = Success(data: T) | Failure(detail: Option<string>)

  /**
   * The message the services record for a failed call: JavaScript's
   * `error.error?.detail || fallback`, where an empty detail is falsy and so
   * yields the fallback as well.
   */
  function DetailOr(detail: Option<string>, fallback: string): (message: string)
    ensures detail.Some? && detail.value != "" ==> message == detail.value
    ensures detail.None? || detail.value == "" ==> message == fallback
    ensures fallback != "" ==> message != ""
  {
    if detail.Some? && detail.value != "" then detail.value else fallback
  }
}
