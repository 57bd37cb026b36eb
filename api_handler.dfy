/**
 * The outcome of an HTTP call and the shared error normaliser of
 * src/utils/apiHandler.ts (`handleApi`).
 */
module ApiHandler {
  import opened Wrappers

  /** The `detail` member of an error response body: missing, a string, or some other JSON value. */
  datatype Detail = NoDetail | TextDetail(text: string) | OtherDetail

  /** An HTTP error response as far as the client reads it: its status code and the body's `detail`. */
  datatype HttpResponse = HttpResponse(status: int, detail: Detail)

  /**
   * What an awaited call can throw: an axios error, with a response when the
   * server answered, or any other exception.
   */
  datatype ApiError = AxiosError(response: Option<HttpResponse>) | OtherError

  /** The settled result of an awaited HTTP call. */
  datatype Outcome<+T> = Ok(value: T) | Err(error: ApiError)

  /**
   * A successful response body as the callers test it with `if (result)`:
   * a JSON object, or a falsy body (null, an empty string, 0, false).
   */
  datatype Body<+T> = Object(value: T) | Falsy

  const RequestFailed: string := "Request failed."
  const Unexpected: string := "An unexpected error occurred."

  /** The one message `handleApi` passes to `setErr` for a failure. */
  function ErrorMessage(e: ApiError): (msg: string)
    ensures e.OtherError? ==> msg == Unexpected
    ensures e.AxiosError? && e.response.Some? && e.response.value.detail.TextDetail?
      ==> msg == e.response.value.detail.text
    ensures e.AxiosError? && (e.response.None? || !e.response.value.detail.TextDetail?)
      ==> msg == RequestFailed
  {
    match e
    case AxiosError(Some(HttpResponse(_, TextDetail(text)))) => text
    case AxiosError(_) => RequestFailed
    case OtherError => Unexpected
  }

  /** What `handleApi` returns, and the messages it passed to `setErr`, in call order. */
  datatype Handled<+T> = Handled(value: Option<T>, errCalls: seq<string>)

  /**
   * `handleApi(fn, setErr)` applied to the outcome of `fn()`: the value on
   * success with no call to `setErr`; `null` and exactly one call to `setErr`
   * on failure.
   */
  function HandleApi<T>(o: Outcome<T>): (h: Handled<T>)
    ensures o.Ok? ==> h.value == Some(o.value) && h.errCalls == []
    ensures o.Err? ==> h.value == None && |h.errCalls| == 1
    ensures o.Err? ==> h.errCalls[0] == ErrorMessage(o.error)
  {
    match o
    case Ok(v) => Handled(Some(v), [])
    case Err(e) => Handled(None, [ErrorMessage(e)])
  }

  /** The value of an error-message state after `setErr` has been called with each of `calls` in turn. */
  function ApplyErrCalls(err: string, calls: seq<string>): (r: string)
    ensures calls == [] ==> r == err
    ensures calls != [] ==> r == calls[|calls| - 1]
    decreases calls
  {
    if calls == [] then err else ApplyErrCalls(calls[0], calls[1..])
  }

  /**
   * Exactly one of the two results comes back: a value, or a message. A
   * failure is never mistaken for a success, and a message is reported
   * only for a failure.
   */
  lemma HandleApiExclusive<T>(o: Outcome<T>)
    ensures HandleApi(o).value.Some? <==> HandleApi(o).errCalls == []
    ensures HandleApi(o).value.Some? <==> o.Ok?
  {
  }

  /**
   * The message tells the three kinds of failure apart: a server `detail`
   * comes through verbatim, and a generic message is reported only when
   * there is no string detail to report (or the server's detail is that
   * very text).
   */
  lemma ErrorMessageSource(e: ApiError)
    ensures ErrorMessage(e) == Unexpected ==>
      e.OtherError? || (e.response.Some? && e.response.value.detail == TextDetail(Unexpected))
    ensures ErrorMessage(e) == RequestFailed ==>
      e.AxiosError? && (e.response.None? || !e.response.value.detail.TextDetail?
                        || e.response.value.detail.text == RequestFailed)
  {
  }
}
