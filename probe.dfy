/**
 * What one HTTP attempt (`fetchWithTimeout`) hands to the evaluator. The request itself,
 * its timer and its cancellation are not modelled: an attempt's outcome is an input.
 */
module Probe {

  /** The two response headers the probe keeps ("" when the server sent none). */
  datatype Headers = Headers(contentType: string, contentLength: string)

  /** The outcome of one attempt: a transport failure, or a response with its full body. */
  datatype Outcome =
    | Failed(error: string, durationMs: int)
    | Responded(status: int, finalUrl: string, body: string, headers: Headers, durationMs: int)

  /** What the probe is asked to do: URL, HTTP method, deadline and request headers. */
  datatype Request = Request(url: string, httpMethod: string, timeoutMs: int, headers: map<string, string>)

  /**
   * The `error` of a failed attempt, from the thrown error's `name` and `message`
   * (an absent message is ""): an abort of the timer is a timeout, anything else
   * reports its message, or a generic network error when it has none.
   */
  function ErrorKind(name: string, message: string): (kind: string)
    ensures kind != ""
    ensures name == "AbortError" ==> kind == "TIMEOUT"
    ensures name != "AbortError" ==> kind == message || (message == "" && kind == "NETWORK_ERROR")
  {
    if name == "AbortError" then "TIMEOUT"
    else if message != "" then message
    else "NETWORK_ERROR"
  }

  /** The URL a response reports after redirects, or the requested one when the response has none. */
  function FinalUrl(responseUrl: string, requested: string): (url: string)
    ensures url == requested || url == responseUrl
    ensures responseUrl != "" ==> url == responseUrl
    ensures requested != "" ==> url != ""
  {
    if responseUrl != "" then responseUrl else requested
  }

  /**
   * What `fetch` did on one attempt: it threw an error with a `name` and a `message`, or it
   * answered with a status, its own `url` ("" when absent), the body text and the headers.
   */
  datatype Attempt =
    | Threw(name: string, message: string, elapsedMs: int)
    | Answered(code: int, responseUrl: string, text: string, kept: Headers, elapsedMs: int)

  /**
   * `fetchWithTimeout(url, …)` after `fetch` settled: a throw becomes a failure named by
   * `ErrorKind`, an answer a response whose final URL is `FinalUrl` of the answer's URL.
   */
  function Fetch(url: string, a: Attempt): (o: Outcome)
    ensures o.Failed? <==> a.Threw?
    ensures o.durationMs == a.elapsedMs
    ensures o.Failed? ==> o.error != "" && o.error == ErrorKind(a.name, a.message)
    ensures o.Responded? ==>
      && o.status == a.code && o.body == a.text && o.headers == a.kept
      && o.finalUrl == FinalUrl(a.responseUrl, url)
  {
    match a
    case Threw(name, message, elapsedMs) => Failed(ErrorKind(name, message), elapsedMs)
    case Answered(code, responseUrl, text, kept, elapsedMs) =>
      Responded(code, FinalUrl(responseUrl, url), text, kept, elapsedMs)
  }
}
