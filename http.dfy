/**
 * The HTTP exchange as the SDK sees it, with the transport (reqwest and its
 * middleware) abstracted away: a request value goes out, and either a
 * transport error or a response (status code and body) comes back.
 */
module Http {
  import opened Wrappers

  /** A transport failure (`reqwest_middleware::Error` / `reqwest::Error` from `send`). */
  datatype TransportError = TransportError(reason: string)

  /** A failure of `Url::join` (`url::ParseError`). */
  datatype ParseError = ParseError(reason: string)

  /** A failure of `Response::json` (body unreadable or not the expected JSON). */
  datatype DecodeError = DecodeError(reason: string)

  /**
   * A URL: everything up to the query, and the query as the ordered list of
   * key/value pairs that `query_pairs_mut().append_pair` builds.
   */
  datatype Url = Url(location: string, query: seq<(string, string)>)

  datatype Method = Post

  datatype Header = Header(name: string, value: string)

  /** An outgoing request whose body has type `P` (JSON value, form, bytes, or none). */
  datatype Request<P> = Request(verb: Method, url: Url, headers: seq<Header>, body: P)

  /** A response: its status code and its body text, `None` when the body cannot be read. */
  datatype Response = Response(status: int, text: Option<string>)

  /** What `send().await` produced. */
  datatype Sent = Received(response: Response) | SendFailed(error: TransportError)

  /**
   * `StatusCode::is_success`: the 2xx class of section 15.3 of RFC 9110.
   */
  predicate IsSuccess(status: int)
  {
    200 <= status <= 299
  }

  /** One event of a Server-Sent-Events stream (`eventsource_stream::Event`). */
  datatype SseEvent = SseEvent(event: string, data: string, id: string)

  /** A framing or transport failure reported by the SSE layer. */
  datatype EventStreamError = EventStreamError(reason: string)
}
