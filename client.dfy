/**
 * The shared request pipeline of `GigaChatClient` (src/client/mod.rs) and
 * its error taxonomy (src/client/error.rs): URL building, the 2xx status
 * check, and "send, check status, decode" as one step.
 */
module Client {
  import opened Wrappers
  import opened Http

  /** `client::error::RequestError`: one variant per failing stage of `perform_request`. */
  datatype RequestError =
    | SendRequest(sendError: TransportError)
    | BadResponse(statusCode: int, description: string)
    | ParseResponse(decodeError: DecodeError)

  /** `client::BuildUrlError`: the join failure together with the inputs that caused it. */
  datatype BuildUrlError = BuildUrlError(source: ParseError, baseUrl: Url, path: string)

  /**
   * The dynamically typed `anyhow::Error` of the feature code that talks to
   * the transport directly instead of through `perform_request`: the cause is
   * kept, and `.context(...)` adds a message on top of it.
   */
  datatype AnyError =
    | UrlParse(parse: ParseError)
    | Transport(transport: TransportError)
    | Failed(request: RequestError)
    | Decode(decode: DecodeError)
    | Message(text: string)
    | Context(context: string, cause: AnyError)

  /**
   * `check_response`: a 2xx response passes unchanged; any other status
   * fails with that status and the body text, or "" when the body cannot be
   * read (`unwrap_or_default`).
   */
  function CheckResponse(response: Response): (r: Result<Response, RequestError>)
    ensures r.Ok? <==> IsSuccess(response.status)
    ensures r.Ok? ==> r.value == response
    ensures r.Err? ==> r.error.BadResponse? && r.error.statusCode == response.status
    ensures r.Err? && response.text.Some? ==> r.error.description == response.text.value
    ensures r.Err? && response.text.None? ==> r.error.description == ""
  {
    if IsSuccess(response.status) then Ok(response)
    else Err(BadResponse(response.status, response.text.UnwrapOr("")))
  }

  /** A stage of `perform_request` that ran, in the order it ran. */
  datatype Stage<P> = Sending(request: Request<P>) | StatusCheck(status: int) | Decoding

  /** The result of `perform_request` together with the stages it went through. */
  datatype Execution<T, P> = Execution(result: Result<T, RequestError>, stages: seq<Stage<P>>)

  /**
   * `perform_request`: the request built by the caller's closure is sent
   * exactly once; a send failure stops there, a non-2xx status stops after
   * the status check, and only a 2xx response reaches the decoder, whose
   * error becomes `ParseResponse` and whose value is returned unchanged.
   */
  function PerformRequest<P, T>(
    request: Request<P>,
    transport: Request<P> -> Sent,
    decode: Response -> Result<T, DecodeError>
  ): (e: Execution<T, P>)
    ensures |e.stages| >= 1 && e.stages[0] == Sending(request)
    ensures forall i :: 1 <= i < |e.stages| ==> !e.stages[i].Sending?
    ensures transport(request).SendFailed? ==>
      e.result == Err(SendRequest(transport(request).error)) && |e.stages| == 1
    ensures transport(request).Received? ==>
      |e.stages| >= 2 && e.stages[1] == StatusCheck(transport(request).response.status)
    ensures Decoding in e.stages <==>
      transport(request).Received? && IsSuccess(transport(request).response.status)
    ensures transport(request).Received? && !IsSuccess(transport(request).response.status) ==>
      e.result == Err(BadResponse(transport(request).response.status,
                                  transport(request).response.text.UnwrapOr("")))
    ensures Decoding in e.stages && decode(transport(request).response).Ok? ==>
      e.result == Ok(decode(transport(request).response).value)
    ensures Decoding in e.stages && decode(transport(request).response).Err? ==>
      e.result == Err(ParseResponse(decode(transport(request).response).error))
  {
    match transport(request)
    case SendFailed(err) =>
      Execution(Err(SendRequest(err)), [Sending(request)])
    case Received(response) =>
      match CheckResponse(response)
      case Err(bad) =>
        Execution(Err(bad), [Sending(request), StatusCheck(response.status)])
      case Ok(checked) =>
        var stages := [Sending(request), StatusCheck(response.status), Decoding];
        match decode(checked)
        case Ok(v) => Execution(Ok(v), stages)
        case Err(d) => Execution(Err(ParseResponse(d)), stages)
  }

  /**
   * What `build_url` computes: the base joined with the path, or the join
   * error with the base and path verbatim; with query pairs, the joined
   * URL's query followed by the pairs in the given order.
   */
  function UrlFor(
    base: Url,
    path: string,
    queries: Option<seq<(string, string)>>,
    join: (Url, string) -> Result<Url, ParseError>
  ): (r: Result<Url, BuildUrlError>)
    ensures r.Err? <==> join(base, path).Err?
    ensures r.Err? ==> r.error == BuildUrlError(join(base, path).error, base, path)
    ensures r.Ok? ==> r.value.location == join(base, path).value.location
    ensures r.Ok? && queries.None? ==> r.value == join(base, path).value
    ensures r.Ok? && queries.Some? ==>
      |r.value.query| == |join(base, path).value.query| + |queries.value| &&
      r.value.query[..|join(base, path).value.query|] == join(base, path).value.query &&
      r.value.query[|join(base, path).value.query|..] == queries.value
  {
    match join(base, path)
    case Err(e) => Err(BuildUrlError(e, base, path))
    case Ok(joined) =>
      if queries.None? then Ok(joined)
      else Ok(joined.(query := joined.query + queries.value))
  }

  /**
   * `build_url`: join, then append each query pair to the URL in turn.
   */
  method BuildUrl(
    base: Url,
    path: string,
    queries: Option<seq<(string, string)>>,
    join: (Url, string) -> Result<Url, ParseError>
  ) returns (r: Result<Url, BuildUrlError>)
    ensures r == UrlFor(base, path, queries, join)
  {
    var joined := join(base, path);
    if joined.Err? {
      return Err(BuildUrlError(joined.error, base, path));
    }
    var url := joined.value;
    if queries.Some? {
      var pairs := queries.value;
      var i := 0;
      while i < |pairs|
        invariant 0 <= i <= |pairs|
        invariant url == joined.value.(query := joined.value.query + pairs[..i])
      {
        url := url.(query := url.query + [pairs[i]]);
        i := i + 1;
        assert pairs[..i] == pairs[..i - 1] + [pairs[i - 1]];
      }
      assert pairs[..|pairs|] == pairs;
    }
    return Ok(url);
  }

  /**
   * The send-then-check chain written out with `?` in the `anyhow` code:
   * a transport failure and a non-2xx status both stop it, each kept as
   * the cause of the error.
   */
  function SendChecked<P>(request: Request<P>, transport: Request<P> -> Sent): (r: Result<Response, AnyError>)
    ensures transport(request).SendFailed? ==> r == Err(Transport(transport(request).error))
    ensures transport(request).Received? && IsSuccess(transport(request).response.status) ==>
      r == Ok(transport(request).response)
    ensures transport(request).Received? && !IsSuccess(transport(request).response.status) ==>
      r == Err(Failed(BadResponse(transport(request).response.status, transport(request).response.text.UnwrapOr(""))))
  {
    match transport(request)
    case SendFailed(e) => Err(Transport(e))
    case Received(response) =>
      match CheckResponse(response)
      case Err(bad) => Err(Failed(bad))
      case Ok(checked) => Ok(checked)
  }
}
