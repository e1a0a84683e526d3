/**
 * `BatchHandler` (src/batch/handler.rs): the handle of a submitted batch,
 * one status query per `check`, and the mapping of the reported status to
 * what the caller sees. The client handle is not modelled.
 */
module BatchHandlers {
  import opened Wrappers
  import opened Http
  import opened Client
  import opened Serialization
  import opened BatchStructures

  datatype BatchHandler = BatchHandler(id: string)

  /** What one poll reports; `ready` counts the finished requests, successful or not. */
  datatype BatchCheckResult =
    | Pending
    | Success(responses: seq<BatchResponseResult>)
    | InProgress(ready: nat, total: usize)

  /** `BatchHandler::new`: the handle keeps the id it is given. */
  function New(id: string): (h: BatchHandler)
    ensures Id(h) == id
  {
    BatchHandler(id)
  }

  /** `BatchHandler::id`. */
  function Id(h: BatchHandler): string
  {
    h.id
  }

  const BATCHES_PATH: string := "batches"

  /** The status query: a bodiless POST to the joined URL. */
  function StatusRequest(url: Url): (q: Request<()>)
    ensures q.verb == Post && q.url == url && q.headers == []
  {
    Request(Post, url, [], ())
  }

  /** The URL of the status query: `batches` with the single pair `batch_id=<id>` appended. */
  function StatusUrl(joined: Url, h: BatchHandler): (u: Url)
    ensures u.location == joined.location
    ensures u.query == joined.query + [("batch_id", Id(h))]
  {
    joined.(query := joined.query + [("batch_id", h.id)])
  }

  /**
   * `check_request`: join, append the id, send, check the status, decode;
   * every failure is propagated with its cause.
   */
  function CheckRequest(
    h: BatchHandler,
    base: Url,
    join: (Url, string) -> Result<Url, ParseError>,
    transport: Request<()> -> Sent,
    decode: Response -> Result<BatchCheckResponse, DecodeError>
  ): (r: Result<BatchCheckResponse, AnyError>)
    ensures join(base, BATCHES_PATH).Err? ==> r == Err(UrlParse(join(base, BATCHES_PATH).error))
    ensures join(base, BATCHES_PATH).Ok? ==>
      var sent := SendChecked(StatusRequest(StatusUrl(join(base, BATCHES_PATH).value, h)), transport);
      && (sent.Err? ==> r == Err(sent.error))
      && (sent.Ok? && decode(sent.value).Err? ==> r == Err(Decode(decode(sent.value).error)))
      && (sent.Ok? && decode(sent.value).Ok? ==> r == Ok(decode(sent.value).value))
  {
    match join(base, BATCHES_PATH)
    case Err(e) => Err(UrlParse(e))
    case Ok(joined) =>
      match SendChecked(StatusRequest(StatusUrl(joined, h)), transport)
      case Err(e) => Err(e)
      case Ok(response) =>
        match decode(response)
        case Err(e) => Err(Decode(e))
        case Ok(v) => Ok(v)
  }

  /** The panic message of `todo!()`. */
  const TODO: string := "not yet implemented"

  /**
   * The status mapping of `check`: a created batch is pending, a running
   * one reports its finished and total counts, and a completed one reaches
   * the `todo!()`.
   */
  function Classify(response: BatchCheckResponse): (r: Outcome<BatchCheckResult>)
    ensures response.status == Created ==> r == Returned(Pending)
    ensures response.status == Status.InProgress ==>
      r == Returned(BatchCheckResult.InProgress(response.requestCounts.completed + response.requestCounts.failed,
                                                response.requestCounts.total))
    ensures response.status == Completed ==> r == Panicked(TODO)
    ensures r.Returned? ==> !r.value.Success?
  {
    if response.status.Created? then Returned(Pending)
    else if response.status.InProgress? then
      Returned(BatchCheckResult.InProgress(response.requestCounts.completed + response.requestCounts.failed,
                                           response.requestCounts.total))
    else Panicked(TODO)
  }

  /**
   * `check`: one status query, then the status mapping; a failed query is
   * returned as is. No poll ever yields `Success`, and a poll panics exactly
   * when the query succeeds and reports a completed batch.
   */
  function Check(
    h: BatchHandler,
    base: Url,
    join: (Url, string) -> Result<Url, ParseError>,
    transport: Request<()> -> Sent,
    decode: Response -> Result<BatchCheckResponse, DecodeError>
  ): (r: Outcome<Result<BatchCheckResult, AnyError>>)
    ensures r.Panicked? <==>
      CheckRequest(h, base, join, transport, decode).Ok? &&
      CheckRequest(h, base, join, transport, decode).value.status == Completed
    ensures r.Panicked? ==> r.message == TODO
    ensures CheckRequest(h, base, join, transport, decode).Err? ==>
      r == Returned(Err(CheckRequest(h, base, join, transport, decode).error))
    ensures CheckRequest(h, base, join, transport, decode).Ok? && r.Returned? ==>
      r.value == Ok(Classify(CheckRequest(h, base, join, transport, decode).value).value)
    ensures r.Returned? && r.value.Ok? ==> !r.value.value.Success?
  {
    match CheckRequest(h, base, join, transport, decode)
    case Err(e) => Returned(Err(e))
    case Ok(response) =>
      match Classify(response)
      case Panicked(m) => Panicked(m)
      case Returned(result) => Returned(Ok(result))
  }
}
