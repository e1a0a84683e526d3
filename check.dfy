/**
 * The AI-text detector of src/check/mod.rs: its model enum, the request
 * and response of src/check/structures.rs, and the `anyhow`-based
 * `CheckBuilder` that `GigaChatClient::check` returns.
 */
module Checks {
  import opened Wrappers
  import opened Http
  import opened Client
  import opened Serialization

  /** `check::Model`; serialized by its variant name. */
  datatype CheckModel = GigaCheckClassification | GigaCheckDetection

  function CheckModelName(m: CheckModel): (name: string)
    ensures name == "GigaCheckDetection" <==> m == GigaCheckDetection
    ensures name == "GigaCheckClassification" <==> m == GigaCheckClassification
  {
    match m
    case GigaCheckClassification => "GigaCheckClassification"
    case GigaCheckDetection => "GigaCheckDetection"
  }

  /** `#[default]`: the detection model. */
  function DefaultCheckModel(): (m: CheckModel)
    ensures CheckModelName(m) == "GigaCheckDetection"
  {
    GigaCheckDetection
  }

  /** `Category`: who wrote the text. */
  datatype Category = Ai | Human | Mixed

  /** `CheckRequest`: the text to examine and the model to use. */
  datatype CheckRequest = CheckRequest(input: string, model: CheckModel)

  /** `CheckResponse`: the verdict, the text's size, and the generated spans. */
  datatype CheckResponse = CheckResponse(
    category: Category,
    characters: usize,
    tokens: usize,
    aiIntervals: seq<(usize, usize)>)

  /** The fields of `check::CheckBuilder` apart from the client handle. */
  datatype CheckBuilder = CheckBuilder(model: Option<CheckModel>, text: Option<string>)

  /** `GigaChatClient::check`: nothing chosen yet. */
  function NewCheck(): (b: CheckBuilder)
    ensures b.model.None? && b.text.None?
  {
    CheckBuilder(None, None)
  }

  /** `with_text`: sets the text, nothing else. */
  function WithText(b: CheckBuilder, text: string): (r: CheckBuilder)
    ensures r.text == Some(text) && r.model == b.model
  {
    b.(text := Some(text))
  }

  /** `with_model`: sets the model, nothing else. */
  function WithModel(b: CheckBuilder, model: CheckModel): (r: CheckBuilder)
    ensures r.model == Some(model) && r.text == b.text
  {
    b.(model := Some(model))
  }

  const CHECK_PATH: string := "ai/check"

  /** The context message of a missing text, spelled as the source spells it. */
  const TEXT_MISSING: string := "text sould be present"

  const PARSE_CONTEXT: string := "failed to parse check response"

  /**
   * The request body `execute` builds: the text, which must be present,
   * and the model, the default when none was chosen.
   */
  function CheckRequestOf(b: CheckBuilder): (r: Result<CheckRequest, AnyError>)
    ensures r.Err? <==> b.text.None?
    ensures r.Err? ==> r.error == Message(TEXT_MISSING)
    ensures r.Ok? ==> r.value.input == b.text.value
    ensures r.Ok? && b.model.Some? ==> r.value.model == b.model.value
    ensures r.Ok? && b.model.None? ==> r.value.model == DefaultCheckModel()
  {
    match b.text
    case None => Err(Message(TEXT_MISSING))
    case Some(text) => Ok(CheckRequest(text, b.model.UnwrapOr(DefaultCheckModel())))
  }

  /** The request: a POST of the check request as JSON. */
  function DetectRequest(url: Url, body: CheckRequest): (q: Request<CheckRequest>)
    ensures q.verb == Post && q.url == url && q.body == body
  {
    Request(Post, url, [], body)
  }

  /**
   * `execute`: a missing text fails before anything else happens; the
   * join of `ai/check` is unwrapped, so its failure panics; then send,
   * status check and decode, the decode failure under its context message.
   */
  function Execute(
    b: CheckBuilder,
    base: Url,
    join: (Url, string) -> Result<Url, ParseError>,
    transport: Request<CheckRequest> -> Sent,
    decode: Response -> Result<CheckResponse, DecodeError>
  ): (r: Outcome<Result<CheckResponse, AnyError>>)
    ensures b.text.None? ==> r == Returned(Err(Message(TEXT_MISSING)))
    ensures b.text.Some? ==> (r.Panicked? <==> join(base, CHECK_PATH).Err?)
    ensures r.Panicked? ==> r.message == UNWRAP_ON_ERR
    ensures b.text.Some? && join(base, CHECK_PATH).Ok? ==>
      var sent := SendChecked(DetectRequest(join(base, CHECK_PATH).value, CheckRequestOf(b).value), transport);
      && (sent.Err? ==> r == Returned(Err(sent.error)))
      && (sent.Ok? && decode(sent.value).Err? ==>
            r == Returned(Err(Context(PARSE_CONTEXT, Decode(decode(sent.value).error)))))
      && (sent.Ok? && decode(sent.value).Ok? ==> r == Returned(Ok(decode(sent.value).value)))
  {
    match CheckRequestOf(b)
    case Err(e) => Returned(Err(e))
    case Ok(body) =>
      match join(base, CHECK_PATH)
      case Err(_) => Panicked(UNWRAP_ON_ERR)
      case Ok(url) =>
        match SendChecked(DetectRequest(url, body), transport)
        case Err(e) => Returned(Err(e))
        case Ok(response) =>
          match decode(response)
          case Err(e) => Returned(Err(Context(PARSE_CONTEXT, Decode(e))))
          case Ok(v) => Returned(Ok(v))
  }

  /**
   * Once a text is set the missing-text error can no longer occur, and the
   * text sent is exactly the one set, whatever the transport does.
   */
  lemma TextSetIsSent(
    b: CheckBuilder,
    text: string,
    base: Url,
    join: (Url, string) -> Result<Url, ParseError>,
    transport: Request<CheckRequest> -> Sent,
    decode: Response -> Result<CheckResponse, DecodeError>
  )
    ensures Execute(WithText(b, text), base, join, transport, decode) != Returned(Err(Message(TEXT_MISSING)))
    ensures CheckRequestOf(WithText(b, text)).Ok? && CheckRequestOf(WithText(b, text)).value.input == text
  {
    var r := Execute(WithText(b, text), base, join, transport, decode);
    if join(base, CHECK_PATH).Ok? {
      var sent := SendChecked(DetectRequest(join(base, CHECK_PATH).value, CheckRequestOf(WithText(b, text)).value), transport);
      if sent.Err? {
        assert sent.error.Transport? || sent.error.Failed?;
      }
    }
  }
}
