/**
 * The typed-error variant of `CheckBuilder` in src/check/builder.rs: the
 * model is always set, the text is optional, and the request goes through
 * `build_url` and `perform_request`.
 */
module CheckBuilders {
  import opened Wrappers
  import opened Http
  import opened Serialization
  import Client
  import Checks

  /** `check::error::Error`. */
  datatype CheckError =
    | TextIsMissing
    | TextIsTooShort(length: usize)
    | BuildUrl(urlError: Client.BuildUrlError)
    | BadRequest(requestError: Client.RequestError)

  datatype CheckBuilder = CheckBuilder(model: Checks.CheckModel, text: Option<string>)

  /** `with_text`: sets the text, nothing else. */
  function WithText(b: CheckBuilder, text: string): (r: CheckBuilder)
    ensures r.text == Some(text) && r.model == b.model
  {
    b.(text := Some(text))
  }

  /** `with_model`: replaces the model, nothing else. */
  function WithModel(b: CheckBuilder, model: Checks.CheckModel): (r: CheckBuilder)
    ensures r.model == model && r.text == b.text
  {
    b.(model := model)
  }

  /**
   * `execute`: a missing text is `TextIsMissing` before the URL is built
   * or anything is sent; the request carries the text and model verbatim;
   * a URL failure is `BuildUrl` and a failed request `BadRequest`. The
   * `TextIsTooShort` error is never produced.
   */
  function Execute(
    b: CheckBuilder,
    base: Url,
    join: (Url, string) -> Result<Url, ParseError>,
    transport: Request<Checks.CheckRequest> -> Sent,
    decode: Response -> Result<Checks.CheckResponse, DecodeError>
  ): (r: Result<Checks.CheckResponse, CheckError>)
    ensures b.text.None? ==> r == Err(TextIsMissing)
    ensures b.text.Some? && Client.UrlFor(base, Checks.CHECK_PATH, None, join).Err? ==>
      r == Err(BuildUrl(Client.UrlFor(base, Checks.CHECK_PATH, None, join).error))
    ensures b.text.Some? && Client.UrlFor(base, Checks.CHECK_PATH, None, join).Ok? ==>
      var url := Client.UrlFor(base, Checks.CHECK_PATH, None, join).value;
      var sent := Client.PerformRequest(Checks.DetectRequest(url, Checks.CheckRequest(b.text.value, b.model)), transport, decode).result;
      && (sent.Err? ==> r == Err(BadRequest(sent.error)))
      && (sent.Ok? ==> r == Ok(sent.value))
    ensures !(r.Err? && r.error.TextIsTooShort?)
  {
    match b.text
    case None => Err(TextIsMissing)
    case Some(text) =>
      match Client.UrlFor(base, Checks.CHECK_PATH, None, join)
      case Err(e) => Err(BuildUrl(e))
      case Ok(url) =>
        match Client.PerformRequest(Checks.DetectRequest(url, Checks.CheckRequest(text, b.model)), transport, decode).result
        case Err(e) => Err(BadRequest(e))
        case Ok(v) => Ok(v)
  }
}
