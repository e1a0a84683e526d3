/**
 * The embeddings endpoint of src/embeddings/mod.rs: the model enum and its
 * names, the request and response of src/embeddings/structures.rs, and
 * `Embeddings::create`, which classifies its failures itself instead of
 * going through `perform_request`.
 */
module EmbeddingsApi {
  import opened Wrappers
  import opened Json
  import opened Http
  import opened Client

  /** `embeddings::Model`: two named models and an untagged custom name. */
  datatype Model = Embeddings | EmbeddingsGigaR | Custom(name: string)

  /** A name taken by a named variant (serde uses the variant names unchanged). */
  predicate IsReservedName(s: string)
  {
    s == "Embeddings" || s == "EmbeddingsGigaR"
  }

  /** `Model::as_str`: the variant name, or the custom name itself. */
  function AsStr(m: Model): (s: string)
    ensures m.Custom? ==> s == m.name
    ensures !m.Custom? ==> IsReservedName(s)
    ensures m == Embeddings ==> s == "Embeddings"
    ensures m == EmbeddingsGigaR ==> s == "EmbeddingsGigaR"
  {
    match m
    case Embeddings => "Embeddings"
    case EmbeddingsGigaR => "EmbeddingsGigaR"
    case Custom(name) => name
  }

  /** `#[default]`. */
  function DefaultModel(): (m: Model)
    ensures AsStr(m) == "EmbeddingsGigaR"
  {
    EmbeddingsGigaR
  }

  /** serde's encoding of the model: a unit variant's name, or the bare custom string. */
  function EncodeModel(m: Model): (j: Json)
    ensures j == Str(AsStr(m))
  {
    match m
    case Embeddings => Str("Embeddings")
    case EmbeddingsGigaR => Str("EmbeddingsGigaR")
    case Custom(name) => Str(name)
  }

  /** Decoding: the tagged variants first, then the untagged `Custom`. */
  function DecodeModel(j: Json): (r: Result<Model, DeError>)
    ensures j.Str? ==> r.Ok? && AsStr(r.value) == j.s
    ensures j.Str? ==> (r.value.Custom? <==> !IsReservedName(j.s))
    ensures !j.Str? && !j.Obj? ==> r == Err(NoMatchingVariant("Model"))
  {
    match j
    case Str(s) =>
      if s == "Embeddings" then Ok(Embeddings)
      else if s == "EmbeddingsGigaR" then Ok(EmbeddingsGigaR)
      else Ok(Model.Custom(s))
    case Obj(fields) =>
      if |fields| == 1 && fields[0].1 == Null && fields[0].0 == "Embeddings" then Ok(Embeddings)
      else if |fields| == 1 && fields[0].1 == Null && fields[0].0 == "EmbeddingsGigaR" then Ok(EmbeddingsGigaR)
      else Err(NoMatchingVariant("Model"))
    case _ => Err(NoMatchingVariant("Model"))
  }

  /**
   * `as_str` agrees with the wire form, and a model survives encoding and
   * decoding unless it is a custom model spelled like a named one.
   */
  lemma ModelRoundTrip(m: Model)
    ensures EncodeModel(m).s == AsStr(m)
    ensures DecodeModel(EncodeModel(m)) == Ok(m) <==> !(m.Custom? && IsReservedName(m.name))
  {
  }

  /** `Input`: one text or several, untagged. */
  datatype Input = One(text: string) | Many(texts: seq<string>)

  function StrItems(texts: seq<string>): (items: seq<Json>)
    ensures |items| == |texts|
    ensures forall i :: 0 <= i < |texts| ==> items[i] == Str(texts[i])
  {
    if |texts| == 0 then [] else [Str(texts[0])] + StrItems(texts[1..])
  }

  function EncodeInput(input: Input): (j: Json)
    ensures input.One? ==> j == Str(input.text)
    ensures input.Many? ==> j.Arr? && j.items == StrItems(input.texts)
  {
    match input
    case One(text) => Str(text)
    case Many(texts) => Arr(StrItems(texts))
  }

  /** The strings of an array of strings, or `None` when some item is not one. */
  function StrValues(items: seq<Json>): (r: Option<seq<string>>)
    ensures r.Some? <==> forall i :: 0 <= i < |items| ==> items[i].Str?
    ensures r.Some? ==> |r.value| == |items| && forall i :: 0 <= i < |items| ==> items[i] == Str(r.value[i])
  {
    if |items| == 0 then Some([])
    else if !items[0].Str? then None
    else
      match StrValues(items[1..])
      case None => None
      case Some(rest) => Some([items[0].s] + rest)
  }

  /** Untagged decoding: a string is `One`, an array of strings is `Many`. */
  function DecodeInput(j: Json): (r: Result<Input, DeError>)
    ensures j.Str? ==> r == Ok(One(j.s))
    ensures j.Arr? && StrValues(j.items).Some? ==> r == Ok(Many(StrValues(j.items).value))
    ensures r.Err? ==> r.error == NoMatchingVariant("Input")
  {
    match j
    case Str(s) => Ok(One(s))
    case Arr(items) =>
      (match StrValues(items)
       case Some(texts) => Ok(Many(texts))
       case None => Err(NoMatchingVariant("Input")))
    case _ => Err(NoMatchingVariant("Input"))
  }

  lemma InputRoundTrip(input: Input)
    ensures DecodeInput(EncodeInput(input)) == Ok(input)
  {
    if input.Many? {
      var items := StrItems(input.texts);
      assert StrValues(items).value == input.texts;
    }
  }

  /** `EmbeddingRequest`. */
  datatype EmbeddingRequest = EmbeddingRequest(model: Model, input: Input)

  /** `Usage`: the prompt length in tokens (`u32`). */
  datatype Usage = Usage(promptTokens: nat)

  /** `EmbeddingResponseItem`: one vector and the index of the input it embeds. */
  datatype EmbeddingResponseItem = EmbeddingResponseItem(embedding: seq<F32>, index: nat, usage: Usage)

  /** `EmbeddingResponse`. */
  datatype EmbeddingResponse = EmbeddingResponse(model: Model, data: seq<EmbeddingResponseItem>)

  const EMBEDDINGS_PATH: string := "embeddings"

  /** The ways `create` fails, each with what its `anyhow` message is built from. */
  datatype EmbeddingsFailure =
    | JoinFailed(parse: ParseError)
    | NotSent(transport: TransportError)
    | ApiError(status: int, text: string)
    | ParseFailed(decode: DecodeError)

  /**
   * The message of each failure; the join error is passed through as is.
   * `statusDisplay` is how `StatusCode` prints (code and reason phrase).
   */
  function FailureMessage(f: EmbeddingsFailure, statusDisplay: int -> string): (m: Option<string>)
    ensures f.JoinFailed? <==> m.None?
    ensures f.NotSent? ==> m == Some("Failed to send embeddings request: " + f.transport.reason)
    ensures f.ApiError? ==> m == Some("Embeddings API error " + statusDisplay(f.status) + ": " + f.text)
    ensures f.ParseFailed? ==> m == Some("Failed to parse embeddings response: " + f.decode.reason)
  {
    match f
    case JoinFailed(_) => None
    case NotSent(e) => Some("Failed to send embeddings request: " + e.reason)
    case ApiError(status, text) => Some("Embeddings API error " + statusDisplay(status) + ": " + text)
    case ParseFailed(e) => Some("Failed to parse embeddings response: " + e.reason)
  }

  /** The request body: the given model, or the default one, and the input. */
  function RequestBody(input: Input, model: Option<Model>): (body: EmbeddingRequest)
    ensures body.input == input
    ensures model.Some? ==> body.model == model.value
    ensures model.None? ==> body.model == DefaultModel()
  {
    EmbeddingRequest(model.UnwrapOr(DefaultModel()), input)
  }

  /**
   * `Embeddings::create`: join, send, check the status itself (a body that
   * cannot be read reads as "Unknown error"), decode.
   */
  function Create(
    input: Input,
    model: Option<Model>,
    base: Url,
    join: (Url, string) -> Result<Url, ParseError>,
    transport: Request<EmbeddingRequest> -> Sent,
    decode: Response -> Result<EmbeddingResponse, DecodeError>
  ): (r: Result<EmbeddingResponse, EmbeddingsFailure>)
    ensures join(base, EMBEDDINGS_PATH).Err? ==> r == Err(JoinFailed(join(base, EMBEDDINGS_PATH).error))
    ensures join(base, EMBEDDINGS_PATH).Ok? ==>
      var sent := transport(Request(Post, join(base, EMBEDDINGS_PATH).value, [], RequestBody(input, model)));
      && (sent.SendFailed? ==> r == Err(NotSent(sent.error)))
      && (sent.Received? && !IsSuccess(sent.response.status) ==>
            r == Err(ApiError(sent.response.status, sent.response.text.UnwrapOr("Unknown error"))))
      && (sent.Received? && IsSuccess(sent.response.status) && decode(sent.response).Err? ==>
            r == Err(ParseFailed(decode(sent.response).error)))
      && (sent.Received? && IsSuccess(sent.response.status) && decode(sent.response).Ok? ==>
            r == Ok(decode(sent.response).value))
  {
    match join(base, EMBEDDINGS_PATH)
    case Err(e) => Err(JoinFailed(e))
    case Ok(url) =>
      match transport(Request(Post, url, [], RequestBody(input, model)))
      case SendFailed(e) => Err(NotSent(e))
      case Received(response) =>
        if !IsSuccess(response.status) then Err(ApiError(response.status, response.text.UnwrapOr("Unknown error")))
        else
          match decode(response)
          case Err(e) => Err(ParseFailed(e))
          case Ok(v) => Ok(v)
  }

  /**
   * `create` classifies exactly as `perform_request` does, stage for
   * stage; only an unreadable error body is described differently.
   */
  lemma CreateMatchesPerformRequest(
    input: Input,
    model: Option<Model>,
    url: Url,
    transport: Request<EmbeddingRequest> -> Sent,
    decode: Response -> Result<EmbeddingResponse, DecodeError>
  )
    ensures
      var join := (b: Url, p: string) => Ok(url);
      var r := Create(input, model, url, join, transport, decode);
      var e := PerformRequest(Request(Post, url, [], RequestBody(input, model)), transport, decode).result;
      && (r.Ok? <==> e.Ok?)
      && (r.Ok? ==> r.value == e.value)
      && (r.Err? && r.error.NotSent? <==> e.Err? && e.error.SendRequest?)
      && (r.Err? && r.error.ApiError? <==> e.Err? && e.error.BadResponse?)
      && (r.Err? && r.error.ApiError? ==> r.error.status == e.error.statusCode)
      && (r.Err? && r.error.ParseFailed? <==> e.Err? && e.error.ParseResponse?)
  {
  }
}
