/**
 * `GenerationBuilder` (src/generation/builder.rs): the chat-completion
 * request under construction, its one-shot execution, and the streaming
 * execution whose event pipeline turns Server-Sent Events into decoded
 * chunks.
 */
module GenerationBuilders {
  import opened Wrappers
  import opened Json
  import opened Http
  import opened Client
  import opened Serialization
  import opened GenerationModel
  import opened GenerationStructures

  /** The builder's fields apart from the client handle, which is not modelled. */
  datatype GenerationBuilder = GenerationBuilder(
    model: Model,
    messages: Option<seq<Message>>,
    config: GenerationConfig)

  /**
   * The value `build` constructs: the three fields the builder names.
   * The `function_call` and `functions` fields of `GenerationRequest` are
   * not set by this revision of the builder, so they are not part of it.
   */
  datatype BuiltRequest = BuiltRequest(model: Model, messages: seq<Message>, config: GenerationConfig)

  /** `GigaChatClient::generate`: the default model, no messages, the default config. */
  function Generate(): (b: GenerationBuilder)
    ensures b.model == DefaultModel() && b.messages.None? && b.config == DefaultConfig()
  {
    GenerationBuilder(DefaultModel(), None, DefaultConfig())
  }

  /** `with_messages`: sets the messages, nothing else. */
  function WithMessages(b: GenerationBuilder, messages: seq<Message>): (r: GenerationBuilder)
    ensures r.messages == Some(messages)
    ensures r.model == b.model && r.config == b.config
  {
    b.(messages := Some(messages))
  }

  /** `with_temperature`: sets the temperature, nothing else. */
  function WithTemperature(b: GenerationBuilder, temperature: F32): (r: GenerationBuilder)
    ensures r.config.temperature == Some(temperature)
    ensures r.model == b.model && r.messages == b.messages
    ensures r.config.(temperature := b.config.temperature) == b.config
  {
    b.(config := b.config.(temperature := Some(temperature)))
  }

  /** `with_top_p`: sets the nucleus-sampling bound, nothing else. */
  function WithTopP(b: GenerationBuilder, topP: F32): (r: GenerationBuilder)
    ensures r.config.topP == Some(topP)
    ensures r.model == b.model && r.messages == b.messages
    ensures r.config.(topP := b.config.topP) == b.config
  {
    b.(config := b.config.(topP := Some(topP)))
  }

  /** `with_max_tokens`: sets the token limit, nothing else. */
  function WithMaxTokens(b: GenerationBuilder, maxTokens: usize): (r: GenerationBuilder)
    ensures r.config.maxTokens == Some(maxTokens)
    ensures r.model == b.model && r.messages == b.messages
    ensures r.config.(maxTokens := b.config.maxTokens) == b.config
  {
    b.(config := b.config.(maxTokens := Some(maxTokens)))
  }

  /** `with_repetition_penalty`: sets the penalty, nothing else. */
  function WithRepetitionPenalty(b: GenerationBuilder, penalty: F32): (r: GenerationBuilder)
    ensures r.config.repetitionPenalty == Some(penalty)
    ensures r.model == b.model && r.messages == b.messages
    ensures r.config.(repetitionPenalty := b.config.repetitionPenalty) == b.config
  {
    b.(config := b.config.(repetitionPenalty := Some(penalty)))
  }

  /** `build`: model and config passed through, unset messages become the empty list. */
  function Build(b: GenerationBuilder): (r: BuiltRequest)
    ensures r.model == b.model && r.config == b.config
    ensures b.messages.Some? ==> r.messages == b.messages.value
    ensures b.messages.None? ==> r.messages == []
  {
    BuiltRequest(b.model, b.messages.UnwrapOr([]), b.config)
  }

  const COMPLETIONS_PATH: string := "chat/completions"

  /** The completion request: a POST of the built request as JSON. */
  function CompletionRequest(url: Url, body: BuiltRequest): (q: Request<BuiltRequest>)
    ensures q.verb == Post && q.url == url && q.body == body
  {
    Request(Post, url, [], body)
  }

  /**
   * `execute`: join the endpoint, send, check the status, decode; each
   * failure is returned as the cause of the `anyhow` error.
   */
  function Execute(
    b: GenerationBuilder,
    base: Url,
    join: (Url, string) -> Result<Url, ParseError>,
    transport: Request<BuiltRequest> -> Sent,
    decode: Response -> Result<GenerationResponse, DecodeError>
  ): (r: Result<GenerationResponse, AnyError>)
    ensures join(base, COMPLETIONS_PATH).Err? ==> r == Err(UrlParse(join(base, COMPLETIONS_PATH).error))
    ensures join(base, COMPLETIONS_PATH).Ok? ==>
      var sent := SendChecked(CompletionRequest(join(base, COMPLETIONS_PATH).value, Build(b)), transport);
      && (sent.Err? ==> r == Err(sent.error))
      && (sent.Ok? && decode(sent.value).Err? ==> r == Err(Decode(decode(sent.value).error)))
      && (sent.Ok? && decode(sent.value).Ok? ==> r == Ok(decode(sent.value).value))
  {
    match join(base, COMPLETIONS_PATH)
    case Err(e) => Err(UrlParse(e))
    case Ok(url) =>
      match SendChecked(CompletionRequest(url, Build(b)), transport)
      case Err(e) => Err(e)
      case Ok(response) =>
        match decode(response)
        case Err(e) => Err(Decode(e))
        case Ok(v) => Ok(v)
  }

  /**
   * What `execute_streaming` sends: the builder with `stream` switched on,
   * built; nothing else differs from `build`.
   */
  function StreamingRequest(b: GenerationBuilder): (r: BuiltRequest)
    ensures r.config.stream
    ensures r.model == Build(b).model && r.messages == Build(b).messages
    ensures r.config.(stream := b.config.stream) == Build(b).config
  {
    Build(b.(config := b.config.(stream := true)))
  }

  /** The data payload that ends a completion stream. */
  const DONE: string := "[DONE]"

  /** An event from the SSE layer: a framed event or a framing/transport error. */
  type Event = Result<SseEvent, EventStreamError>

  /** The `take_while` test: an event that was framed and is not the end marker. */
  predicate Admitted(e: Event)
  {
    e.Ok? && e.value.data != DONE
  }

  /** `take_while(Admitted)`: the longest admitted prefix. */
  function TakeWhileAdmitted(events: seq<Event>): (r: seq<Event>)
    ensures |r| <= |events| && r == events[..|r|]
    ensures forall i :: 0 <= i < |r| ==> Admitted(r[i])
    ensures |r| < |events| ==> !Admitted(events[|r|])
  {
    if |events| == 0 || !Admitted(events[0]) then []
    else
      var rest := TakeWhileAdmitted(events[1..]);
      assert events[1..][..|rest|] == events[1..|rest| + 1];
      [events[0]] + rest
  }

  /** `map_err`: a framing error becomes an `anyhow` message. */
  function MapErr(items: seq<Event>): (r: seq<Result<SseEvent, AnyError>>)
    ensures |r| == |items|
    ensures forall i :: 0 <= i < |items| && items[i].Ok? ==> r[i] == Ok(items[i].value)
    ensures forall i :: 0 <= i < |items| && items[i].Err? ==>
      r[i] == Err(Message("error parsing event: " + items[i].error.reason))
  {
    if |items| == 0 then []
    else
      [match items[0]
       case Ok(e) => Ok(e)
       case Err(e) => Err(Message("error parsing event: " + e.reason))]
      + MapErr(items[1..])
  }

  /** The decode of one chunk; a failure names the raw payload. */
  function DecodePart(data: string, parse: string -> Result<GenerationResponseStream, DecodeError>): (r: Result<GenerationResponseStream, AnyError>)
    ensures parse(data).Ok? ==> r == Ok(parse(data).value)
    ensures parse(data).Err? ==>
      r == Err(Context("unable to deserialize content part: " + data, Decode(parse(data).error)))
  {
    match parse(data)
    case Ok(v) => Ok(v)
    case Err(e) => Err(Context("unable to deserialize content part: " + data, Decode(e)))
  }

  /** `map_ok`: each event's data is decoded, the result nested inside. */
  function MapOk(
    items: seq<Result<SseEvent, AnyError>>,
    parse: string -> Result<GenerationResponseStream, DecodeError>
  ): (r: seq<Result<Result<GenerationResponseStream, AnyError>, AnyError>>)
    ensures |r| == |items|
    ensures forall i :: 0 <= i < |items| && items[i].Ok? ==> r[i] == Ok(DecodePart(items[i].value.data, parse))
    ensures forall i :: 0 <= i < |items| && items[i].Err? ==> r[i] == Err(items[i].error)
  {
    if |items| == 0 then []
    else
      [match items[0]
       case Ok(e) => Ok(DecodePart(e.data, parse))
       case Err(e) => Err(e)]
      + MapOk(items[1..], parse)
  }

  /** `map(Result::flatten)`. */
  function Flatten<T>(items: seq<Result<Result<T, AnyError>, AnyError>>): (r: seq<Result<T, AnyError>>)
    ensures |r| == |items|
    ensures forall i :: 0 <= i < |items| && items[i].Ok? ==> r[i] == items[i].value
    ensures forall i :: 0 <= i < |items| && items[i].Err? ==> r[i] == Err(items[i].error)
  {
    if |items| == 0 then []
    else
      [match items[0]
       case Ok(inner) => inner
       case Err(e) => Err(e)]
      + Flatten(items[1..])
  }

  /**
   * The whole combinator chain of `execute_streaming`, over the framed
   * events: one item per event up to the first event that is an error or
   * the end marker, and item `i` is the decode of event `i`'s data.
   */
  function Stream(events: seq<Event>, parse: string -> Result<GenerationResponseStream, DecodeError>): (out: seq<Result<GenerationResponseStream, AnyError>>)
    ensures |out| == |TakeWhileAdmitted(events)|
    ensures forall i :: 0 <= i < |out| ==>
      Admitted(events[i]) && out[i] == DecodePart(events[i].value.data, parse)
    ensures |out| < |events| ==> !Admitted(events[|out|])
  {
    var taken := TakeWhileAdmitted(events);
    var out := Flatten(MapOk(MapErr(taken), parse));
    assert forall i :: 0 <= i < |out| ==> taken[i] == events[i];
    out
  }

  /**
   * Nothing after the first event that is not admitted reaches the
   * output: neither the `[DONE]` event nor an error, nor anything later.
   */
  lemma {:induction false} StreamStopsAt(prefix: seq<Event>, stop: Event, rest: seq<Event>, parse: string -> Result<GenerationResponseStream, DecodeError>)
    requires forall i :: 0 <= i < |prefix| ==> Admitted(prefix[i])
    requires !Admitted(stop)
    ensures Stream(prefix + [stop] + rest, parse) == Stream(prefix, parse)
  {
    TakeWhileStopsAt(prefix, stop, rest);
  }

  lemma {:induction false} TakeWhileStopsAt(prefix: seq<Event>, stop: Event, rest: seq<Event>)
    requires forall i :: 0 <= i < |prefix| ==> Admitted(prefix[i])
    requires !Admitted(stop)
    ensures TakeWhileAdmitted(prefix + [stop] + rest) == prefix
    ensures TakeWhileAdmitted(prefix) == prefix
    decreases |prefix|
  {
    if |prefix| > 0 {
      assert (prefix + [stop] + rest)[1..] == prefix[1..] + [stop] + rest;
      assert (prefix + [stop] + rest)[0] == prefix[0];
      TakeWhileStopsAt(prefix[1..], stop, rest);
      assert [prefix[0]] + prefix[1..] == prefix;
    } else {
      assert (prefix + [stop] + rest)[0] == stop;
    }
  }

  /** The end marker cuts the stream: the events after `[DONE]` never appear. */
  lemma DoneEndsStream(prefix: seq<Event>, done: SseEvent, rest: seq<Event>, parse: string -> Result<GenerationResponseStream, DecodeError>)
    requires forall i :: 0 <= i < |prefix| ==> Admitted(prefix[i])
    requires done.data == DONE
    ensures |Stream(prefix + [Ok(done)] + rest, parse)| == |prefix|
  {
    StreamStopsAt(prefix, Ok(done), rest, parse);
    TakeWhileStopsAt(prefix, Ok(done), []);
  }

  /**
   * An error from the SSE layer ends the stream silently: the output is
   * the same as if the events had stopped there, so no item carries the
   * `map_err` message.
   */
  lemma TransportErrorEndsStream(prefix: seq<Event>, err: EventStreamError, rest: seq<Event>, parse: string -> Result<GenerationResponseStream, DecodeError>)
    requires forall i :: 0 <= i < |prefix| ==> Admitted(prefix[i])
    ensures Stream(prefix + [Err(err)] + rest, parse) == Stream(prefix, parse)
    ensures forall i :: 0 <= i < |Stream(prefix, parse)| ==>
      Stream(prefix, parse)[i].Ok? || Stream(prefix, parse)[i].error.Context?
  {
    StreamStopsAt(prefix, Err(err), rest, parse);
  }

  /**
   * Admitted events are processed independently: the stream over two
   * admitted runs is the two streams one after the other, so an item that
   * fails to decode does not stop the items after it.
   */
  lemma {:induction false} StreamAppend(a: seq<Event>, b: seq<Event>, parse: string -> Result<GenerationResponseStream, DecodeError>)
    requires forall i :: 0 <= i < |a| ==> Admitted(a[i])
    ensures Stream(a + b, parse) == Stream(a, parse) + Stream(b, parse)
  {
    TakeWhileAppend(a, b);
    TakeWhileStopsAtEnd(a);
    var lhs, rhs := Stream(a + b, parse), Stream(a, parse) + Stream(b, parse);
    assert |lhs| == |rhs|;
    forall i | 0 <= i < |lhs|
      ensures lhs[i] == rhs[i]
    {
      if i < |a| {
        assert (a + b)[i] == a[i];
      } else {
        assert (a + b)[i] == b[i - |a|];
      }
    }
  }

  lemma {:induction false} TakeWhileStopsAtEnd(a: seq<Event>)
    requires forall i :: 0 <= i < |a| ==> Admitted(a[i])
    ensures TakeWhileAdmitted(a) == a
  {
  }

  lemma {:induction false} TakeWhileAppend(a: seq<Event>, b: seq<Event>)
    requires forall i :: 0 <= i < |a| ==> Admitted(a[i])
    ensures TakeWhileAdmitted(a + b) == a + TakeWhileAdmitted(b)
    decreases |a|
  {
    if |a| > 0 {
      assert (a + b)[0] == a[0];
      assert (a + b)[1..] == a[1..] + b;
      TakeWhileAppend(a[1..], b);
      assert [a[0]] + (a[1..] + TakeWhileAdmitted(b)) == a + TakeWhileAdmitted(b);
    } else {
      assert a + b == b;
    }
  }

  /**
   * `execute_streaming`: `stream` is switched on, the request is sent and
   * its status checked like `execute`; on success the framed events of the
   * body go through the chain above.
   */
  function ExecuteStreaming(
    b: GenerationBuilder,
    base: Url,
    join: (Url, string) -> Result<Url, ParseError>,
    transport: Request<BuiltRequest> -> Sent,
    frame: Response -> seq<Event>,
    parse: string -> Result<GenerationResponseStream, DecodeError>
  ): (r: Result<seq<Result<GenerationResponseStream, AnyError>>, AnyError>)
    ensures join(base, COMPLETIONS_PATH).Err? ==> r == Err(UrlParse(join(base, COMPLETIONS_PATH).error))
    ensures join(base, COMPLETIONS_PATH).Ok? ==>
      var sent := SendChecked(CompletionRequest(join(base, COMPLETIONS_PATH).value, StreamingRequest(b)), transport);
      && (sent.Err? ==> r == Err(sent.error))
      && (sent.Ok? ==> r == Ok(Stream(frame(sent.value), parse)))
  {
    match join(base, COMPLETIONS_PATH)
    case Err(e) => Err(UrlParse(e))
    case Ok(url) =>
      match SendChecked(CompletionRequest(url, StreamingRequest(b)), transport)
      case Err(e) => Err(e)
      case Ok(response) => Ok(Stream(frame(response), parse))
  }
}
