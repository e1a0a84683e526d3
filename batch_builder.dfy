/**
 * `BatchBuilder` (src/batch/builder.rs): requests collected in place, the
 * newline-delimited JSON (JSONL) upload built in a byte buffer, and the
 * submission that yields a `BatchHandler`. `serde_json::to_writer` of one
 * request is the `render` parameter.
 */
module BatchBuilders {
  import opened Wrappers
  import opened Http
  import Client
  import GenerationStructures
  import opened BatchStructures
  import BatchHandlers

  /** `batch::error::Error`. */
  datatype BatchError =
    | BuildUrl(urlError: Client.BuildUrlError)
    | BatchSerializationFailed(reason: string)
    | BadRequest(requestError: Client.RequestError)
    | BadResponse(statusCode: int, description: string)

  type GenerationRequest = GenerationStructures.GenerationRequest

  /** The requests of a batch, appended in place by the setters. */
  class BatchBuilder {
    var requests: seq<GenerationRequest>

    /** `GigaChatClient::batch`: an empty batch. */
    constructor New()
      ensures requests == []
    {
      requests := [];
    }

    /** `with_request`: one request at the end, the earlier ones untouched. */
    method WithRequest(request: GenerationRequest)
      modifies this
      ensures requests == old(requests) + [request]
    {
      requests := requests + [request];
    }

    /** `with_requests`: all the given requests, in order, after the existing ones. */
    method WithRequests(more: seq<GenerationRequest>)
      modifies this
      ensures requests == old(requests) + more
    {
      requests := requests + more;
    }
  }

  /**
   * The JSONL upload of a list of requests: each request's JSON followed by
   * one newline byte, in order; the first request that cannot be
   * serialized makes the whole upload fail with its error.
   */
  function Jsonl(requests: seq<GenerationRequest>, render: GenerationRequest -> Result<seq<byte>, string>): (r: Result<seq<byte>, BatchError>)
    ensures r.Err? ==> r.error.BatchSerializationFailed?
  {
    if |requests| == 0 then Ok([])
    else
      match render(requests[0])
      case Err(e) => Err(BatchSerializationFailed(e))
      case Ok(line) =>
        match Jsonl(requests[1..], render)
        case Err(e) => Err(e)
        case Ok(rest) => Ok(line + [NEWLINE] + rest)
  }

  /** The upload exists exactly when every request can be serialized. */
  lemma {:induction false} JsonlOk(requests: seq<GenerationRequest>, render: GenerationRequest -> Result<seq<byte>, string>)
    ensures Jsonl(requests, render).Ok? <==> forall i :: 0 <= i < |requests| ==> render(requests[i]).Ok?
  {
    if |requests| > 0 {
      JsonlOk(requests[1..], render);
      if forall i :: 0 <= i < |requests| ==> render(requests[i]).Ok? {
        assert forall i :: 0 <= i < |requests| - 1 ==> requests[1..][i] == requests[i + 1];
      } else if render(requests[0]).Ok? {
        var k :| 0 <= k < |requests| && render(requests[k]).Err?;
        assert requests[1..][k - 1] == requests[k];
      }
    }
  }

  /** The error reported is that of the first request that cannot be serialized. */
  lemma {:induction false} JsonlFirstError(requests: seq<GenerationRequest>, k: nat, render: GenerationRequest -> Result<seq<byte>, string>)
    requires k < |requests|
    requires forall i :: 0 <= i < k ==> render(requests[i]).Ok?
    requires render(requests[k]).Err?
    ensures Jsonl(requests, render) == Err(BatchSerializationFailed(render(requests[k]).error))
  {
    if k > 0 {
      assert requests[1..][k - 1] == requests[k];
      JsonlFirstError(requests[1..], k - 1, render);
    }
  }

  /** Once a prefix fails, nothing after it changes the outcome. */
  lemma {:induction false} JsonlAppendError(a: seq<GenerationRequest>, b: seq<GenerationRequest>, render: GenerationRequest -> Result<seq<byte>, string>)
    requires Jsonl(a, render).Err?
    ensures Jsonl(a + b, render) == Jsonl(a, render)
  {
    assert (a + b)[0] == a[0];
    if render(a[0]).Ok? {
      assert (a + b)[1..] == a[1..] + b;
      JsonlAppendError(a[1..], b, render);
    }
  }

  /** Extending a serializable list by one request adds that request's line at the end. */
  lemma {:induction false} JsonlSnoc(a: seq<GenerationRequest>, x: GenerationRequest, render: GenerationRequest -> Result<seq<byte>, string>)
    requires Jsonl(a, render).Ok?
    ensures render(x).Err? ==> Jsonl(a + [x], render) == Err(BatchSerializationFailed(render(x).error))
    ensures render(x).Ok? ==> Jsonl(a + [x], render) == Ok(Jsonl(a, render).value + render(x).value + [NEWLINE])
  {
    if |a| == 0 {
      assert a + [x] == [x];
      assert Jsonl([x][1..], render) == Ok([]);
      if render(x).Ok? {
        assert render(x).value + [NEWLINE] + [] == Jsonl(a, render).value + render(x).value + [NEWLINE];
      }
    } else {
      assert (a + [x])[0] == a[0];
      assert (a + [x])[1..] == a[1..] + [x];
      var first := render(a[0]).value;
      assert Jsonl(a[1..], render).Ok?;
      JsonlSnoc(a[1..], x, render);
      if render(x).Ok? {
        var rest := Jsonl(a[1..], render).value;
        assert Jsonl(a + [x], render) == Ok(first + [NEWLINE] + (rest + render(x).value + [NEWLINE]));
        assert first + [NEWLINE] + (rest + render(x).value + [NEWLINE]) == (first + [NEWLINE] + rest) + render(x).value + [NEWLINE];
      }
    }
  }

  /**
   * `serialize_batch_to_file`: each request is written to the buffer
   * followed by a newline; the first failure returns at once and the
   * partial buffer is dropped.
   */
  method SerializeBatch(requests: seq<GenerationRequest>, render: GenerationRequest -> Result<seq<byte>, string>)
    returns (r: Result<seq<byte>, BatchError>)
    ensures r == Jsonl(requests, render)
  {
    var buffer: seq<byte> := [];
    var i := 0;
    while i < |requests|
      invariant 0 <= i <= |requests|
      invariant Jsonl(requests[..i], render) == Ok(buffer)
    {
      var line := render(requests[i]);
      JsonlSnoc(requests[..i], requests[i], render);
      assert requests[..i + 1] == requests[..i] + [requests[i]];
      if line.Err? {
        JsonlAppendError(requests[..i + 1], requests[i + 1..], render);
        assert requests[..i + 1] + requests[i + 1..] == requests;
        return Err(BatchSerializationFailed(line.error));
      }
      buffer := buffer + line.value + [NEWLINE];
      i := i + 1;
    }
    assert requests[..i] == requests;
    return Ok(buffer);
  }

  /** The bytes before the first newline, and the bytes after it. */
  function NextLine(buf: seq<byte>): (r: (seq<byte>, seq<byte>))
    ensures |buf| > 0 ==> |r.1| < |buf|
    ensures NEWLINE !in r.0
  {
    if |buf| == 0 then ([], [])
    else if buf[0] == NEWLINE then ([], buf[1..])
    else
      var next := NextLine(buf[1..]);
      ([buf[0]] + next.0, next.1)
  }

  /** A JSONL reader: the buffer cut at each newline. */
  function SplitLines(buf: seq<byte>): (lines: seq<seq<byte>>)
    ensures forall i :: 0 <= i < |lines| ==> NEWLINE !in lines[i]
    decreases |buf|
  {
    if |buf| == 0 then []
    else [NextLine(buf).0] + SplitLines(NextLine(buf).1)
  }

  lemma {:induction false} NextLineOf(line: seq<byte>, rest: seq<byte>)
    requires NEWLINE !in line
    ensures NextLine(line + [NEWLINE] + rest) == (line, rest)
  {
    var buf := line + [NEWLINE] + rest;
    if |line| == 0 {
      assert buf == [NEWLINE] + rest;
      assert buf[1..] == rest;
    } else {
      assert buf[0] == line[0];
      assert buf[1..] == line[1..] + [NEWLINE] + rest;
      NextLineOf(line[1..], rest);
      assert [line[0]] + line[1..] == line;
    }
  }

  /**
   * Reading the upload back line by line gives one line per request, in
   * order, each that request's JSON, provided no JSON text holds a raw
   * newline (serde_json's compact output escapes it).
   */
  lemma {:induction false} JsonlLines(requests: seq<GenerationRequest>, render: GenerationRequest -> Result<seq<byte>, string>)
    requires forall i :: 0 <= i < |requests| ==> render(requests[i]).Ok? && NEWLINE !in render(requests[i]).value
    ensures Jsonl(requests, render).Ok?
    ensures |SplitLines(Jsonl(requests, render).value)| == |requests|
    ensures forall i :: 0 <= i < |requests| ==> SplitLines(Jsonl(requests, render).value)[i] == render(requests[i]).value
  {
    if |requests| > 0 {
      var tail := requests[1..];
      assert forall i :: 0 <= i < |tail| ==> tail[i] == requests[i + 1];
      JsonlLines(tail, render);
      var line := render(requests[0]).value;
      var rest := Jsonl(tail, render).value;
      assert Jsonl(requests, render).value == line + [NEWLINE] + rest;
      NextLineOf(line, rest);
      var lines := SplitLines(Jsonl(requests, render).value);
      assert lines == [line] + SplitLines(rest);
      forall i | 0 <= i < |requests|
        ensures lines[i] == render(requests[i]).value
      {
        if i > 0 {
          assert lines[i] == SplitLines(rest)[i - 1];
        }
      }
    }
  }

  /** The query that marks an upload as a batch of chat completions. */
  const BATCH_QUERY: seq<(string, string)> := [("method", "chat_completions")]

  /** The upload URL: `batches` with the method query appended after any query of the join. */
  function SubmitUrl(base: Url, join: (Url, string) -> Result<Url, ParseError>): (r: Result<Url, Client.BuildUrlError>)
    ensures r.Err? <==> join(base, BatchHandlers.BATCHES_PATH).Err?
    ensures r.Ok? ==> r.value.query == join(base, BatchHandlers.BATCHES_PATH).value.query + BATCH_QUERY
  {
    Client.UrlFor(base, BatchHandlers.BATCHES_PATH, Some(BATCH_QUERY), join)
  }

  /** The upload request: the JSONL bytes posted as an opaque octet stream. */
  function SubmitRequest(url: Url, bytes: seq<byte>): (q: Request<seq<byte>>)
    ensures q.verb == Post && q.url == url && q.body == bytes
    ensures q.headers == [Header("content-type", "application/octet-stream")]
  {
    Request(Post, url, [Header("content-type", "application/octet-stream")], bytes)
  }

  /**
   * `execute`: the URL is built first and its failure is reported before
   * anything is serialized or sent; then the upload is serialized and
   * posted, a failed request is `BadRequest`, and on success the handler
   * carries the id the service assigned.
   */
  method Execute(
    builder: BatchBuilder,
    base: Url,
    join: (Url, string) -> Result<Url, ParseError>,
    render: GenerationRequest -> Result<seq<byte>, string>,
    transport: Request<seq<byte>> -> Sent,
    decode: Response -> Result<BatchCreateResponse, DecodeError>
  ) returns (r: Result<BatchHandlers.BatchHandler, BatchError>)
    ensures SubmitUrl(base, join).Err? ==> r == Err(BuildUrl(SubmitUrl(base, join).error))
    ensures SubmitUrl(base, join).Ok? && Jsonl(builder.requests, render).Err? ==>
      r == Err(Jsonl(builder.requests, render).error)
    ensures SubmitUrl(base, join).Ok? && Jsonl(builder.requests, render).Ok? ==>
      var sent := Client.PerformRequest(SubmitRequest(SubmitUrl(base, join).value, Jsonl(builder.requests, render).value), transport, decode).result;
      && (sent.Err? ==> r == Err(BadRequest(sent.error)))
      && (sent.Ok? ==> r.Ok? && BatchHandlers.Id(r.value) == sent.value.id)
  {
    var url := Client.BuildUrl(base, BatchHandlers.BATCHES_PATH, Some(BATCH_QUERY), join);
    if url.Err? {
      return Err(BuildUrl(url.error));
    }
    var bytes := SerializeBatch(builder.requests, render);
    if bytes.Err? {
      return Err(bytes.error);
    }
    var sent := Client.PerformRequest(SubmitRequest(url.value, bytes.value), transport, decode).result;
    if sent.Err? {
      return Err(BadRequest(sent.error));
    }
    return Ok(BatchHandlers.New(sent.value.id));
  }

  /** The way the library's examples submit a batch: an empty builder, the requests appended, executed. */
  method SubmitAll(
    requests: seq<GenerationRequest>,
    base: Url,
    join: (Url, string) -> Result<Url, ParseError>,
    render: GenerationRequest -> Result<seq<byte>, string>,
    transport: Request<seq<byte>> -> Sent,
    decode: Response -> Result<BatchCreateResponse, DecodeError>
  ) returns (r: Result<BatchHandlers.BatchHandler, BatchError>)
    ensures SubmitUrl(base, join).Ok? && (exists i :: 0 <= i < |requests| && render(requests[i]).Err?) ==>
      r.Err? && r.error.BatchSerializationFailed?
  {
    var builder := new BatchBuilder.New();
    builder.WithRequests(requests);
    assert builder.requests == requests;
    JsonlOk(requests, render);
    r := Execute(builder, base, join, render, transport, decode);
  }
}
