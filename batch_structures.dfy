/**
 * The wire types of the batch API (src/batch/structures.rs): keyed request
 * and response items, the per-item outcome, the batch status and method
 * enums, and the create/check responses. Timestamps are integers of
 * milliseconds since the epoch.
 */
module BatchStructures {
  import opened Wrappers
  import opened Json
  import opened RenameRules
  import opened Serialization
  import GenerationStructures

  /** `BatchGenerateRequestItem`: a request and the caller's key for it. */
  datatype BatchGenerateRequestItem = BatchGenerateRequestItem(key: usize, request: GenerationStructures.GenerationRequest)

  /** `BatchItemError`: the HTTP status (`u16`) and message of one failed item. */
  datatype BatchItemError = BatchItemError(status: nat, message: string)

  /** `BatchResponseResult`: the outcome of one item, tagged `result` or `error`. */
  datatype BatchResponseResult =
    | ItemResult(response: GenerationStructures.GenerationResponse)
    | ItemError(error: BatchItemError)

  /** `From<BatchResponseResult> for Result<..>`: the tag becomes `Ok` or `Err`, the payload is kept. */
  function FromResult(item: BatchResponseResult): (r: Result<GenerationStructures.GenerationResponse, BatchItemError>)
    ensures r.Ok? <==> item.ItemResult?
    ensures r.Ok? ==> r.value == item.response
    ensures r.Err? ==> r.error == item.error
  {
    match item
    case ItemResult(response) => Ok(response)
    case ItemError(error) => Err(error)
  }

  /** `BatchResponseResult::res`: the conversion above, by `into()`. */
  function Res(item: BatchResponseResult): (r: Result<GenerationStructures.GenerationResponse, BatchItemError>)
    ensures r == FromResult(item)
  {
    FromResult(item)
  }

  /** The opposite direction: a `Result` as the tagged item it came from. */
  function ToResponseResult(r: Result<GenerationStructures.GenerationResponse, BatchItemError>): (item: BatchResponseResult)
    ensures item.ItemResult? <==> r.Ok?
    ensures FromResult(item) == r
  {
    match r
    case Ok(response) => ItemResult(response)
    case Err(error) => ItemError(error)
  }

  /** `res` loses nothing: it and `ToResponseResult` are inverse bijections. */
  lemma ResBijective(item: BatchResponseResult, r: Result<GenerationStructures.GenerationResponse, BatchItemError>)
    ensures ToResponseResult(Res(item)) == item
    ensures Res(ToResponseResult(r)) == r
  {
  }

  /** `BatchGenerateResponseItem`: a response and the key of the request it answers. */
  datatype BatchGenerateResponseItem = BatchGenerateResponseItem(key: usize, response: GenerationStructures.GenerationResponse)

  /**
   * A request item as JSON: the key through `string_to_usize`, so a
   * decimal string, and the request as `GenerationRequest` serializes.
   */
  function EncodeRequestItem(item: BatchGenerateRequestItem, render: Json -> string): (j: Json)
    ensures j.Obj?
    ensures Get(j.fields, "key") == Some(SerializeUsize(item.key))
    ensures Get(j.fields, "request") == Some(GenerationStructures.EncodeRequest(item.request, render))
  {
    Obj([("key", SerializeUsize(item.key)), ("request", GenerationStructures.EncodeRequest(item.request, render))])
  }

  /** The `key` of an item object, read back through `string_to_usize`. */
  function DecodeItemKey(fields: seq<(string, Json)>): (r: Result<usize, DeError>)
    ensures Get(fields, "key").None? ==> r == Err(MissingField("key"))
    ensures Get(fields, "key").Some? ==> r == DeserializeUsize(Get(fields, "key").value)
  {
    match Field(fields, "key")
    case Err(e) => Err(e)
    case Ok(j) => DeserializeUsize(j)
  }

  /** The key of every request item survives the trip through its JSON form. */
  lemma RequestItemKeyRoundTrip(item: BatchGenerateRequestItem, render: Json -> string)
    ensures DecodeItemKey(EncodeRequestItem(item, render).fields) == Ok(item.key)
  {
    UsizeRoundTrip(item.key);
  }

  /**
   * A response item: the key as `string_to_usize` reads it (a decimal
   * string or a plain integer) and the response through `decodeResponse`.
   * The fields are read in a fixed order, key first; serde reads them in
   * the order the document gives them, so when both fail it may report
   * the other error.
   */
  function DecodeResponseItem(
    j: Json,
    decodeResponse: Json -> Result<GenerationStructures.GenerationResponse, DeError>
  ): (r: Result<BatchGenerateResponseItem, DeError>)
    ensures !j.Obj? ==> r == Err(InvalidType("struct BatchGenerateResponseItem"))
    ensures j.Obj? && DecodeItemKey(j.fields).Err? ==> r == Err(DecodeItemKey(j.fields).error)
    ensures r.Ok? ==> j.Obj? && DecodeItemKey(j.fields) == Ok(r.value.key)
    ensures r.Ok? ==> Get(j.fields, "response").Some? && decodeResponse(Get(j.fields, "response").value) == Ok(r.value.response)
  {
    match j
    case Obj(fields) =>
      (match DecodeItemKey(fields)
       case Err(e) => Err(e)
       case Ok(key) =>
         match Field(fields, "response")
         case Err(e) => Err(e)
         case Ok(body) =>
           match decodeResponse(body)
           case Err(e) => Err(e)
           case Ok(response) => Ok(BatchGenerateResponseItem(key, response)))
    case _ => Err(InvalidType("struct BatchGenerateResponseItem"))
  }

  /** A key the service sends back as a decimal string is the number it spells. */
  lemma ResponseItemKeyDecimal(key: usize, body: Json, decodeResponse: Json -> Result<GenerationStructures.GenerationResponse, DeError>)
    requires decodeResponse(body).Ok?
    ensures DecodeResponseItem(Obj([("key", Str(Decimal(key))), ("response", body)]), decodeResponse)
      == Ok(BatchGenerateResponseItem(key, decodeResponse(body).value))
  {
    var fields := [("key", Str(Decimal(key))), ("response", body)];
    UsizeRoundTrip(key);
    assert SerializeUsize(key) == Str(Decimal(key));
    assert Get(fields, "key") == Some(Str(Decimal(key)));
    assert DecodeItemKey(fields) == Ok(key);
    assert fields[1..] == [("response", body)];
    assert Get(fields, "response") == Some(body);
  }

  /** `Status` of a batch, renamed `snake_case` on the wire. */
  datatype Status = Created | InProgress | Completed

  function StatusIdent(s: Status): string
  {
    match s
    case Created => "Created"
    case InProgress => "InProgress"
    case Completed => "Completed"
  }

  lemma SnakeCaseCreated()
    ensures SnakeCase("Created") == "created"
  {
    assert "Created" == ['C'] + "reated";
    SnakeCaseWord('C', "reated");
  }

  lemma InProgressLiterals()
    ensures "InProgress" == ['I'] + ("n" + (['P'] + "rogress"))
    ensures "in_progress" == ['i'] + ("n" + (['_', 'p'] + "rogress"))
  {
    SameChars("InProgress", ['I'] + ("n" + (['P'] + "rogress")));
    SameChars("in_progress", ['i'] + ("n" + (['_', 'p'] + "rogress")));
  }

  lemma SnakeCaseInProgress()
    ensures SnakeCase("InProgress") == "in_progress"
  {
    SnakeCaseTwoWords('I', "n", 'P', "rogress");
    InProgressLiterals();
  }

  lemma SnakeCaseCompleted()
    ensures SnakeCase("Completed") == "completed"
  {
    assert "Completed" == ['C'] + "ompleted";
    SnakeCaseWord('C', "ompleted");
  }

  /** The wire name of a status: serde's `snake_case` of the variant name. */
  function StatusName(s: Status): (name: string)
    ensures name == SnakeCase(StatusIdent(s))
  {
    match s
    case Created => SnakeCaseCreated(); "created"
    case InProgress => SnakeCaseInProgress(); "in_progress"
    case Completed => SnakeCaseCompleted(); "completed"
  }

  function StatusFromName(name: string): (r: Option<Status>)
    ensures r.Some? ==> StatusName(r.value) == name
  {
    if name == "created" then Some(Created)
    else if name == "in_progress" then Some(InProgress)
    else if name == "completed" then Some(Completed)
    else None
  }

  /** Every status is read back as itself, so distinct statuses have distinct names. */
  lemma StatusNameRoundTrip(s: Status)
    ensures StatusFromName(StatusName(s)) == Some(s)
  {
  }

  /** `batch::structures::Method`: the endpoint a batch runs against, renamed `snake_case`. */
  datatype BatchMethod = ChatCompletions | Embedder

  function MethodIdent(m: BatchMethod): string
  {
    match m
    case ChatCompletions => "ChatCompletions"
    case Embedder => "Embedder"
  }

  lemma ChatCompletionsLiterals()
    ensures "ChatCompletions" == ['C'] + ("hat" + (['C'] + "ompletions"))
    ensures "chat_completions" == ['c'] + ("hat" + (['_', 'c'] + "ompletions"))
  {
    SameChars("ChatCompletions", ['C'] + ("hat" + (['C'] + "ompletions")));
    SameChars("chat_completions", ['c'] + ("hat" + (['_', 'c'] + "ompletions")));
  }

  lemma SnakeCaseChatCompletions()
    ensures SnakeCase("ChatCompletions") == "chat_completions"
  {
    SnakeCaseTwoWords('C', "hat", 'C', "ompletions");
    ChatCompletionsLiterals();
  }

  lemma SnakeCaseEmbedder()
    ensures SnakeCase("Embedder") == "embedder"
  {
    assert "Embedder" == ['E'] + "mbedder";
    SnakeCaseWord('E', "mbedder");
  }

  /** The wire name of a batch method: serde's `snake_case` of the variant name. */
  function MethodName(m: BatchMethod): (name: string)
    ensures name == SnakeCase(MethodIdent(m))
  {
    match m
    case ChatCompletions => SnakeCaseChatCompletions(); "chat_completions"
    case Embedder => SnakeCaseEmbedder(); "embedder"
  }

  function MethodFromName(name: string): (r: Option<BatchMethod>)
    ensures r.Some? ==> MethodName(r.value) == name
  {
    if name == "chat_completions" then Some(ChatCompletions)
    else if name == "embedder" then Some(Embedder)
    else None
  }

  lemma MethodNameRoundTrip(m: BatchMethod)
    ensures MethodFromName(MethodName(m)) == Some(m)
  {
  }

  /**
   * A unit-only enum read from JSON: a variant name, or a one-field object
   * mapping the name to `null`; an unknown name is reported as such.
   */
  function DecodeStatus(j: Json): (r: Result<Status, DeError>)
    ensures j.Str? && StatusFromName(j.s).Some? ==> r == Ok(StatusFromName(j.s).value)
    ensures j.Str? && StatusFromName(j.s).None? ==> r == Err(UnknownVariant(j.s))
    ensures r.Ok? ==> j == Str(StatusName(r.value)) || j == Obj([(StatusName(r.value), Null)])
  {
    match j
    case Str(s) =>
      (match StatusFromName(s)
       case Some(status) => Ok(status)
       case None => Err(UnknownVariant(s)))
    case Obj(fields) =>
      if |fields| != 1 then Err(InvalidType("enum Status"))
      else
        (match StatusFromName(fields[0].0)
         case None => Err(UnknownVariant(fields[0].0))
         case Some(status) =>
           if fields[0].1 == Null then (assert fields == [(StatusName(status), Null)]; Ok(status))
           else Err(InvalidType("unit variant")))
    case _ => Err(InvalidType("enum Status"))
  }

  function EncodeStatus(s: Status): (j: Json)
    ensures j.Str? && j.s == SnakeCase(StatusIdent(s))
  {
    Str(StatusName(s))
  }

  lemma StatusJsonRoundTrip(s: Status)
    ensures DecodeStatus(EncodeStatus(s)) == Ok(s)
  {
    StatusNameRoundTrip(s);
  }

  /** `Method` read from JSON, in the same way as `Status`. */
  function DecodeMethod(j: Json): (r: Result<BatchMethod, DeError>)
    ensures j.Str? && MethodFromName(j.s).Some? ==> r == Ok(MethodFromName(j.s).value)
    ensures j.Str? && MethodFromName(j.s).None? ==> r == Err(UnknownVariant(j.s))
    ensures r.Ok? ==> j == Str(MethodName(r.value)) || j == Obj([(MethodName(r.value), Null)])
  {
    match j
    case Str(s) =>
      (match MethodFromName(s)
       case Some(m) => Ok(m)
       case None => Err(UnknownVariant(s)))
    case Obj(fields) =>
      if |fields| != 1 then Err(InvalidType("enum Method"))
      else
        (match MethodFromName(fields[0].0)
         case None => Err(UnknownVariant(fields[0].0))
         case Some(m) =>
           if fields[0].1 == Null then (assert fields == [(MethodName(m), Null)]; Ok(m))
           else Err(InvalidType("unit variant")))
    case _ => Err(InvalidType("enum Method"))
  }

  function EncodeMethod(m: BatchMethod): (j: Json)
    ensures j.Str? && j.s == SnakeCase(MethodIdent(m))
  {
    Str(MethodName(m))
  }

  lemma MethodJsonRoundTrip(m: BatchMethod)
    ensures DecodeMethod(EncodeMethod(m)) == Ok(m)
  {
    MethodNameRoundTrip(m);
  }

  /** `BatchCreateCounts`. */
  datatype BatchCreateCounts = BatchCreateCounts(total: usize)

  /** `BatchCreateResponse`: what the service answers to a submitted batch. */
  datatype BatchCreateResponse = BatchCreateResponse(
    id: string,
    batchMethod: BatchMethod,
    counts: BatchCreateCounts,
    status: Status,
    createdAt: int,
    updatedAt: int)

  /** `BatchCheckCounts`: how many requests the batch holds and how many have finished each way. */
  datatype BatchCheckCounts = BatchCheckCounts(total: usize, completed: usize, failed: usize)

  /** `BatchCheckResponse`: what the service answers to a status query. */
  datatype BatchCheckResponse = BatchCheckResponse(
    id: string,
    batchMethod: BatchMethod,
    requestCounts: BatchCheckCounts,
    status: Status,
    outputFileId: Option<string>,
    createdAt: int,
    updatedAt: int)
}
