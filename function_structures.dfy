/**
 * The value types of user-defined functions (src/function/structures.rs):
 * the function description sent to the model, the names of built-in
 * functions, and the result of the server-side function check, whose two
 * shapes are told apart by the fields present.
 */
module FunctionStructures {
  import opened Wrappers
  import opened Json

  /** `FunctionCheckDiagnostics`: one finding of the function check. */
  datatype Diagnostics = Diagnostics(description: string, schemaLocation: string)

  /** `FunctionExample<I>`: a sample request with the arguments it should produce. */
  datatype FunctionExample<I> = FunctionExample(request: string, params: I)

  /**
   * `UserFunction`: the schemas are kept as JSON values, each few-shot
   * example as the JSON value it serialized to.
   */
  datatype UserFunction = UserFunction(
    name: string,
    description: Option<string>,
    parameters: Json,
    fewShotExamples: seq<Json>,
    returnParameters: Json)

  /** `FunctionName`: a function as the model refers to it, by name only. */
  datatype FunctionName = FunctionName(name: string)

  /** `UserFunction::name`. */
  function Name(f: UserFunction): (n: string)
    ensures n == f.name
  {
    f.name
  }

  /** `UserFunction::function_name`: the function's name as a `FunctionName`, the same text as `Name`. */
  function FunctionNameOf(f: UserFunction): (n: FunctionName)
    ensures n.name == Name(f)
  {
    FunctionName(f.name)
  }

  /** The image-generation built-in. */
  function Text2Image(): (n: FunctionName)
    ensures n.name == "text2image"
  {
    FunctionName("text2image")
  }

  /** The file-reading built-in. */
  function GetFileContent(): (n: FunctionName)
    ensures n.name == "get_file_content"
  {
    FunctionName("get_file_content")
  }

  /** The 3D-model built-in. */
  function Text2Model3d(): (n: FunctionName)
    ensures n.name == "text2model3d"
  {
    FunctionName("text2model3d")
  }

  /** `FunctionName` serializes as a struct with its one field. */
  function EncodeFunctionName(n: FunctionName): (j: Json)
    ensures j.Obj? && Get(j.fields, "name") == Some(Str(n.name))
  {
    Obj([("name", Str(n.name))])
  }

  /** `FunctionName` deserialized from an object's fields. */
  function DecodeFunctionNameFields(fields: seq<(string, Json)>): (r: Result<FunctionName, DeError>)
    ensures r.Ok? <==> StrField(fields, "name").Ok?
    ensures r.Ok? ==> r.value.name == StrField(fields, "name").value
  {
    match StrField(fields, "name")
    case Ok(s) => Ok(FunctionName(s))
    case Err(e) => Err(e)
  }

  lemma FunctionNameRoundTrip(n: FunctionName)
    ensures DecodeFunctionNameFields(EncodeFunctionName(n).fields) == Ok(n)
  {
  }

  function EncodeDiagnostics(d: Diagnostics): (j: Json)
    ensures j.Obj? && Get(j.fields, "description") == Some(Str(d.description))
    ensures j.Obj? && Get(j.fields, "schema_location") == Some(Str(d.schemaLocation))
  {
    Obj([("description", Str(d.description)), ("schema_location", Str(d.schemaLocation))])
  }

  /** A diagnostic deserialized: an object with two string fields. */
  function DecodeDiagnostics(j: Json): (r: Result<Diagnostics, DeError>)
    ensures r.Ok? ==> j.Obj?
    ensures r.Ok? ==> Get(j.fields, "description") == Some(Str(r.value.description))
    ensures r.Ok? ==> Get(j.fields, "schema_location") == Some(Str(r.value.schemaLocation))
  {
    if !j.Obj? then Err(InvalidType("struct FunctionCheckDiagnostics"))
    else
      match StrField(j.fields, "description")
      case Err(e) => Err(e)
      case Ok(description) =>
        match StrField(j.fields, "schema_location")
        case Err(e) => Err(e)
        case Ok(location) => Ok(Diagnostics(description, location))
  }

  function EncodeDiagnosticsList(ds: seq<Diagnostics>): (j: Json)
    ensures j.Arr? && |j.items| == |ds|
    ensures forall i :: 0 <= i < |ds| ==> j.items[i] == EncodeDiagnostics(ds[i])
  {
    Arr(seq(|ds|, i requires 0 <= i < |ds| => EncodeDiagnostics(ds[i])))
  }

  /** The elements of a `Vec<FunctionCheckDiagnostics>`, in order; the first bad element fails it. */
  function DecodeDiagnosticsItems(items: seq<Json>): (r: Result<seq<Diagnostics>, DeError>)
    ensures r.Ok? <==> forall i :: 0 <= i < |items| ==> DecodeDiagnostics(items[i]).Ok?
    ensures r.Ok? ==> |r.value| == |items|
    ensures r.Ok? ==> forall i :: 0 <= i < |items| ==> r.value[i] == DecodeDiagnostics(items[i]).value
  {
    if |items| == 0 then Ok([])
    else
      match DecodeDiagnostics(items[0])
      case Err(e) => Err(e)
      case Ok(d) =>
        match DecodeDiagnosticsItems(items[1..])
        case Err(e) => Err(e)
        case Ok(rest) => Ok([d] + rest)
  }

  function DecodeDiagnosticsList(j: Json): (r: Result<seq<Diagnostics>, DeError>)
    ensures r.Ok? ==> j.Arr? && r == DecodeDiagnosticsItems(j.items)
  {
    if j.Arr? then DecodeDiagnosticsItems(j.items) else Err(InvalidType("a sequence"))
  }

  lemma DiagnosticsListRoundTrip(ds: seq<Diagnostics>)
    ensures DecodeDiagnosticsList(EncodeDiagnosticsList(ds)) == Ok(ds)
  {
    var j := EncodeDiagnosticsList(ds);
    forall i | 0 <= i < |ds|
      ensures DecodeDiagnostics(j.items[i]) == Ok(ds[i])
    {
    }
    var r := DecodeDiagnosticsItems(j.items);
    assert r.value == ds;
  }

  /**
   * `FunctionCheckResult`, an untagged enum: `Error { errors }` or
   * `Ok { warnings }` (named `CheckError` / `CheckOk` here).
   */
  datatype FunctionCheckResult = CheckError(errors: seq<Diagnostics>) | CheckOk(warnings: seq<Diagnostics>)

  /** The fields each variant serializes to. */
  function EncodeCheckResult(r: FunctionCheckResult): (fields: seq<(string, Json)>)
    ensures r.CheckError? ==> Get(fields, "errors") == Some(EncodeDiagnosticsList(r.errors))
    ensures r.CheckOk? ==> Get(fields, "warnings") == Some(EncodeDiagnosticsList(r.warnings))
    ensures r.CheckOk? ==> Get(fields, "errors").None?
  {
    match r
    case CheckError(errors) => [("errors", EncodeDiagnosticsList(errors))]
    case CheckOk(warnings) => [("warnings", EncodeDiagnosticsList(warnings))]
  }

  /**
   * Untagged deserialization from an object's fields: `Error` is tried
   * first and wins whenever `errors` holds a list of diagnostics; otherwise
   * `Ok`, where a missing `warnings` is the empty list (`#[serde(default)]`);
   * if `warnings` is present but not a list, no variant matches.
   */
  function DecodeCheckResult(fields: seq<(string, Json)>): (r: Result<FunctionCheckResult, DeError>)
    ensures Get(fields, "errors").Some? && DecodeDiagnosticsList(Get(fields, "errors").value).Ok? ==>
      r == Ok(CheckError(DecodeDiagnosticsList(Get(fields, "errors").value).value))
    ensures r.Ok? && r.value.CheckOk? ==>
      Get(fields, "errors").None? || DecodeDiagnosticsList(Get(fields, "errors").value).Err?
    ensures r.Ok? && r.value.CheckOk? && Get(fields, "warnings").None? ==> r.value.warnings == []
    ensures r.Ok? && r.value.CheckOk? && Get(fields, "warnings").Some? ==>
      DecodeDiagnosticsList(Get(fields, "warnings").value) == Ok(r.value.warnings)
    ensures r.Err? <==>
      (Get(fields, "errors").None? || DecodeDiagnosticsList(Get(fields, "errors").value).Err?) &&
      Get(fields, "warnings").Some? && DecodeDiagnosticsList(Get(fields, "warnings").value).Err?
  {
    var asError :=
      match Get(fields, "errors")
      case None => Err(MissingField("errors"))
      case Some(e) => DecodeDiagnosticsList(e);
    if asError.Ok? then Ok(CheckError(asError.value))
    else
      match Get(fields, "warnings")
      case None => Ok(CheckOk([]))
      case Some(w) =>
        match DecodeDiagnosticsList(w)
        case Ok(warnings) => Ok(CheckOk(warnings))
        case Err(_) => Err(NoMatchingVariant("FunctionCheckResult"))
  }

  /** Both shapes survive encoding then decoding; neither is mistaken for the other. */
  lemma CheckResultRoundTrip(r: FunctionCheckResult)
    ensures DecodeCheckResult(EncodeCheckResult(r)) == Ok(r)
  {
    match r
    case CheckError(errors) => DiagnosticsListRoundTrip(errors);
    case CheckOk(warnings) => DiagnosticsListRoundTrip(warnings);
  }

  /** `FunctionCheckResponse`: the status line of the check with the result flattened beside it. */
  datatype FunctionCheckResponse = FunctionCheckResponse(
    status: nat,
    message: string,
    jsonAiRulesVersion: string,
    result: FunctionCheckResult)

  const U16_MAX: nat := 0xFFFF

  /** The response's fields: its own three, then the result's, as `#[serde(flatten)]` writes them. */
  function EncodeCheckResponse(resp: FunctionCheckResponse): (j: Json)
    ensures j.Obj?
    ensures Get(j.fields, "status") == Some(UInt(resp.status))
    ensures Get(j.fields, "message") == Some(Str(resp.message))
    ensures Get(j.fields, "json_ai_rules_version") == Some(Str(resp.jsonAiRulesVersion))
  {
    var head := [("status", UInt(resp.status)),
                 ("message", Str(resp.message)),
                 ("json_ai_rules_version", Str(resp.jsonAiRulesVersion))];
    assert head[1..][1..] == head[2..];
    assert Get(head[2..], "json_ai_rules_version") == Some(Str(resp.jsonAiRulesVersion));
    assert Get(head[1..], "json_ai_rules_version") == Get(head[2..], "json_ai_rules_version");
    GetAppendFound(head, EncodeCheckResult(resp.result), "json_ai_rules_version");
    Obj([("status", UInt(resp.status)),
         ("message", Str(resp.message)),
         ("json_ai_rules_version", Str(resp.jsonAiRulesVersion))]
        + EncodeCheckResult(resp.result))
  }

  /**
   * The response deserialized: a `u16` status, two strings, and the result
   * read from the same object's fields.
   */
  function DecodeCheckResponse(j: Json): (r: Result<FunctionCheckResponse, DeError>)
    ensures r.Ok? ==> j.Obj? && r.value.status <= U16_MAX
    ensures r.Ok? ==> Get(j.fields, "status") == Some(UInt(r.value.status))
    ensures r.Ok? ==> Get(j.fields, "message") == Some(Str(r.value.message))
    ensures r.Ok? ==> Get(j.fields, "json_ai_rules_version") == Some(Str(r.value.jsonAiRulesVersion))
    ensures r.Ok? ==> DecodeCheckResult(j.fields) == Ok(r.value.result)
  {
    if !j.Obj? then Err(InvalidType("struct FunctionCheckResponse"))
    else
      match Field(j.fields, "status")
      case Err(e) => Err(e)
      case Ok(status) =>
        if !status.UInt? || status.n > U16_MAX then Err(InvalidType("u16"))
        else
          match StrField(j.fields, "message")
          case Err(e) => Err(e)
          case Ok(message) =>
            match StrField(j.fields, "json_ai_rules_version")
            case Err(e) => Err(e)
            case Ok(version) =>
              match DecodeCheckResult(j.fields)
              case Err(e) => Err(e)
              case Ok(result) => Ok(FunctionCheckResponse(status.n, message, version, result))
  }

  lemma CheckResponseRoundTrip(resp: FunctionCheckResponse)
    requires resp.status <= U16_MAX
    ensures DecodeCheckResponse(EncodeCheckResponse(resp)) == Ok(resp)
  {
    var head := [("status", UInt(resp.status)),
                 ("message", Str(resp.message)),
                 ("json_ai_rules_version", Str(resp.jsonAiRulesVersion))];
    var tail := EncodeCheckResult(resp.result);
    GetAppendSkip(head, tail, "errors");
    GetAppendSkip(head, tail, "warnings");
    CheckResultRoundTrip(resp.result);
  }
}
