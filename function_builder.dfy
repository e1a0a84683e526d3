/**
 * Building a user function description and asking the service to validate
 * it (src/function/mod.rs). Schema generation is not modelled: the two
 * schemas `build` would generate arrive as values.
 */
module FunctionBuilders {
  import opened Wrappers
  import opened Json
  import opened Http
  import opened Client
  import opened FunctionStructures

  /** `function::error::Error`. */
  datatype FunctionError = BadRequest(request: RequestError) | BadFunction(errors: seq<Diagnostics>)

  /**
   * `serde_json::to_value` of a `FunctionExample<I>`: a struct with the
   * request text and the serialized arguments, or the serializer's error.
   */
  function ExampleValue<I>(e: FunctionExample<I>, paramsToValue: I -> Result<Json, string>): (r: Result<Json, string>)
    ensures r.Ok? <==> paramsToValue(e.params).Ok?
    ensures r.Ok? ==> r.value.Obj? && Get(r.value.fields, "request") == Some(Str(e.request))
    ensures r.Ok? ==> Get(r.value.fields, "params") == Some(paramsToValue(e.params).value)
  {
    match paramsToValue(e.params)
    case Err(reason) => Err(reason)
    case Ok(params) => Ok(Obj([("request", Str(e.request)), ("params", params)]))
  }

  /**
   * The few-shot list of `build`: each example converted in order and
   * unwrapped, so the first one that fails to serialize panics.
   */
  function ExampleValues<I>(examples: seq<FunctionExample<I>>, paramsToValue: I -> Result<Json, string>): (r: Outcome<seq<Json>>)
    ensures r.Returned? <==> forall i :: 0 <= i < |examples| ==> ExampleValue(examples[i], paramsToValue).Ok?
    ensures r.Returned? ==> |r.value| == |examples|
    ensures r.Returned? ==> forall i :: 0 <= i < |examples| ==> r.value[i] == ExampleValue(examples[i], paramsToValue).value
    ensures r.Panicked? ==> r.message == UNWRAP_ON_ERR
  {
    if |examples| == 0 then Returned([])
    else
      match ExampleValue(examples[0], paramsToValue)
      case Err(_) => Panicked(UNWRAP_ON_ERR)
      case Ok(v) =>
        match ExampleValues(examples[1..], paramsToValue)
        case Panicked(m) => Panicked(m)
        case Returned(rest) => Returned([v] + rest)
  }

  /**
   * `FunctionBuilder<I, O, S>`: the name, the optional description and the
   * examples collected so far; the setters update the builder in place.
   */
  class FunctionBuilder<I> {
    var name: string
    var description: Option<string>
    var examples: seq<FunctionExample<I>>

    /** `FunctionBuilder::new`: the given name, no description, no examples. */
    constructor New(name: string)
      ensures this.name == name && description == None && examples == []
    {
      this.name := name;
      description := None;
      examples := [];
    }

    /** `with_description`: sets the description and nothing else. */
    method WithDescription(d: string)
      modifies this
      ensures description == Some(d)
      ensures name == old(name) && examples == old(examples)
    {
      description := Some(d);
    }

    /** `with_example`: appends one example at the end and changes nothing else. */
    method WithExample(e: FunctionExample<I>)
      modifies this
      ensures examples == old(examples) + [e]
      ensures name == old(name) && description == old(description)
    {
      examples := examples + [e];
    }

    /**
     * `build`: the name and description unchanged, the two schemas, and
     * one few-shot entry per example in order; it panics exactly when an
     * example cannot be serialized.
     */
    function Build(parameters: Json, returnParameters: Json, paramsToValue: I -> Result<Json, string>): (r: Outcome<UserFunction>)
      reads this
      ensures r.Returned? <==> forall i :: 0 <= i < |examples| ==> paramsToValue(examples[i].params).Ok?
      ensures r.Returned? ==> r.value.name == name && r.value.description == description
      ensures r.Returned? ==> r.value.parameters == parameters && r.value.returnParameters == returnParameters
      ensures r.Returned? ==> |r.value.fewShotExamples| == |examples|
      ensures r.Returned? ==> forall i :: 0 <= i < |examples| ==>
        r.value.fewShotExamples[i] == ExampleValue(examples[i], paramsToValue).value
    {
      match ExampleValues(examples, paramsToValue)
      case Panicked(m) => Panicked(m)
      case Returned(values) => Returned(UserFunction(name, description, parameters, values, returnParameters))
    }
  }

  /** A builder used as the examples of the library do: named, described, one example, built. */
  method DescribedFunction<I>(
    name: string,
    description: string,
    example: FunctionExample<I>,
    parameters: Json,
    returnParameters: Json,
    paramsToValue: I -> Result<Json, string>
  ) returns (r: Outcome<UserFunction>)
    ensures paramsToValue(example.params).Ok? <==> r.Returned?
    ensures r.Returned? ==> r.value.name == name && r.value.description == Some(description)
    ensures r.Returned? ==> r.value.fewShotExamples == [ExampleValue(example, paramsToValue).value]
  {
    var builder := new FunctionBuilder.New(name);
    builder.WithDescription(description);
    builder.WithExample(example);
    r := builder.Build(parameters, returnParameters, paramsToValue);
  }

  const VALIDATE_PATH: string := "functions/validate"

  /** The validation request: a POST of the function's JSON to the validation endpoint. */
  function ValidateRequest(url: Url, f: UserFunction): (q: Request<UserFunction>)
    ensures q.verb == Post && q.url == url && q.body == f
  {
    Request(Post, url, [], f)
  }

  /**
   * `check_function`: the validation URL is unwrapped (a join failure
   * panics); a send, status or decode failure is `BadRequest`; a result with
   * errors is `BadFunction` with those errors, and otherwise the warnings
   * are returned verbatim.
   */
  function CheckFunction(
    f: UserFunction,
    base: Url,
    join: (Url, string) -> Result<Url, ParseError>,
    transport: Request<UserFunction> -> Sent,
    decode: Response -> Result<FunctionCheckResponse, DecodeError>
  ): (r: Outcome<Result<seq<Diagnostics>, FunctionError>>)
    ensures r.Panicked? <==> join(base, VALIDATE_PATH).Err?
    ensures r.Panicked? ==> r.message == UNWRAP_ON_ERR
    ensures r.Returned? ==>
      var result := PerformRequest(ValidateRequest(join(base, VALIDATE_PATH).value, f), transport, decode).result;
      && (result.Err? ==> r.value == Err(BadRequest(result.error)))
      && (result.Ok? && result.value.result.CheckError? ==> r.value == Err(BadFunction(result.value.result.errors)))
      && (result.Ok? && result.value.result.CheckOk? ==> r.value == Ok(result.value.result.warnings))
  {
    match UrlFor(base, VALIDATE_PATH, None, join)
    case Err(_) => Panicked(UNWRAP_ON_ERR)
    case Ok(url) =>
      match PerformRequest(ValidateRequest(url, f), transport, decode).result
      case Err(e) => Returned(Err(BadRequest(e)))
      case Ok(response) =>
        match response.result
        case CheckError(errors) => Returned(Err(BadFunction(errors)))
        case CheckOk(warnings) => Returned(Ok(warnings))
  }
}
