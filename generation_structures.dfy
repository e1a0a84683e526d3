/**
 * The chat-completion values of src/generation/structures.rs: messages,
 * sampling options, the function-calling mode, the request as it is
 * serialized, and the response with its `text()` accessor.
 */
module GenerationStructures {
  import opened Wrappers
  import opened Json
  import opened Serialization
  import opened GenerationModel
  import opened FunctionStructures

  /** `FunctionCallResponse`: the function the model asks to call and its arguments. */
  datatype FunctionCallResponse = FunctionCallResponse(name: FunctionName, arguments: Json)

  /**
   * `Message`, internally tagged by `role`. The `Function` variant carries
   * the function's output as a JSON value (its field is `content` on the wire).
   */
  datatype Message =
    | System(content: string)
    | User(content: string)
    | Assistant(content: string, functionCall: Option<FunctionCallResponse>)
    | Function(name: FunctionName, output: Json)

  /** `Message::system`. */
  function SystemMessage(content: string): (m: Message)
    ensures m.System? && m.content == content
  {
    System(content)
  }

  /** `Message::user`. */
  function UserMessage(content: string): (m: Message)
    ensures m.User? && m.content == content
  {
    User(content)
  }

  /**
   * `Message::function`: the content is converted with `to_value` and
   * unwrapped, so a content that cannot be serialized panics.
   */
  function FunctionMessage<C>(name: FunctionName, content: C, toValue: C -> Result<Json, string>): (r: Outcome<Message>)
    ensures r.Returned? <==> toValue(content).Ok?
    ensures r.Returned? ==> r.value == Message.Function(name, toValue(content).value)
    ensures r.Panicked? ==> r.message == UNWRAP_ON_ERR
  {
    match toValue(content)
    case Ok(v) => Returned(Message.Function(name, v))
    case Err(_) => Panicked(UNWRAP_ON_ERR)
  }

  /** The `role` tag: the variant name in lower case (`rename_all = "lowercase"`). */
  function Role(m: Message): string
  {
    match m
    case System(_) => "system"
    case User(_) => "user"
    case Assistant(_, _) => "assistant"
    case Function(_, _) => "function"
  }

  function EncodeFunctionCallResponse(call: FunctionCallResponse): (j: Json)
    ensures j.Obj? && DecodeFunctionNameFields(j.fields) == Ok(call.name)
    ensures Get(j.fields, "arguments") == Some(call.arguments)
  {
    Obj([("name", Str(call.name.name)), ("arguments", call.arguments)])
  }

  /**
   * A message as serialized: the `role` tag first, then the variant's
   * fields; `function_call` is written as `null` when absent, the function
   * name is flattened into the message, and the function output is written
   * as its JSON text (`string_json`).
   */
  function EncodeMessage(m: Message, render: Json -> string): (j: Json)
    ensures j.Obj? && Get(j.fields, "role") == Some(Str(Role(m)))
  {
    match m
    case System(content) => Obj([("role", Str("system")), ("content", Str(content))])
    case User(content) => Obj([("role", Str("user")), ("content", Str(content))])
    case Assistant(content, call) =>
      Obj([("role", Str("assistant")), ("content", Str(content)),
           ("function_call", if call.Some? then EncodeFunctionCallResponse(call.value) else Null)])
    case Function(name, output) =>
      Obj([("role", Str("function")), ("name", Str(name.name)),
           ("content", SerializeJsonString(output, render))])
  }

  /** `Option<FunctionCallResponse>`: absent or `null` is `None`. */
  function DecodeOptionalCall(v: Option<Json>): (r: Result<Option<FunctionCallResponse>, DeError>)
    ensures (v.None? || v.value == Null) ==> r == Ok(None)
  {
    if v.None? || v.value == Null then Ok(None)
    else if !v.value.Obj? then Err(InvalidType("struct FunctionCallResponse"))
    else
      match DecodeFunctionNameFields(v.value.fields)
      case Err(e) => Err(e)
      case Ok(name) =>
        match Field(v.value.fields, "arguments")
        case Err(e) => Err(e)
        case Ok(arguments) => Ok(Some(FunctionCallResponse(name, arguments)))
  }

  /**
   * A message deserialized: the `role` tag picks the variant (a missing
   * tag or an unknown role is an error), then that variant's fields are read.
   */
  function DecodeMessage(j: Json, parse: string -> Result<Json, DeError>): (r: Result<Message, DeError>)
    ensures r.Ok? ==> j.Obj? && Get(j.fields, "role") == Some(Str(Role(r.value)))
    ensures j.Obj? && Get(j.fields, "role").None? ==> r == Err(MissingField("role"))
    ensures (j.Obj? && Get(j.fields, "role") == Some(Str("function")) && Get(j.fields, "content").Some? &&
             Get(j.fields, "content").value.Str? && HasEscape(Get(j.fields, "content").value.s)) ==> r.Err?
  {
    if !j.Obj? then Err(InvalidType("internally tagged enum Message"))
    else
      match Get(j.fields, "role")
      case None => Err(MissingField("role"))
      case Some(tag) =>
        if tag == Str("system") then
          (match StrField(j.fields, "content")
           case Err(e) => Err(e)
           case Ok(content) => Ok(System(content)))
        else if tag == Str("user") then
          (match StrField(j.fields, "content")
           case Err(e) => Err(e)
           case Ok(content) => Ok(User(content)))
        else if tag == Str("assistant") then
          (match StrField(j.fields, "content")
           case Err(e) => Err(e)
           case Ok(content) =>
             match DecodeOptionalCall(Get(j.fields, "function_call"))
             case Err(e) => Err(e)
             case Ok(call) => Ok(Assistant(content, call)))
        else if tag == Str("function") then
          (match DecodeFunctionNameFields(j.fields)
           case Err(e) => Err(e)
           case Ok(name) =>
             match Field(j.fields, "content")
             case Err(e) => Err(e)
             case Ok(content) =>
               match DeserializeJsonString(content, parse)
               case Err(e) => Err(e)
               case Ok(output) => Ok(Message.Function(name, output)))
        else if tag.Str? then Err(UnknownVariant(tag.s))
        else Err(InvalidType("a string"))
  }

  lemma OptionalCallRoundTrip(call: Option<FunctionCallResponse>)
    ensures DecodeOptionalCall(Some(if call.Some? then EncodeFunctionCallResponse(call.value) else Null)) == Ok(call)
  {
  }

  lemma SystemRoundTrip(content: string, render: Json -> string, parse: string -> Result<Json, DeError>)
    ensures DecodeMessage(EncodeMessage(System(content), render), parse) == Ok(System(content))
  {
    var fields := EncodeMessage(System(content), render).fields;
    assert Get(fields, "content") == Some(Str(content));
  }

  lemma UserRoundTrip(content: string, render: Json -> string, parse: string -> Result<Json, DeError>)
    ensures DecodeMessage(EncodeMessage(User(content), render), parse) == Ok(User(content))
  {
    var fields := EncodeMessage(User(content), render).fields;
    assert Get(fields, "content") == Some(Str(content));
  }

  lemma AssistantRoundTrip(content: string, call: Option<FunctionCallResponse>, render: Json -> string, parse: string -> Result<Json, DeError>)
    ensures DecodeMessage(EncodeMessage(Assistant(content, call), render), parse) == Ok(Assistant(content, call))
  {
    var fields := EncodeMessage(Assistant(content, call), render).fields;
    assert Get(fields, "role") == Some(Str("assistant"));
    assert Str("assistant") != Str("system") && Str("assistant") != Str("user");
    assert Get(fields, "content") == Some(Str(content));
    assert fields[1..][1..] == [fields[2]];
    assert Get(fields, "function_call") == Some(fields[2].1);
    OptionalCallRoundTrip(call);
  }

  /**
   * A function message survives when its output's text needs no escape on
   * the wire (with serde_json: `null`, booleans, numbers and arrays of
   * those) and the parser reads that text back.
   */
  lemma FunctionRoundTrip(name: FunctionName, output: Json, render: Json -> string, parse: string -> Result<Json, DeError>)
    requires !HasEscape(render(output))
    requires parse(render(output)) == Ok(output)
    ensures DecodeMessage(EncodeMessage(Message.Function(name, output), render), parse) == Ok(Message.Function(name, output))
  {
    var fields := EncodeMessage(Message.Function(name, output), render).fields;
    assert Get(fields, "role") == Some(Str("function"));
    assert Str("function") != Str("system") && Str("function") != Str("user") && Str("function") != Str("assistant");
    assert Get(fields, "name") == Some(Str(name.name));
    assert DecodeFunctionNameFields(fields) == Ok(name);
    assert fields[1..][1..] == [fields[2]];
    assert Get(fields, "content") == Some(fields[2].1);
    JsonStringRoundTrip(output, render, parse);
    assert DeserializeJsonString(fields[2].1, parse) == Ok(output);
  }

  /**
   * The source cannot read back a function message whose output is a
   * non-empty object: serde_json renders it beginning with `{"`, the quote
   * is escaped on the wire, and the borrowed-string read then fails.
   */
  lemma ObjectOutputRejected(name: FunctionName, fields: seq<(string, Json)>, render: Json -> string, parse: string -> Result<Json, DeError>)
    requires |fields| > 0
    requires |render(Obj(fields))| >= 2 && render(Obj(fields))[..2] == "{\""
    ensures DecodeMessage(EncodeMessage(Message.Function(name, Obj(fields)), render), parse) == Err(InvalidType(BORROWED_STRING))
  {
    var text := render(Obj(fields));
    assert MustEscape(text[1]);
    var msg := EncodeMessage(Message.Function(name, Obj(fields)), render).fields;
    assert Get(msg, "name") == Some(Str(name.name));
    assert msg[1..][1..] == [msg[2]];
    assert Get(msg, "content") == Some(Str(text));
  }

  /**
   * Every message survives encoding then decoding, given (for a function
   * message) that the rendered output needs no escape and the JSON parser
   * reads it back.
   */
  lemma MessageRoundTrip(m: Message, render: Json -> string, parse: string -> Result<Json, DeError>)
    requires m.Function? ==> !HasEscape(render(m.output)) && parse(render(m.output)) == Ok(m.output)
    ensures DecodeMessage(EncodeMessage(m, render), parse) == Ok(m)
  {
    match m
    case System(content) => SystemRoundTrip(content, render, parse);
    case User(content) => UserRoundTrip(content, render, parse);
    case Assistant(content, call) => AssistantRoundTrip(content, call, render, parse);
    case Function(name, output) => FunctionRoundTrip(name, output, render, parse);
  }

  /** `GenerationConfig`: the sampling options, all optional, and the streaming flag. */
  datatype GenerationConfig = GenerationConfig(
    temperature: Option<F32>,
    topP: Option<F32>,
    stream: bool,
    maxTokens: Option<usize>,
    repetitionPenalty: Option<F32>)

  /** `GenerationConfig::default()`: no option set, not streaming. */
  function DefaultConfig(): (c: GenerationConfig)
    ensures c.temperature.None? && c.topP.None? && c.maxTokens.None? && c.repetitionPenalty.None?
    ensures !c.stream
  {
    GenerationConfig(None, None, false, None, None)
  }

  /** A field written only when the option is set (`skip_serializing_if = "Option::is_none"`). */
  function OptionalField(key: string, v: Option<Json>): (fields: seq<(string, Json)>)
    ensures v.None? ==> fields == []
    ensures v.Some? ==> fields == [(key, v.value)]
  {
    if v.Some? then [(key, v.value)] else []
  }

  function FloatOption(o: Option<F32>): (r: Option<Json>)
    ensures r.Some? <==> o.Some?
    ensures o.Some? ==> r.value == Float(o.value)
  {
    if o.Some? then Some(Float(o.value)) else None
  }

  /** The config's fields in declaration order; the options that are `None` are left out. */
  function ConfigFields(c: GenerationConfig): (fields: seq<(string, Json)>)
    ensures forall i :: 0 <= i < |fields| ==> IsConfigKey(fields[i].0)
    ensures DistinctKeys(fields)
  {
    OptionalField("temperature", FloatOption(c.temperature))
    + OptionalField("top_p", FloatOption(c.topP))
    + [("stream", Bool(c.stream))]
    + OptionalField("max_tokens", if c.maxTokens.Some? then Some(UInt(c.maxTokens.value)) else None)
    + OptionalField("repetition_penalty", FloatOption(c.repetitionPenalty))
  }

  /** The keys the config may write. */
  predicate IsConfigKey(k: string)
  {
    k == "temperature" || k == "top_p" || k == "stream" || k == "max_tokens" || k == "repetition_penalty"
  }

  /** The JSON value the config writes under key `k`, if any. */
  function ConfigValue(c: GenerationConfig, k: string): Option<Json>
  {
    if k == "temperature" then FloatOption(c.temperature)
    else if k == "top_p" then FloatOption(c.topP)
    else if k == "stream" then Some(Bool(c.stream))
    else if k == "max_tokens" then (if c.maxTokens.Some? then Some(UInt(c.maxTokens.value)) else None)
    else if k == "repetition_penalty" then FloatOption(c.repetitionPenalty)
    else None
  }

  lemma GetOptionalField(key: string, v: Option<Json>, k: string)
    ensures Get(OptionalField(key, v), k) == if k == key then v else None
  {
  }

  /**
   * What the config fields hold: each option exactly when it is set,
   * always `stream`, and nothing under any other key.
   */
  lemma ConfigFieldsContent(c: GenerationConfig, k: string)
    ensures Get(ConfigFields(c), k) == ConfigValue(c, k)
  {
    var t := OptionalField("temperature", FloatOption(c.temperature));
    var p := OptionalField("top_p", FloatOption(c.topP));
    var s: seq<(string, Json)> := [("stream", Bool(c.stream))];
    var m := OptionalField("max_tokens", if c.maxTokens.Some? then Some(UInt(c.maxTokens.value)) else None);
    var r := OptionalField("repetition_penalty", FloatOption(c.repetitionPenalty));
    GetOptionalField("temperature", FloatOption(c.temperature), k);
    GetOptionalField("top_p", FloatOption(c.topP), k);
    GetOptionalField("max_tokens", if c.maxTokens.Some? then Some(UInt(c.maxTokens.value)) else None, k);
    GetOptionalField("repetition_penalty", FloatOption(c.repetitionPenalty), k);
    GetConcat(t, p, k);
    GetConcat(t + p, s, k);
    GetConcat(t + p + s, m, k);
    GetConcat(t + p + s + m, r, k);
  }

  /**
   * The `f32` a JSON number stands for: serde's `f32` visitor takes a float
   * as it is and converts an integer (`visit_u64`, `visit_i64`) with `as f32`,
   * which is the `intToF32` parameter.
   */
  predicate FloatFrom(j: Json, intToF32: int -> F32, x: F32)
  {
    j == Float(x)
    || (j.UInt? && x == intToF32(j.n))
    || (j.NegInt? && x == intToF32(j.i))
  }

  /**
   * An optional `f32` field: absent or `null` is `None`, any JSON number is
   * `Some` of the `f32` it stands for, and anything else is refused.
   */
  function DecodeOptionalFloat(v: Option<Json>, intToF32: int -> F32): (r: Result<Option<F32>, DeError>)
    ensures (v.None? || v.value == Null) ==> r == Ok(None)
    ensures r.Ok? <==> v.None? || v.value.Null? || v.value.Float? || v.value.UInt? || v.value.NegInt?
    ensures r.Ok? && r.value.Some? ==> v.Some? && FloatFrom(v.value, intToF32, r.value.value)
    ensures r.Err? ==> r == Err(InvalidType("f32"))
  {
    if v.None? || v.value == Null then Ok(None)
    else if v.value.Float? then Ok(Some(v.value.f))
    else if v.value.UInt? then Ok(Some(intToF32(v.value.n)))
    else if v.value.NegInt? then Ok(Some(intToF32(v.value.i)))
    else Err(InvalidType("f32"))
  }

  /** The `stream` flag: absent is `false` (`#[serde(default)]`), otherwise a boolean. */
  function DecodeStream(v: Option<Json>): (r: Result<bool, DeError>)
    ensures v.None? ==> r == Ok(false)
    ensures v.Some? ==> (r.Ok? <==> v.value.Bool?)
    ensures v.Some? && r.Ok? ==> v.value == Bool(r.value)
  {
    if v.None? then Ok(false)
    else if v.value.Bool? then Ok(v.value.b)
    else Err(InvalidType("a boolean"))
  }

  /** The optional `usize` of `max_tokens`: absent or `null` is `None`. */
  function DecodeOptionalUsize(v: Option<Json>): (r: Result<Option<usize>, DeError>)
    ensures (v.None? || v.value == Null) ==> r == Ok(None)
    ensures r.Ok? && r.value.Some? ==> v == Some(UInt(r.value.value))
  {
    if v.None? || v.value == Null then Ok(None)
    else if v.value.UInt? && v.value.n <= USIZE_MAX then Ok(Some(v.value.n))
    else Err(InvalidType("usize"))
  }

  /**
   * The config deserialized from an object's fields: each option absent
   * or `null` is `None`, and an absent `stream` is `false`.
   */
  function DecodeConfig(fields: seq<(string, Json)>, intToF32: int -> F32): (r: Result<GenerationConfig, DeError>)
    ensures r.Ok? && Get(fields, "stream").None? ==> !r.value.stream
    ensures r.Ok? && Get(fields, "stream").Some? ==> Get(fields, "stream") == Some(Bool(r.value.stream))
    ensures r.Ok? && r.value.temperature.Some? ==>
      Get(fields, "temperature").Some? && FloatFrom(Get(fields, "temperature").value, intToF32, r.value.temperature.value)
    ensures r.Ok? && r.value.maxTokens.Some? ==> Get(fields, "max_tokens") == Some(UInt(r.value.maxTokens.value))
    ensures r.Ok? && (Get(fields, "max_tokens").None? || Get(fields, "max_tokens") == Some(Null)) ==> r.value.maxTokens.None?
  {
    match DecodeOptionalFloat(Get(fields, "temperature"), intToF32)
    case Err(e) => Err(e)
    case Ok(temperature) =>
      match DecodeOptionalFloat(Get(fields, "top_p"), intToF32)
      case Err(e) => Err(e)
      case Ok(topP) =>
        match DecodeStream(Get(fields, "stream"))
        case Err(e) => Err(e)
        case Ok(stream) =>
          match DecodeOptionalUsize(Get(fields, "max_tokens"))
          case Err(e) => Err(e)
          case Ok(maxTokens) =>
            match DecodeOptionalFloat(Get(fields, "repetition_penalty"), intToF32)
            case Err(e) => Err(e)
            case Ok(penalty) => Ok(GenerationConfig(temperature, topP, stream, maxTokens, penalty))
  }

  /** Every config survives encoding then decoding. */
  lemma ConfigRoundTrip(c: GenerationConfig, intToF32: int -> F32)
    ensures DecodeConfig(ConfigFields(c), intToF32) == Ok(c)
  {
    forall k
      ensures Get(ConfigFields(c), k) == ConfigValue(c, k)
    {
      ConfigFieldsContent(c, k);
    }
    DecodeConfigOf(ConfigFields(c), c, intToF32);
  }

  /** Fields that hold exactly what `c` writes decode to `c`. */
  lemma DecodeConfigOf(fields: seq<(string, Json)>, c: GenerationConfig, intToF32: int -> F32)
    requires forall k :: Get(fields, k) == ConfigValue(c, k)
    ensures DecodeConfig(fields, intToF32) == Ok(c)
  {
    var temperature := Get(fields, "temperature");
    var topP := Get(fields, "top_p");
    var stream := Get(fields, "stream");
    var maxTokens := Get(fields, "max_tokens");
    var penalty := Get(fields, "repetition_penalty");
    assert temperature == FloatOption(c.temperature) by { assert temperature == ConfigValue(c, "temperature"); }
    assert topP == FloatOption(c.topP) by { assert topP == ConfigValue(c, "top_p"); }
    assert stream == Some(Bool(c.stream)) by { assert stream == ConfigValue(c, "stream"); }
    assert maxTokens == (if c.maxTokens.Some? then Some(UInt(c.maxTokens.value)) else None) by {
      assert maxTokens == ConfigValue(c, "max_tokens");
    }
    assert penalty == FloatOption(c.repetitionPenalty) by { assert penalty == ConfigValue(c, "repetition_penalty"); }
    assert DecodeOptionalFloat(temperature, intToF32) == Ok(c.temperature);
    assert DecodeOptionalFloat(topP, intToF32) == Ok(c.topP);
    assert DecodeStream(stream) == Ok(c.stream);
    assert DecodeOptionalUsize(maxTokens) == Ok(c.maxTokens);
    assert DecodeOptionalFloat(penalty, intToF32) == Ok(c.repetitionPenalty);
  }

  /**
   * A config whose float options are written as JSON integers still
   * decodes: `{"temperature": n}` gives the `f32` that `n as f32` is.
   */
  lemma IntegerTemperatureAccepted(n: nat, intToF32: int -> F32)
    ensures DecodeConfig([("temperature", UInt(n))], intToF32)
            == Ok(GenerationConfig(Some(intToF32(n)), None, false, None, None))
  {
    var fields := [("temperature", UInt(n))];
    assert Get(fields, "temperature") == Some(UInt(n));
    assert Get(fields, "top_p").None? && Get(fields, "stream").None?;
    assert Get(fields, "max_tokens").None? && Get(fields, "repetition_penalty").None?;
  }

  /** `FunctionCall`: Rust's `FunctionCall::None` (no function calls) is `Off` here. */
  datatype FunctionCall = Off | Auto | Manual(name: FunctionName)

  /** `#[default]`: the model calls no function. */
  function DefaultFunctionCall(): (fc: FunctionCall)
    ensures EncodeFunctionCall(fc) == Str("none")
  {
    Off
  }

  /** `"none"`, `"auto"`, or, untagged, the function name struct. */
  function EncodeFunctionCall(fc: FunctionCall): (j: Json)
    ensures fc.Off? <==> j == Str("none")
    ensures fc.Auto? <==> j == Str("auto")
    ensures fc.Manual? <==> j.Obj?
    ensures fc.Manual? ==> j == EncodeFunctionName(fc.name)
  {
    match fc
    case Off => Str("none")
    case Auto => Str("auto")
    case Manual(name) => EncodeFunctionName(name)
  }

  /**
   * Decoding tries the tagged variants first (`"none"`, `"auto"`, or a
   * one-field object mapping either to `null`), then a function name.
   */
  function DecodeFunctionCall(j: Json): (r: Result<FunctionCall, DeError>)
    ensures j == Str("none") ==> r == Ok(Off)
    ensures j == Str("auto") ==> r == Ok(Auto)
    ensures r.Ok? && r.value.Manual? ==> j.Obj? && DecodeFunctionNameFields(j.fields) == Ok(r.value.name)
  {
    match j
    case Str(s) =>
      if s == "none" then Ok(Off)
      else if s == "auto" then Ok(Auto)
      else Err(NoMatchingVariant("FunctionCall"))
    case Obj(fields) =>
      if |fields| == 1 && fields[0] == ("none", Null) then Ok(Off)
      else if |fields| == 1 && fields[0] == ("auto", Null) then Ok(Auto)
      else
        (match DecodeFunctionNameFields(fields)
         case Ok(name) => Ok(Manual(name))
         case Err(_) => Err(NoMatchingVariant("FunctionCall")))
    case _ => Err(NoMatchingVariant("FunctionCall"))
  }

  /** Every calling mode survives encoding then decoding, a function named "none" included. */
  lemma FunctionCallRoundTrip(fc: FunctionCall)
    ensures DecodeFunctionCall(EncodeFunctionCall(fc)) == Ok(fc)
  {
    if fc.Manual? {
      assert EncodeFunctionCall(fc).fields[0].0 == "name";
    }
  }

  /** `Function`, untagged: a user function described in full, or a built-in by name. */
  datatype Function = UserDefined(user: UserFunction) | BuiltIn(name: FunctionName)

  function EncodeUserFunction(f: UserFunction): (j: Json)
    ensures j.Obj? && Get(j.fields, "name") == Some(Str(f.name))
  {
    Obj([("name", Str(f.name)),
         ("description", if f.description.Some? then Str(f.description.value) else Null),
         ("parameters", f.parameters),
         ("few_shot_examples", Arr(f.fewShotExamples)),
         ("return_parameters", f.returnParameters)])
  }

  function EncodeFunction(f: Function): (j: Json)
    ensures j.Obj?
  {
    match f
    case UserDefined(u) => EncodeUserFunction(u)
    case BuiltIn(name) => EncodeFunctionName(name)
  }

  /** `GenerationRequest`: what the completion endpoint receives. */
  datatype GenerationRequest = GenerationRequest(
    model: Model,
    messages: seq<Message>,
    functionCall: FunctionCall,
    functions: seq<Function>,
    config: GenerationConfig)

  function EncodeMessages(ms: seq<Message>, render: Json -> string): (j: Json)
    ensures j.Arr? && |j.items| == |ms|
    ensures forall i :: 0 <= i < |ms| ==> j.items[i] == EncodeMessage(ms[i], render)
  {
    Arr(seq(|ms|, i requires 0 <= i < |ms| => EncodeMessage(ms[i], render)))
  }

  function EncodeFunctions(fs: seq<Function>): (j: Json)
    ensures j.Arr? && |j.items| == |fs|
    ensures forall i :: 0 <= i < |fs| ==> j.items[i] == EncodeFunction(fs[i])
  {
    Arr(seq(|fs|, i requires 0 <= i < |fs| => EncodeFunction(fs[i])))
  }

  /** The request's own fields, before the flattened config; `functions` only when there are some. */
  function RequestHead(req: GenerationRequest, render: Json -> string): seq<(string, Json)>
  {
    [("model", EncodeModel(req.model))]
    + [("messages", EncodeMessages(req.messages, render))]
    + [("function_call", EncodeFunctionCall(req.functionCall))]
    + OptionalField("functions", if |req.functions| == 0 then None else Some(EncodeFunctions(req.functions)))
  }

  /** The JSON value a serialized request holds under key `k`, if any. */
  function RequestValue(req: GenerationRequest, render: Json -> string, k: string): Option<Json>
  {
    if k == "model" then Some(EncodeModel(req.model))
    else if k == "messages" then Some(EncodeMessages(req.messages, render))
    else if k == "function_call" then Some(EncodeFunctionCall(req.functionCall))
    else if k == "functions" then (if |req.functions| == 0 then None else Some(EncodeFunctions(req.functions)))
    else ConfigValue(req.config, k)
  }

  /** Where each key of a serialized request comes from. */
  lemma RequestFieldsContent(req: GenerationRequest, render: Json -> string, k: string)
    ensures Get(RequestHead(req, render) + ConfigFields(req.config), k) == RequestValue(req, render, k)
  {
    var a: seq<(string, Json)> := [("model", EncodeModel(req.model))];
    var b: seq<(string, Json)> := [("messages", EncodeMessages(req.messages, render))];
    var c: seq<(string, Json)> := [("function_call", EncodeFunctionCall(req.functionCall))];
    var fv := if |req.functions| == 0 then None else Some(EncodeFunctions(req.functions));
    var f := OptionalField("functions", fv);
    GetOptionalField("functions", fv, k);
    GetConcat(a, b, k);
    GetConcat(a + b, c, k);
    GetConcat(a + b + c, f, k);
    GetConcat(a + b + c + f, ConfigFields(req.config), k);
    ConfigFieldsContent(req.config, k);
  }

  /** The keys of a serialized request, gathered for `EncodeRequest`. */
  lemma RequestFields(req: GenerationRequest, render: Json -> string)
    ensures var fields := RequestHead(req, render) + ConfigFields(req.config);
      && Get(fields, "model") == Some(EncodeModel(req.model))
      && Get(fields, "messages") == Some(EncodeMessages(req.messages, render))
      && Get(fields, "function_call") == Some(EncodeFunctionCall(req.functionCall))
      && (Get(fields, "functions").None? <==> |req.functions| == 0)
      && (|req.functions| > 0 ==> Get(fields, "functions") == Some(EncodeFunctions(req.functions)))
      && (forall k :: IsConfigKey(k) ==> Get(fields, k) == ConfigValue(req.config, k))
  {
    RequestFieldsContent(req, render, "model");
    RequestFieldsContent(req, render, "messages");
    RequestFieldsContent(req, render, "function_call");
    RequestFieldsContent(req, render, "functions");
    forall k | IsConfigKey(k)
      ensures Get(RequestHead(req, render) + ConfigFields(req.config), k) == ConfigValue(req.config, k)
    {
      RequestFieldsContent(req, render, k);
    }
  }

  /**
   * The request as serialized: model, messages and calling mode; the
   * functions only when there are some; then the config's fields inline,
   * each option only when it is set.
   */
  function EncodeRequest(req: GenerationRequest, render: Json -> string): (j: Json)
    ensures j.Obj?
    ensures Get(j.fields, "model") == Some(EncodeModel(req.model))
    ensures Get(j.fields, "messages") == Some(EncodeMessages(req.messages, render))
    ensures Get(j.fields, "function_call") == Some(EncodeFunctionCall(req.functionCall))
    ensures Get(j.fields, "functions").None? <==> |req.functions| == 0
    ensures |req.functions| > 0 ==> Get(j.fields, "functions") == Some(EncodeFunctions(req.functions))
    ensures forall k :: IsConfigKey(k) ==> Get(j.fields, k) == ConfigValue(req.config, k)
  {
    RequestFields(req, render);
    Obj(RequestHead(req, render) + ConfigFields(req.config))
  }

  /** `FinishReason`, named in `snake_case` on the wire. */
  datatype FinishReason = Stop | Length | ContentFilter | FunctionCall | Blacklist | Error

  /** `Choice`: one alternative of a completion. */
  datatype Choice = Choice(index: usize, message: Message, finishReason: FinishReason)

  /** `Usage`: the four `u32` token counts. */
  datatype Usage = Usage(promptTokens: nat, completionTokens: nat, precachedPromptTokens: nat, totalTokens: nat)

  /** `GenerationResponse`; `created` is the Unix timestamp in seconds. */
  datatype GenerationResponse = GenerationResponse(choices: seq<Choice>, created: int, model: Model, usage: Usage)

  /**
   * `GenerationResponse::text`: the text of the first choice when that
   * message has text content, and "" when there is no choice or the first
   * one is a function result; later choices are never looked at.
   */
  function Text(response: GenerationResponse): (t: string)
    ensures |response.choices| == 0 ==> t == ""
    ensures |response.choices| > 0 && response.choices[0].message.Function? ==> t == ""
    ensures |response.choices| > 0 && !response.choices[0].message.Function? ==>
      t == response.choices[0].message.content
  {
    if |response.choices| == 0 then ""
    else
      match response.choices[0].message
      case System(content) => content
      case User(content) => content
      case Assistant(content, _) => content
      case Function(_, _) => ""
  }

  /** Appending more choices never changes the text of a response that has one. */
  lemma TextIgnoresLaterChoices(response: GenerationResponse, more: seq<Choice>)
    requires |response.choices| > 0
    ensures Text(response.(choices := response.choices + more)) == Text(response)
  {
    assert (response.choices + more)[0] == response.choices[0];
  }

  /** `MessageStreamPart`, untagged: a whole message header, or a content delta. */
  datatype MessageStreamPart = Header(message: Message) | Delta(content: string)

  datatype ChoiceStreamPart = ChoiceStreamPart(delta: MessageStreamPart, index: usize)

  /** `GenerationResponseStream`: one streamed chunk of a completion. */
  datatype GenerationResponseStream = GenerationResponseStream(model: Model, created: int, choices: seq<ChoiceStreamPart>)
}
