# gigachat-rust, modelled in Dafny

A model of the decision logic of the `gigachat-rust` SDK, a Rust HTTP client for the GigaChat API.

The SDK's network calls rest on small deterministic procedures. This project models each of them, with proofs about what they do:

- the bearer-token cache;
- the request pipeline and how its errors are classified;
- the `[DONE]`-terminated streaming decoder;
- batch submission and polling;
- the builders of every endpoint;
- the serde codecs that are written by hand or configured by attribute.

Everything the SDK hands to another library is a parameter of the model:

- sending a request (`transport: Request<P> -> Sent`);
- reading a response body as JSON (`decode`);
- `Url::join` (`join`);
- Server-Sent-Events framing (`frame`);
- JSON text rendering and parsing (`render`, `parse`);
- the clock (`now`, integer milliseconds);
- the random `RqUID` (`requestId`).

A call that can panic (`unwrap()`, `todo!()`) returns `Outcome<T>`, which is either `Returned(value)` or `Panicked(message)`.

Code that updates state in place is modelled imperatively:

- the token cache is the class `SberTokenSource` with a mutable `state`;
- `BatchBuilder` and `FunctionBuilder` are classes whose methods append to a `seq` field;
- `build_url` is a loop that appends query pairs;
- the JSONL upload is a loop that fills a byte buffer.

Each of those methods is proved against a function that specifies it (`UrlFor`, `Jsonl`) or states its new state outright.

Everything else is pure, and is written as datatypes, functions and lemmas. That covers the consumed-`self` builders, the combinator chain of `execute_streaming`, and the codecs.

Modules, one per source file plus shared ones:

| module | file | source |
|---|---|---|
| `Wrappers`, `Json`, `Http` | wrappers.dfy, json.dfy, http.dfy | Rust's `Option`/`Result`, a JSON value, the abstract HTTP exchange |
| `RenameRules` | rename.dfy | serde's `snake_case` and `SCREAMING_SNAKE_CASE` renaming |
| `Client` | client.dfy | src/client/mod.rs, src/client/error.rs |
| `ClientBuilders` | client_builder.dfy | `GigaChatClientBuilder` in src/client/mod.rs |
| `Credentials` | credentials.dfy | src/client/credentials_provider.rs |
| `Serialization` | serialization.dfy | src/serialization.rs |
| `GenerationModel` | generation_model.dfy | src/generation/mod.rs |
| `GenerationStructures` | generation_structures.dfy | src/generation/structures.rs |
| `GenerationBuilders` | generation_builder.dfy | src/generation/builder.rs |
| `FunctionStructures` | function_structures.dfy | src/function/structures.rs |
| `FunctionBuilders` | function_builder.dfy | src/function/mod.rs |
| `BatchStructures` | batch_structures.dfy | src/batch/structures.rs |
| `BatchHandlers` | batch_handler.dfy | src/batch/handler.rs |
| `BatchBuilders` | batch_builder.dfy | src/batch/builder.rs, src/batch/mod.rs, src/batch/error.rs |
| `Checks` | check.dfy | src/check/mod.rs, src/check/structures.rs |
| `CheckBuilders` | check_builder.dfy | src/check/builder.rs, src/check/error.rs |
| `EmbeddingsApi` | embeddings.dfy | src/embeddings/mod.rs, src/embeddings/structures.rs |

`usize` is 64 bits wide (`USIZE_MAX = 2^64 - 1`).

## Model

| member | source | states |
|---|---|---|
| RenameRules.SnakeCase | src/batch/structures.rs:49 | serde's `snake_case` rule: every letter lower-cased, with `_` before each upper-case letter after the first character. This is a definition; its properties are the lemmas below. |
| RenameRules.SnakeCaseHasNoUpper | src/batch/structures.rs:49 | A `snake_case` name holds no upper-case letter. |
| RenameRules.ScreamingSnakeCase | src/client/credentials_provider.rs:16 | serde's `SCREAMING_SNAKE_CASE` rule: the `snake_case` name upper-cased. This is a definition; its properties are stated by `ScreamingSnakeCaseIsUpper`. |
| RenameRules.ScreamingSnakeCaseIsUpper | src/client/credentials_provider.rs:16 | A `SCREAMING_SNAKE_CASE` name is the `snake_case` name upper-cased letter by letter. It has the same length and no lower-case letter. |
| Client.CheckResponse | src/client/mod.rs:178-190 | The response passes unchanged exactly when the status is 2xx. Any other status is `BadResponse` with that status and the body text, or `""` when the body cannot be read. |
| Client.PerformRequest | src/client/mod.rs:158-175 | The request is sent exactly once, as the first stage. A send failure is `SendRequest` and nothing runs after it. The status check runs on every received response. The decoder runs exactly when the status is 2xx. Its error becomes `ParseResponse` and its value is returned unchanged. |
| Client.UrlFor | src/client/mod.rs:137-154 | The join fails exactly when `Url::join` fails, and the error carries the base URL and the path verbatim. Without queries the joined URL is returned as is. With queries, the joined URL's query is followed by the given pairs in order. |
| Client.BuildUrl | src/client/mod.rs:132-155 | The loop that appends the query pairs one at a time computes exactly `UrlFor`. |
| Client.SendChecked | src/generation/builder.rs:59-62 | The send-then-`check_response` chain with `?`: a transport failure is kept as `Transport`, a non-2xx status as `Failed(BadResponse(status, body or ""))`, and a 2xx response is passed on. |
| ClientBuilders.NewClientBuilder | src/client/mod.rs:53-68 | A new builder keeps the given secret and uses the default scope (sent as `GIGACHAT_API_PERS`), the default auth URL and the default API base. |
| ClientBuilders.Build | src/client/mod.rs:78-96 | A failing HTTP client builder is `BuildHttpClient`. Otherwise building fails exactly when the first token exchange fails. On success the token source holds the builder's auth URL, scope and secret, and the client keeps the builder's base URL. |
| ClientBuilders.DefaultBuildRequest | src/client/mod.rs:61-66 | A client built with the defaults asks the default auth endpoint for a personal-scope token, with the secret as bearer credentials. |
| Credentials.DefaultScope | src/client/credentials_provider.rs:17-19 | The default scope is the personal one, sent as `GIGACHAT_API_PERS`. |
| Credentials.ScopeWireNamePers | src/client/credentials_provider.rs:16-18 | serde's `SCREAMING_SNAKE_CASE` of the identifier `GigachatApiPers` is `GIGACHAT_API_PERS`. |
| Credentials.ScopeWireNameCorp | src/client/credentials_provider.rs:16-21 | serde's `SCREAMING_SNAKE_CASE` of the identifier `GigachatApiCorp` is `GIGACHAT_API_CORP`. |
| Credentials.ScopeWireNameB2B | src/client/credentials_provider.rs:16-20 | serde's `SCREAMING_SNAKE_CASE` of the identifier `GigachatApiB2B` is `GIGACHAT_API_B2_B`, because serde puts `_` before each upper-case letter after the first. |
| Credentials.ScopeWireNameAsWritten | src/client/credentials_provider.rs:15-22 | The scope name the source sends, which is serde's renaming of the variant: `GIGACHAT_API_PERS`, `GIGACHAT_API_B2_B` and `GIGACHAT_API_CORP`. |
| Credentials.ScopeWireNameB2BMismatch | src/client/credentials_provider.rs:15-22 | As written: the name sent for the B2B scope is not the accepted `GIGACHAT_API_B2B`, and the corrected decoding does not recognise it (see Findings). |
| Credentials.ScopeWireNameAgrees | src/client/credentials_provider.rs:15-22 | Corrected naming (`ScopeWireName`): it agrees with serde's renaming exactly for the scopes other than B2B. |
| Credentials.ScopeFromWireName | src/client/credentials_provider.rs:15-22 | Corrected naming: a decoded name is the corrected name of the scope it decodes to. |
| Credentials.ScopeWireNameRoundTrip | src/client/credentials_provider.rs:15-22 | Corrected naming: every scope survives encoding to its accepted name and decoding back. |
| Credentials.AuthRequest | src/client/credentials_provider.rs:72-81 | The exchange is a POST to the auth URL with `Authorization: Bearer <secret>` and the `RqUID` header. The only form field is `scope`, holding serde's renaming of the scope. |
| Credentials.AuthRequestScope | src/client/credentials_provider.rs:72-81 | For the personal and corporate scopes the form carries the accepted name. For B2B it carries `GIGACHAT_API_B2_B`, which differs from the accepted name. |
| Credentials.GenerateNewState | src/client/credentials_provider.rs:70-96 | A send failure is `TokenGenerationFailed`. A non-2xx status is `AuthenticationFailed`, with the status and body dropped. A body that does not decode is `TokenResponseParseFailed`. On success the token is the decoded one with `Bearer ` put in front once, and the expiry is kept. |
| Credentials.SberTokenSource.Seed | src/client/credentials_provider.rs:54-63 | The placeholder state is an empty token that expires at the construction instant, and the secret, URL and scope are kept as given. |
| Credentials.SberTokenSource.New | src/client/credentials_provider.rs:48-68 | Construction fails with the error of the first exchange when it fails. Otherwise the new source holds the generated state, which is a `Bearer ` token, and its secret, URL and scope are as given. |
| Credentials.SberTokenSource.Token | src/client/credentials_provider.rs:101-111 | While `expiresAt > now` the cached token is returned unchanged and nothing is sent. Otherwise, including `expiresAt == now`, one exchange is made. A successful exchange replaces the whole state and returns the new token. A failed one returns the error and leaves the state as it was. Only `state` is written, and every returned token has the `Bearer ` prefix. |
| Credentials.CachedAfterRefresh | src/client/credentials_provider.rs:101-111 | If a refresh yields a credential valid until `t`, a later call before `t` returns the same token. |
| Serialization.SerializeUsize | src/serialization.rs:5-10 | A key is written as a JSON string of decimal digits that denotes it, with no sign and no leading zero. |
| Serialization.Decimal | src/serialization.rs:9 | `to_string` of a `usize` is a non-empty string of decimal digits, with no leading zero unless the number is 0. |
| Serialization.IntErrorMessage | src/serialization.rs:29 | The `Display` text of each `ParseIntError` kind, which `E::custom` turns into the serde error. This is a definition with no contract. |
| Serialization.ParseUsize | src/serialization.rs:25-30 | `str::parse::<usize>` fails with `Empty` exactly on the empty string and with `InvalidDigit` on a leading `-`. When it succeeds, the text was digits, with at most one leading `+`. |
| Serialization.Accumulate | src/serialization.rs:25-30 | The digit loop of `usize::from_str`. It succeeds only on a string of decimal digits, and it fails with `InvalidDigit` or `PosOverflow`, never with `Empty`. |
| Serialization.AccumulateDigits | src/serialization.rs:25-30 | A digit string parses to the number it denotes, or to `PosOverflow` when that number exceeds `usize::MAX`. |
| Serialization.DeserializeUsize | src/serialization.rs:12-41 | A string is parsed as a `usize`, and a parse error becomes a custom serde error with its message. A JSON unsigned integer is returned as is. Any other kind of value is rejected with the visitor's expectation. |
| Serialization.DecimalValue | src/serialization.rs:9 | The decimal text of `n` denotes `n`. |
| Serialization.UsizeRoundTrip | src/serialization.rs:5-30 | Every `usize` key survives serialization then deserialization. |
| Serialization.CanonicalRoundTrip | src/serialization.rs:5-30 | A canonical decimal string that deserializes is serialized back to the same string. |
| Serialization.PlusSignAccepted | src/serialization.rs:25-30 | A key written with a leading `+` is still accepted. |
| Serialization.SerializeJsonString | src/serialization.rs:60-68 | A JSON value is written as a JSON string that holds its rendered text. |
| Serialization.DeserializeJsonString | src/serialization.rs:49-57 | The value is read as a borrowed `&str`. A string whose wire text needs an escape (a quote, a backslash or a control character) and a value that is not a string are both `InvalidType("a borrowed string")`. Any other string is parsed as JSON, and the parse error is returned. |
| Serialization.JsonStringRoundTrip | src/serialization.rs:49-68 | When the rendered text needs no escape, deserializing a serialized value gives back what the JSON parser makes of that text. When it needs one, it fails with `InvalidType`. That covers every string, every non-empty object, and every array holding either. |
| Serialization.DeserializeOwnedJsonString | src/serialization.rs:49-57 | Corrected adapter (see Findings): reading an owned `String` parses every string, escaped or not, and rejects any other kind of value. |
| Serialization.OwnedJsonStringRoundTrip | src/serialization.rs:49-68 | With the corrected adapter, every value comes back as the JSON parser reads its rendering, whatever characters it holds. |
| GenerationModel.DefaultModel | src/generation/mod.rs:17-19 | The default model is the named `GigaChat-2-Max`. |
| GenerationModel.ModelName | src/generation/mod.rs:11-22 | Every named model has a reserved name, and `Custom(s)` is named `s`. |
| GenerationModel.ModelFromName | src/generation/mod.rs:11-22 | A name decodes to a model with that name. It is `Custom` exactly when the name is not reserved. |
| GenerationModel.EncodeModel | src/generation/mod.rs:8-23 | Each model is encoded as the bare string of its name. |
| GenerationModel.DecodeModel | src/generation/mod.rs:8-23 | Every string decodes, a reserved name to the named variant and any other to `Custom` of it. Only a one-field object can also decode. Anything else matches no variant. |
| GenerationModel.ModelRoundTrip | src/generation/mod.rs:11-22 | A model survives encoding and decoding exactly when it is not `Custom` of a reserved name; such a model comes back as the named variant. |
| FunctionStructures.Name | src/function/structures.rs:25-27 | `name()` is the function's name. |
| FunctionStructures.FunctionNameOf | src/function/structures.rs:29-31 | `function_name()` carries the same text as `name()`. |
| FunctionStructures.Text2Image | src/function/structures.rs:44-46 | The built-in name is `text2image`. |
| FunctionStructures.GetFileContent | src/function/structures.rs:48-50 | The built-in name is `get_file_content`. |
| FunctionStructures.Text2Model3d | src/function/structures.rs:52-54 | The built-in name is `text2model3d`. |
| FunctionStructures.EncodeFunctionName | src/function/structures.rs:34-37 | A `FunctionName` is an object with its `name` field. |
| FunctionStructures.DecodeFunctionNameFields | src/function/structures.rs:34-37 | Decoding succeeds exactly when there is a string `name` field, and yields that name. |
| FunctionStructures.FunctionNameRoundTrip | src/function/structures.rs:34-37 | Every name survives encoding then decoding. |
| FunctionStructures.EncodeDiagnostics | src/function/structures.rs:3-7 | A diagnostic is written with its `description` and `schema_location` strings. |
| FunctionStructures.DecodeDiagnostics | src/function/structures.rs:3-7 | A decoded diagnostic came from an object that holds exactly its two strings. |
| FunctionStructures.EncodeDiagnosticsList | src/function/structures.rs:61 | A list is written as an array of the diagnostics, in order. |
| FunctionStructures.DecodeDiagnosticsItems | src/function/structures.rs:61 | The items decode exactly when each one does, and the result lists them in order. |
| FunctionStructures.DecodeDiagnosticsList | src/function/structures.rs:61 | Only an array decodes, item by item. |
| FunctionStructures.DiagnosticsListRoundTrip | src/function/structures.rs:61-65 | Every list of diagnostics survives encoding then decoding. |
| FunctionStructures.EncodeCheckResult | src/function/structures.rs:57-67 | `Error` writes its `errors`. `Ok` writes its `warnings` and no `errors` key. |
| FunctionStructures.DecodeCheckResult | src/function/structures.rs:57-67 | An `errors` field that decodes gives `Error`, which is tried first. Otherwise the result is `Ok`, and a missing `warnings` becomes the empty list. Decoding fails exactly when neither shape fits. |
| FunctionStructures.CheckResultRoundTrip | src/function/structures.rs:57-67 | Both shapes survive encoding then decoding, and neither is mistaken for the other. |
| FunctionStructures.EncodeCheckResponse | src/function/structures.rs:69-76 | A response holds `status`, `message` and `json_ai_rules_version` beside the flattened result. |
| FunctionStructures.DecodeCheckResponse | src/function/structures.rs:69-76 | A decoded response came from an object with those three fields, with `status` within `u16`, and its result decodes from the same fields. |
| FunctionStructures.CheckResponseRoundTrip | src/function/structures.rs:69-76 | Every response whose status fits a `u16` survives encoding then decoding. |
| FunctionBuilders.ExampleValue | src/function/mod.rs:130 | `to_value` of an example succeeds exactly when its arguments serialize, and gives an object with the `request` text and the `params` value. |
| FunctionBuilders.ExampleValues | src/function/mod.rs:127-131 | The list is returned exactly when every example serializes, as one value per example in order. Otherwise the `unwrap` panics. |
| FunctionBuilders.FunctionBuilder.New | src/function/mod.rs:93-102 | The given name, no description and no examples. |
| FunctionBuilders.FunctionBuilder.WithDescription | src/function/mod.rs:105-108 | The description becomes `Some(d)`, and the name and examples are unchanged. |
| FunctionBuilders.FunctionBuilder.WithExample | src/function/mod.rs:111-114 | The example is appended at the end, and the name and description are unchanged. |
| FunctionBuilders.FunctionBuilder.Build | src/function/mod.rs:119-134 | The name, description and both schemas are passed through. There is one few-shot entry per example, in order. It panics exactly when some example cannot be serialized. |
| FunctionBuilders.DescribedFunction | src/function/mod.rs:93-134 | A named, described builder with one example builds to a function with that name and description and that one few-shot entry. |
| FunctionBuilders.ValidateRequest | src/function/mod.rs:146 | A POST of the function to the validation URL. |
| FunctionBuilders.CheckFunction | src/function/mod.rs:139-156 | It panics exactly when the validation URL cannot be built. A send, status or decode failure is `BadRequest` with that error. `Error{errors}` is `BadFunction` with the same errors, and `Ok{warnings}` returns the warnings verbatim. |
| GenerationStructures.SystemMessage | src/generation/structures.rs:37-41 | The content goes unchanged into a `System` message. |
| GenerationStructures.UserMessage | src/generation/structures.rs:43-47 | The content goes unchanged into a `User` message. |
| GenerationStructures.FunctionMessage | src/generation/structures.rs:49-54 | The name is kept, and the content is converted with `to_value`. It panics exactly when the conversion fails. |
| GenerationStructures.EncodeFunctionCallResponse | src/generation/structures.rs:8-13 | The name is flattened beside `arguments`. |
| GenerationStructures.EncodeMessage | src/generation/structures.rs:15-34 | Every message is an object tagged with its lower-case `role`. |
| GenerationStructures.DecodeOptionalCall | src/generation/structures.rs:24-27 | An absent or `null` `function_call` is `None`. |
| GenerationStructures.DecodeMessage | src/generation/structures.rs:15-34 | A decoded message's `role` tag is its own role, and a missing tag is `MissingField("role")`. A function message's content goes through `string_json`, so escaped text is rejected. |
| GenerationStructures.OptionalCallRoundTrip | src/generation/structures.rs:24-27 | An optional call survives encoding then decoding. |
| GenerationStructures.SystemRoundTrip | src/generation/structures.rs:18-20 | A system message survives encoding then decoding. |
| GenerationStructures.UserRoundTrip | src/generation/structures.rs:21-23 | A user message survives encoding then decoding. |
| GenerationStructures.AssistantRoundTrip | src/generation/structures.rs:24-27 | An assistant message, with or without a call, survives encoding then decoding. |
| GenerationStructures.FunctionRoundTrip | src/generation/structures.rs:28-33 | A function message survives when its output's text needs no escape on the wire (with serde_json: `null`, booleans, numbers, and arrays of those) and the parser reads that text back. |
| GenerationStructures.ObjectOutputRejected | src/generation/structures.rs:28-33 | As written: a function message whose output is a non-empty object (rendered beginning with `{"`) cannot be read back. Decoding fails with `InvalidType("a borrowed string")` (see Findings). |
| GenerationStructures.MessageRoundTrip | src/generation/structures.rs:15-34 | Every system, user and assistant message survives encoding then decoding. A function message survives under the condition of `FunctionRoundTrip`. |
| GenerationStructures.DefaultConfig | src/generation/structures.rs:57-69 | The default config sets no option and does not stream. |
| GenerationStructures.OptionalField | src/generation/structures.rs:59-68 | An option that is `None` writes no field. |
| GenerationStructures.FloatOption | src/generation/structures.rs:59-62 | A float option is written exactly when it is set. |
| GenerationStructures.ConfigFields | src/generation/structures.rs:57-69 | The serialized config uses only the five config keys, each at most once. |
| GenerationStructures.ConfigFieldsContent | src/generation/structures.rs:57-69 | Each config key holds exactly what the config writes there: the set options, and always `stream`. |
| GenerationStructures.DecodeOptionalFloat | src/generation/structures.rs:59-62 | An absent or `null` option is `None`. Any JSON number is accepted: a float as it is, an integer converted as `as f32` does. Anything else is refused with `InvalidType("f32")`. |
| GenerationStructures.DecodeStream | src/generation/structures.rs:63-64 | An absent `stream` is `false`, and a present one must be a boolean. |
| GenerationStructures.DecodeOptionalUsize | src/generation/structures.rs:65-66 | An absent or `null` `max_tokens` is `None`, and a set one came from that integer. |
| GenerationStructures.DecodeConfig | src/generation/structures.rs:57-69 | A decoded config agrees with the fields it came from, with `stream` defaulting to `false`. A set `temperature` came from a float, or from an integer through the `as f32` conversion. |
| GenerationStructures.ConfigRoundTrip | src/generation/structures.rs:57-69 | Every config survives encoding then decoding. |
| GenerationStructures.IntegerTemperatureAccepted | src/generation/structures.rs:59-60 | `{"temperature": n}` decodes to a config whose temperature is `n as f32`, with every other option unset. |
| GenerationStructures.DecodeConfigOf | src/generation/structures.rs:57-69 | Fields that hold exactly what a config writes decode to that config, whatever else the object holds. |
| GenerationStructures.DefaultFunctionCall | src/generation/structures.rs:73-75 | The default calling mode is written `"none"`. |
| GenerationStructures.EncodeFunctionCall | src/generation/structures.rs:71-79 | `None` is `"none"`, `Auto` is `"auto"`, and `Manual(name)` is, untagged, the name object. |
| GenerationStructures.DecodeFunctionCall | src/generation/structures.rs:71-79 | `"none"` and `"auto"` are the unit variants, and any `Manual` came from a name object. |
| GenerationStructures.FunctionCallRoundTrip | src/generation/structures.rs:71-79 | Every calling mode survives encoding then decoding, a function named `none` included. |
| GenerationStructures.EncodeUserFunction | src/function/structures.rs:15-22 | A user function is an object with its `name`. |
| GenerationStructures.EncodeFunction | src/generation/structures.rs:81-86 | Both kinds of function are written untagged, as objects. |
| GenerationStructures.EncodeMessages | src/generation/structures.rs:91 | The messages are written in order. |
| GenerationStructures.EncodeFunctions | src/generation/structures.rs:93-94 | The functions are written in order. |
| GenerationStructures.RequestFieldsContent | src/generation/structures.rs:88-97 | Each key of a serialized request holds the request's own field or the flattened config's. |
| GenerationStructures.RequestFields | src/generation/structures.rs:88-97 | A serialized request holds its model, messages and calling mode. `functions` is present exactly when the list is non-empty. Every config key holds what the flattened config writes. |
| GenerationStructures.EncodeRequest | src/generation/structures.rs:88-97 | A request holds `model`, `messages` and `function_call`. `functions` is present exactly when there are some. Every config key holds what the config writes. |
| GenerationStructures.Text | src/generation/structures.rs:148-160 | `text()` is the content of the first choice when it is a system, user or assistant message. It is `""` for a function message or when there are no choices. |
| GenerationStructures.TextIgnoresLaterChoices | src/generation/structures.rs:149-158 | Choices after the first never change the text. |
| GenerationBuilders.Generate | src/generation/builder.rs:97-104 | A new builder has the default model, no messages and the default config. |
| GenerationBuilders.WithMessages | src/generation/builder.rs:21-24 | The messages become `Some`, and the model and config are unchanged. |
| GenerationBuilders.WithTemperature | src/generation/builder.rs:26-29 | The temperature becomes `Some`, and every other field is unchanged. |
| GenerationBuilders.WithTopP | src/generation/builder.rs:31-34 | `top_p` becomes `Some`, and every other field is unchanged. |
| GenerationBuilders.WithMaxTokens | src/generation/builder.rs:36-39 | `max_tokens` becomes `Some`, and every other field is unchanged. |
| GenerationBuilders.WithRepetitionPenalty | src/generation/builder.rs:41-44 | `repetition_penalty` becomes `Some`, and every other field is unchanged. |
| GenerationBuilders.Build | src/generation/builder.rs:46-52 | The model and config pass through, and unset messages become the empty list. |
| GenerationBuilders.CompletionRequest | src/generation/builder.rs:59 | A POST of the built request to the joined URL. |
| GenerationBuilders.Execute | src/generation/builder.rs:54-67 | A join failure is `UrlParse`. A send or status failure is returned as the chain's error. A decode failure is `Decode`. Otherwise the decoded response is returned. |
| GenerationBuilders.StreamingRequest | src/generation/builder.rs:73-74 | `stream` is switched on, and nothing else differs from `build`. |
| GenerationBuilders.TakeWhileAdmitted | src/generation/builder.rs:82-84 | The result is the longest prefix of `Ok` events whose data is not `[DONE]`, so the event after it is not admitted. |
| GenerationBuilders.MapErr | src/generation/builder.rs:85 | `Ok` items are kept, and errors become `error parsing event: <reason>`, item by item. |
| GenerationBuilders.DecodePart | src/generation/builder.rs:86-91 | A payload is decoded as a stream chunk. A failure carries the context `unable to deserialize content part: <payload>` over the decode error. |
| GenerationBuilders.MapOk | src/generation/builder.rs:86-91 | Each `Ok` event is decoded by its data, and errors are passed on, item by item. |
| GenerationBuilders.Flatten | src/generation/builder.rs:92 | Each nested result is flattened in place. |
| GenerationBuilders.Stream | src/generation/builder.rs:79-92 | The `execute_streaming` chain: one item per event before the first event that is an error or `[DONE]`, and item `i` is the decoding of event `i`'s data. |
| GenerationBuilders.StreamStopsAt | src/generation/builder.rs:82-84 | Everything from the first non-admitted event on is dropped. |
| GenerationBuilders.TakeWhileStopsAt | src/generation/builder.rs:82-84 | `take_while` stops exactly at the first non-admitted event. |
| GenerationBuilders.TakeWhileStopsAtEnd | src/generation/builder.rs:82-84 | A stream whose events are all admitted is passed through whole. |
| GenerationBuilders.DoneEndsStream | src/generation/builder.rs:82-84 | A `[DONE]` event ends the stream, and no item is produced for it or anything after it. |
| GenerationBuilders.TransportErrorEndsStream | src/generation/builder.rs:82-85 | An error event ends the stream silently, so `map_err` never sees an error. |
| GenerationBuilders.StreamAppend | src/generation/builder.rs:79-92 | Over admitted events the stream is item-wise, so a payload that fails to decode does not stop later ones. |
| GenerationBuilders.TakeWhileAppend | src/generation/builder.rs:82-84 | An admitted prefix is kept whole, and `take_while` continues after it. |
| GenerationBuilders.ExecuteStreaming | src/generation/builder.rs:69-93 | A join failure is `UrlParse`. A send or status failure is returned. On success the body's framed events go through the chain above, with `stream` switched on. |
| BatchStructures.FromResult | src/batch/structures.rs:26-33 | `Result(r)` becomes `Ok(r)` and `Error(e)` becomes `Err(e)`. |
| BatchStructures.Res | src/batch/structures.rs:35-39 | `res()` is the `From` conversion. |
| BatchStructures.ToResponseResult | src/batch/structures.rs:19-33 | The tagged item a `Result` comes from: converting it back with `From` gives the `Result` again. |
| BatchStructures.ResBijective | src/batch/structures.rs:19-39 | `res()` has an inverse, so no information is lost. |
| BatchStructures.EncodeRequestItem | src/batch/structures.rs:6-11 | An item writes its `key` through `string_to_usize` and its serialized `request`. |
| BatchStructures.DecodeItemKey | src/batch/structures.rs:8-9 | A missing `key` is `MissingField("key")`, and a present one is read by `string_to_usize`. |
| BatchStructures.RequestItemKeyRoundTrip | src/batch/structures.rs:6-11 | Every item key survives encoding then decoding. |
| BatchStructures.DecodeResponseItem | src/batch/structures.rs:41-46 | Only an object decodes. A decoded item's key is what `string_to_usize` reads from `key`, and its response is what decodes from `response`. An item whose key fails fails too; which error is reported when several fields fail is not modelled (see Left out). |
| BatchStructures.ResponseItemKeyDecimal | src/batch/structures.rs:41-46 | A response item whose key is written in decimal decodes to that key. |
| BatchStructures.SnakeCaseCreated | src/batch/structures.rs:49-51 | `Created` is renamed `created`. |
| BatchStructures.SnakeCaseInProgress | src/batch/structures.rs:49-52 | `InProgress` is renamed `in_progress`. |
| BatchStructures.SnakeCaseCompleted | src/batch/structures.rs:49-53 | `Completed` is renamed `completed`. |
| BatchStructures.StatusName | src/batch/structures.rs:48-54 | A status's name is serde's `snake_case` of its variant name. |
| BatchStructures.StatusFromName | src/batch/structures.rs:48-54 | A name decodes only to the status of that name. |
| BatchStructures.StatusNameRoundTrip | src/batch/structures.rs:48-54 | Every status survives naming then decoding. |
| BatchStructures.SnakeCaseChatCompletions | src/batch/structures.rs:57-59 | `ChatCompletions` is renamed `chat_completions`. |
| BatchStructures.SnakeCaseEmbedder | src/batch/structures.rs:57-60 | `Embedder` is renamed `embedder`. |
| BatchStructures.MethodName | src/batch/structures.rs:56-61 | A method's name is serde's `snake_case` of its variant name. |
| BatchStructures.MethodFromName | src/batch/structures.rs:56-61 | A name decodes only to the method of that name. |
| BatchStructures.MethodNameRoundTrip | src/batch/structures.rs:56-61 | Every method survives naming then decoding. |
| BatchStructures.EncodeStatus | src/batch/structures.rs:48-54 | A status is written as its `snake_case` name. |
| BatchStructures.DecodeStatus | src/batch/structures.rs:48-54 | A known name decodes to its status, and an unknown string is `UnknownVariant`. Only the bare name or the one-field object form decodes. |
| BatchStructures.StatusJsonRoundTrip | src/batch/structures.rs:48-54 | Every status survives encoding then decoding. |
| BatchStructures.EncodeMethod | src/batch/structures.rs:56-61 | A method is written as its `snake_case` name. |
| BatchStructures.DecodeMethod | src/batch/structures.rs:56-61 | A known name decodes to its method, and an unknown string is `UnknownVariant`. Only the bare name or the one-field object form decodes. |
| BatchStructures.MethodJsonRoundTrip | src/batch/structures.rs:56-61 | Every method survives encoding then decoding. |
| BatchHandlers.New | src/batch/handler.rs:20-22 | The handler's `id()` is the id it was given. |
| BatchHandlers.StatusRequest | src/batch/handler.rs:32 | The status query is a bodiless POST with no extra headers. |
| BatchHandlers.StatusUrl | src/batch/handler.rs:29-30 | `batches`, with the single pair `batch_id=<id>` appended after any query of the join. |
| BatchHandlers.CheckRequest | src/batch/handler.rs:28-37 | A join failure is `UrlParse`, and a send or status failure is returned. A decode failure is `Decode`. Otherwise the decoded status is returned. |
| BatchHandlers.Classify | src/batch/handler.rs:41-49 | `Created` is `Pending`. `InProgress` reports `ready = completed + failed` and `total`. `Completed` panics with the `todo!()` message. `Success` is never produced. |
| BatchHandlers.Check | src/batch/handler.rs:39-50 | One query per call, with its error returned as is. It panics exactly when the query succeeds and reports a completed batch, and it never returns `Success`. |
| BatchBuilders.BatchBuilder.New | src/batch/mod.rs:11-16 | A new batch holds no requests. |
| BatchBuilders.BatchBuilder.WithRequest | src/batch/builder.rs:17-20 | One request is appended at the end, and the earlier ones are untouched. |
| BatchBuilders.BatchBuilder.WithRequests | src/batch/builder.rs:23-26 | All the given requests are appended, in order, after the existing ones. |
| BatchBuilders.Jsonl | src/batch/builder.rs:29-41 | The upload specification. It fails only with `BatchSerializationFailed`. |
| BatchBuilders.JsonlOk | src/batch/builder.rs:32-38 | The upload succeeds exactly when every request serializes. |
| BatchBuilders.JsonlFirstError | src/batch/builder.rs:32-34 | The first request that fails to serialize decides the error, and no partial buffer is returned. |
| BatchBuilders.JsonlAppendError | src/batch/builder.rs:32-34 | Once the upload has failed, more requests do not change the error. |
| BatchBuilders.JsonlSnoc | src/batch/builder.rs:32-38 | One more request adds its JSON and one newline, or fails with its own error. |
| BatchBuilders.JsonlLines | src/batch/builder.rs:30-40 | When every request's JSON is one line, the buffer splits back into exactly those lines, in order. An empty batch gives an empty buffer. |
| BatchBuilders.SerializeBatch | src/batch/builder.rs:29-41 | The loop that writes into the byte buffer, with early exit, computes exactly `Jsonl`. |
| BatchBuilders.SubmitUrl | src/batch/builder.rs:50-53 | The upload URL is `batches` with `method=chat_completions` appended. It fails exactly when the join does. |
| BatchBuilders.SubmitRequest | src/batch/builder.rs:66-68 | The upload is a POST of the bytes with `content-type: application/octet-stream`. |
| BatchBuilders.Execute | src/batch/builder.rs:49-75 | A URL failure is `BuildUrl`, before anything is serialized or sent. A serialization failure comes next. A request failure is `BadRequest`. On success the handler's id is the id of the create response. |
| BatchBuilders.SubmitAll | src/batch/builder.rs:17-75 | Submitting a list with any request that cannot be serialized fails with `BatchSerializationFailed`. |
| Checks.DefaultCheckModel | src/check/mod.rs:12-17 | The default check model is `GigaCheckDetection`. |
| Checks.CheckModelName | src/check/mod.rs:12-17 | Each check model is serialized as its own variant name, and different models get different names. |
| Checks.NewCheck | src/check/mod.rs:61-68 | `check()` starts with no model and no text. |
| Checks.WithText | src/check/mod.rs:26-29 | The text becomes `Some`, and the model is unchanged. |
| Checks.WithModel | src/check/mod.rs:31-34 | The model becomes `Some`, and the text is unchanged. |
| Checks.CheckRequestOf | src/check/mod.rs:38-41 | A missing text is an error with the context `text sould be present`. Otherwise the request carries the text and the chosen or default model. |
| Checks.DetectRequest | src/check/mod.rs:44-51 | A POST of the check request to the joined URL. |
| Checks.Execute | src/check/mod.rs:37-58 | A missing text fails before anything else. It panics exactly when the join of `ai/check` fails. A send or status failure is returned, and a decode failure carries the context `failed to parse check response`. |
| Checks.TextSetIsSent | src/check/mod.rs:37-58 | Once a text is set, the missing-text error cannot occur and the text sent is the one set. |
| CheckBuilders.WithText | src/check/builder.rs:14-17 | The text becomes `Some`, and the model is unchanged. |
| CheckBuilders.WithModel | src/check/builder.rs:19-22 | The model is replaced, and the text is unchanged. |
| CheckBuilders.Execute | src/check/builder.rs:24-42 | A missing text is `TextIsMissing`, before the URL is built or anything is sent. A URL failure is `BuildUrl`, and a request failure is `BadRequest`. The request carries the builder's text and model verbatim. `TextIsTooShort` is never produced. |
| EmbeddingsApi.AsStr | src/embeddings/mod.rs:17-25 | The named variants give their reserved names, and `Custom(s)` gives `s`. |
| EmbeddingsApi.DefaultModel | src/embeddings/mod.rs:8-15 | The default model is `EmbeddingsGigaR`. |
| EmbeddingsApi.EncodeModel | src/embeddings/mod.rs:8-15 | A model is written as the string `as_str` returns. |
| EmbeddingsApi.DecodeModel | src/embeddings/mod.rs:8-15 | Every string decodes to a model whose `as_str` is that string, and it is `Custom` exactly when the string is not reserved. Kinds other than strings and objects match no variant. |
| EmbeddingsApi.ModelRoundTrip | src/embeddings/mod.rs:8-25 | `as_str` agrees with the wire form. A model survives encoding and decoding exactly when it is not `Custom` of a reserved name. |
| EmbeddingsApi.StrItems | src/embeddings/structures.rs:10 | The texts are written as strings, in order. |
| EmbeddingsApi.EncodeInput | src/embeddings/structures.rs:6-11 | `One` is a bare string and `Many` an array of strings. |
| EmbeddingsApi.StrValues | src/embeddings/structures.rs:10 | An array reads as strings exactly when every item is a string. |
| EmbeddingsApi.DecodeInput | src/embeddings/structures.rs:6-11 | A string is `One` and an array of strings is `Many`. Anything else matches no variant. |
| EmbeddingsApi.InputRoundTrip | src/embeddings/structures.rs:6-11 | Every input survives encoding then decoding. |
| EmbeddingsApi.FailureMessage | src/embeddings/mod.rs:68-86 | Each failure's message, built from its cause. A join error passes through without a message. |
| EmbeddingsApi.RequestBody | src/embeddings/mod.rs:51-56 | The request carries the input and the given model, or the default when none is given. |
| EmbeddingsApi.Create | src/embeddings/mod.rs:46-89 | A join failure is `JoinFailed` and a send failure `NotSent`. A non-2xx status is `ApiError` with the status and body text, or `Unknown error` when the body cannot be read. On 2xx, a decode failure is `ParseFailed`; otherwise the decoded response is returned. |
| EmbeddingsApi.CreateMatchesPerformRequest | src/embeddings/mod.rs:60-86 | `create` classifies failures stage by stage as `perform_request` does. |

## Left out

- Transport: reqwest, its middleware and the authorization header middleware. Each send is an abstract `Sent` outcome.
- Client construction: root certificates, the proxy and middleware wiring. `ClientBuilders.Build` takes whether the HTTP client builds as an input. The `Certificate` and `UrlParse` client errors are declared but never produced. The `expect`s on the constant default URLs cannot fail and are not modelled.
- Concurrency: the `tokio` mutex around the token state, `Arc` sharing, `SberTokenProvider`, and `spawn_blocking` with its `expect`. The model is sequential, and mutual exclusion is not expressed.
- Server-Sent-Events framing (section 9.2 of the HTML Living Standard): the `frame` parameter turns a response into events.
- JSON text (RFC 8259): rendering, parsing and `serde_json::to_writer` are parameters. `JsonStringRoundTrip` is stated relative to the parser.
- Optional escapes on the wire (`\u0041`, `\/`) cannot be seen in a `Json` value. `DeserializeJsonString` treats a string as escaped exactly when serde_json's serializer escapes it: a quote, a backslash or a control character. A service that escapes more than that is not covered.
- The order in which a derived struct decoder reads fields is not modelled. serde reads them in document order and reports a missing field after the whole object. `DecodeResponseItem`, `DecodeCheckResponse`, `DecodeMessage` and `DecodeConfig` read them in a fixed order. Each still fails exactly when some field fails, but when several fields fail it may report a different error than serde does.
- URL joining and form encoding (the WHATWG URL Standard): `join` is a parameter, and only the order of query pairs and the error's contents are modelled.
- Schema generation with schemars: `FunctionBuilder::build` receives the two schemas as values.
- Floating point: temperatures, `top_p`, repetition penalties and embedding vectors are opaque `F32` values. The rounding of an integer to `f32` (`as f32`) is the parameter `intToF32`.
- Time: `OffsetDateTime` and `now_utc` are integer milliseconds (seconds for `created`), given as inputs.
- Tracing spans and events.
- The `Debug` rendering of the error in an `unwrap` panic message. `UNWRAP_ON_ERR` is the fixed prefix.
- BatchHandlers.Classify: `ready` is `completed + failed` as an unbounded number. The `usize` overflow of that sum, a panic in debug builds and a wrap in release builds, is not modelled.
- EmbeddingsApi.FailureMessage: how `StatusCode` and the transport and decode errors print is a parameter or a `reason` string.
- Version skew is modelled as written:
  - `GenerationBuilder::build` sets only `model`, `messages` and `config`, so `BuiltRequest` has just those fields, not the full `GenerationRequest`.
  - Both `CheckBuilder` variants are modelled (`Checks`, `CheckBuilders`), although src/check/mod.rs does not declare the `builder` module.
- The `BadResponse` variant of the batch error is declared but never produced by the source.
- serde's array form of structs, duplicate JSON keys and unknown fields are not modelled. The field lookup takes the first occurrence.
- Decoding of `GenerationRequest`, `GenerationResponse` and `EmbeddingResponse`: these are passed to the model as `decode` parameters. Only their encodings and their accessors are modelled.
- The `expect` on writing to a vector cannot fail and is not modelled.
- The demo programs under examples/ carry no logic of their own.

## Findings

| source | as written | input that shows it | evidently intended | confidence | as-written member | corrected member |
|---|---|---|---|---|---|---|
| src/client/credentials_provider.rs:16-20 | `rename_all = "SCREAMING_SNAKE_CASE"` renames `GigachatApiB2B` to `GIGACHAT_API_B2_B`, because serde puts `_` before every upper-case letter after the first | scope `GigachatApiB2B` sent in the token request form | the scope name `GIGACHAT_API_B2B` that the auth endpoint accepts | not executed | Credentials.ScopeWireNameB2BMismatch | Credentials.ScopeWireNameAgrees |
| src/serialization.rs:49-57 | `string_json::deserialize` reads a borrowed `&str`, which serde_json can lend only when the string has no escape on the wire. The rendering of any non-empty object starts with `{"`, and that quote is escaped | `Message::function(name, json!({"temp": 20}))` serialized, then deserialized | reading an owned `String`, so that function messages the SDK writes can be read back | not executed | GenerationStructures.ObjectOutputRejected | Serialization.OwnedJsonStringRoundTrip |
