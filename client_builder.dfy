/**
 * `GigaChatClientBuilder` (src/client/mod.rs): the settings a client is
 * built from, their defaults, and `build`, which mints the first token
 * before the client exists. The HTTP client, its certificates and its
 * middleware are not modelled: whether the HTTP client builds is an input.
 */
module ClientBuilders {
  import opened Wrappers
  import opened Http
  import opened Credentials

  /** The default auth endpoint. */
  const DEFAULT_AUTH_URL: Url := Url("https://ngw.devices.sberbank.ru:9443/api/v2/oauth", [])

  /** The default API base that every endpoint path is joined to. */
  const DEFAULT_GIGACHAT_BASE_URL: Url := Url("https://gigachat.devices.sberbank.ru/api/v1/", [])

  /** The settings of `GigaChatClientBuilder` apart from the HTTP client builder. */
  datatype ClientBuilder = ClientBuilder(scope: TokenScope, authUrl: Url, baseUrl: Url, token: string)

  /**
   * `GigaChatClientBuilder::new`: the secret as given, the personal scope
   * and the two default URLs.
   */
  function NewClientBuilder(token: string): (b: ClientBuilder)
    ensures b.token == token
    ensures b.scope == DefaultScope() && ScopeWireNameAsWritten(b.scope) == "GIGACHAT_API_PERS"
    ensures b.authUrl == DEFAULT_AUTH_URL && b.baseUrl == DEFAULT_GIGACHAT_BASE_URL
  {
    ClientBuilder(DefaultScope(), DEFAULT_AUTH_URL, DEFAULT_GIGACHAT_BASE_URL, token)
  }

  /** `GigaChatClient`: the token source behind its auth middleware, and the API base. */
  datatype GigaChatClient = GigaChatClient(tokens: SberTokenSource, baseUrl: Url)

  /**
   * `GigaChatClientBuilder::build`: a failing HTTP client builder is
   * `BuildHttpClient`; otherwise the token source is constructed (its first
   * token exchange failing fails the build) for the builder's auth URL,
   * scope and secret, and the client keeps the builder's base URL.
   */
  method Build(
    b: ClientBuilder,
    httpClient: Result<(), TransportError>,
    now: int,
    requestId: string,
    transport: Request<seq<(string, string)>> -> Sent,
    decode: Response -> Result<CredentialsState, DecodeError>
  ) returns (r: Result<GigaChatClient, ClientError>)
    ensures httpClient.Err? ==> r == Err(BuildHttpClient(httpClient.error))
    ensures httpClient.Ok? ==>
      var generated := GenerateNewState(b.authUrl, b.token, b.scope, requestId, transport, decode);
      && (generated.Err? ==> r == Err(generated.error))
      && (generated.Ok? ==>
            r.Ok? && r.value.baseUrl == b.baseUrl && fresh(r.value.tokens) && r.value.tokens.Valid() &&
            r.value.tokens.state == generated.value && r.value.tokens.url == b.authUrl &&
            r.value.tokens.scope == b.scope && r.value.tokens.secret == b.token)
  {
    if httpClient.Err? {
      return Err(BuildHttpClient(httpClient.error));
    }
    var source := SberTokenSource.New(b.authUrl, b.scope, b.token, now, requestId, transport, decode);
    if source.Err? {
      return Err(source.error);
    }
    return Ok(GigaChatClient(source.value, b.baseUrl));
  }

  /**
   * A client built with the defaults asks the default auth endpoint for a
   * token of the personal scope, sending the secret it was given.
   */
  lemma DefaultBuildRequest(token: string, requestId: string)
    ensures var b := NewClientBuilder(token);
      AuthRequest(b.authUrl, b.token, b.scope, requestId) ==
        Request(Post, DEFAULT_AUTH_URL,
                [Header("Authorization", BEARER + token), Header("RqUID", requestId)],
                [("scope", "GIGACHAT_API_PERS")])
  {
  }
}
