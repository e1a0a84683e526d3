/**
 * The bearer-token source of src/client/credentials_provider.rs: a cached
 * credential that is handed out while it has not expired and is otherwise
 * replaced, in one step, by a freshly minted one.  Time is an integer number
 * of milliseconds since the epoch; the auth endpoint is the `transport`
 * parameter and the random `RqUID` header value is the `requestId` parameter.
 */
module Credentials {
  import opened Wrappers
  import opened Http
  import Client
  import opened RenameRules

  /** `TokenScope`: the audience the credential is minted for. */
  datatype TokenScope = GigachatApiPers | GigachatApiB2B | GigachatApiCorp

  /** `TokenScope::default()`, the scope `GigaChatClientBuilder::new` starts from. */
  function DefaultScope(): (s: TokenScope)
    ensures ScopeWireNameAsWritten(s) == "GIGACHAT_API_PERS"
    ensures ScopeWireName(s) == "GIGACHAT_API_PERS"
  {
    GigachatApiPers
  }

  /** The Rust identifier of each scope variant. */
  function ScopeIdent(s: TokenScope): string
  {
    match s
    case GigachatApiPers => "GigachatApiPers"
    case GigachatApiB2B => "GigachatApiB2B"
    case GigachatApiCorp => "GigachatApiCorp"
  }

  /**
   * The form value the source sends for a scope: serde's
   * `SCREAMING_SNAKE_CASE` renaming of the variant name.
   */
  function ScopeWireNameAsWritten(s: TokenScope): (name: string)
    ensures s == GigachatApiPers ==> name == "GIGACHAT_API_PERS"
    ensures s == GigachatApiB2B ==> name == "GIGACHAT_API_B2_B"
    ensures s == GigachatApiCorp ==> name == "GIGACHAT_API_CORP"
  {
    match s
    case GigachatApiPers => ScopeWireNamePers(); ScreamingSnakeCase(ScopeIdent(s))
    case GigachatApiB2B => ScopeWireNameB2B(); ScreamingSnakeCase(ScopeIdent(s))
    case GigachatApiCorp => ScopeWireNameCorp(); ScreamingSnakeCase(ScopeIdent(s))
  }

  lemma IdentSplit(word: string)
    ensures "GigachatApi" + word == ['G'] + ("igachatApi" + word)
  {
  }

  lemma SnakeTailIgachat()
    ensures SnakeTail("igachat") == "igachat"
  {
    SnakeTailNoUpper("igachat");
  }

  lemma SnakeTailApi()
    ensures SnakeTail("Api") == "_api"
  {
    assert "Api" == ['A'] + "pi";
    SnakeTailWord('A', "pi");
  }

  lemma SnakeTailIgachatApi(word: string)
    ensures SnakeTail("igachatApi" + word) == "igachat_api" + SnakeTail(word)
  {
    assert "igachatApi" == "igachat" + "Api";
    SnakeTailAppend("igachat", "Api");
    SnakeTailIgachat();
    SnakeTailApi();
    SnakeTailAppend("igachatApi", word);
  }

  lemma PrefixG(t: string)
    ensures ['g'] + ("igachat_api" + t) == "gigachat_api" + t
  {
  }

  /** serde's `snake_case` of a `GigachatApi<word>` identifier. */
  lemma SnakeCaseScope(word: string)
    ensures SnakeCase("GigachatApi" + word) == "gigachat_api" + SnakeTail(word)
  {
    IdentSplit(word);
    SnakeCaseCons('G', "igachatApi" + word);
    SnakeTailIgachatApi(word);
    PrefixG(SnakeTail(word));
  }

  /** Upper-casing a literal, checked character by character. */
  lemma UppercaseIs(s: string, expected: string)
    requires |s| == |expected|
    requires forall k :: 0 <= k < |s| ==> AsciiUpper(s[k]) == expected[k]
    ensures ToAsciiUppercase(s) == expected
  {
    forall k | 0 <= k < |s| ensures ToAsciiUppercase(s)[k] == expected[k] {
      ToAsciiUppercaseAt(s, k);
    }
  }

  lemma SnakeTailB2B()
    ensures SnakeTail("B2B") == "_b2_b"
  {
    assert "B2B" == "B2" + "B";
    SnakeTailAppend("B2", "B");
    assert "B2" == ['B'] + "2";
    SnakeTailWord('B', "2");
    assert "B" == ['B'] + "";
    SnakeTailWord('B', "");
  }

  lemma UpperGigachatApi()
    ensures ToAsciiUppercase("gigachat_api") == "GIGACHAT_API"
  {
    UppercaseIs("gigachat_api", "GIGACHAT_API");
  }

  /** The upper-cased `snake_case` of `GigachatApi<word>`, from that of the word alone. */
  lemma ScreamingScope(word: string, tail: string, upper: string)
    requires SnakeTail(word) == tail
    requires ToAsciiUppercase(tail) == upper
    ensures ScreamingSnakeCase("GigachatApi" + word) == "GIGACHAT_API" + upper
  {
    SnakeCaseScope(word);
    ToAsciiUppercaseAppend("gigachat_api", tail);
    UpperGigachatApi();
  }

  lemma B2BJoined()
    ensures "GIGACHAT_API" + "_B2_B" == "GIGACHAT_API_B2_B"
  {
    SameChars("GIGACHAT_API" + "_B2_B", "GIGACHAT_API_B2_B");
  }

  /** serde splits "B2B" as "B2_B". */
  lemma ScopeWireNameB2B()
    ensures ScreamingSnakeCase(ScopeIdent(GigachatApiB2B)) == "GIGACHAT_API_B2_B"
  {
    assert ScopeIdent(GigachatApiB2B) == "GigachatApi" + "B2B";
    SnakeTailB2B();
    UppercaseIs("_b2_b", "_B2_B");
    ScreamingScope("B2B", "_b2_b", "_B2_B");
    B2BJoined();
  }

  lemma SnakeTailPers()
    ensures SnakeTail("Pers") == "_pers"
  {
    assert "Pers" == ['P'] + "ers";
    SnakeTailWord('P', "ers");
  }

  lemma ScopeWireNamePers()
    ensures ScreamingSnakeCase(ScopeIdent(GigachatApiPers)) == "GIGACHAT_API_PERS"
  {
    assert ScopeIdent(GigachatApiPers) == "GigachatApi" + "Pers";
    SnakeTailPers();
    UppercaseIs("_pers", "_PERS");
    ScreamingScope("Pers", "_pers", "_PERS");
    SameChars("GIGACHAT_API" + "_PERS", "GIGACHAT_API_PERS");
  }

  lemma SnakeTailCorp()
    ensures SnakeTail("Corp") == "_corp"
  {
    assert "Corp" == ['C'] + "orp";
    SnakeTailWord('C', "orp");
  }

  lemma ScopeWireNameCorp()
    ensures ScreamingSnakeCase(ScopeIdent(GigachatApiCorp)) == "GIGACHAT_API_CORP"
  {
    assert ScopeIdent(GigachatApiCorp) == "GigachatApi" + "Corp";
    SnakeTailCorp();
    UppercaseIs("_corp", "_CORP");
    ScreamingScope("Corp", "_corp", "_CORP");
    SameChars("GIGACHAT_API" + "_CORP", "GIGACHAT_API_CORP");
  }

  /**
   * The corrected naming: the scope names the auth endpoint accepts. They
   * agree with serde's renaming for the personal and corporate scopes; the
   * requests below still send serde's name, as the source does.
   */
  function ScopeWireName(s: TokenScope): string
  {
    match s
    case GigachatApiPers => "GIGACHAT_API_PERS"
    case GigachatApiB2B => "GIGACHAT_API_B2B"
    case GigachatApiCorp => "GIGACHAT_API_CORP"
  }

  /** Decoding a corrected scope name; the inverse of `ScopeWireName`. */
  function ScopeFromWireName(name: string): (r: Option<TokenScope>)
    ensures r.Some? ==> ScopeWireName(r.value) == name
  {
    if name == "GIGACHAT_API_PERS" then Some(GigachatApiPers)
    else if name == "GIGACHAT_API_B2B" then Some(GigachatApiB2B)
    else if name == "GIGACHAT_API_CORP" then Some(GigachatApiCorp)
    else None
  }

  lemma ScopeWireNameRoundTrip(s: TokenScope)
    ensures ScopeFromWireName(ScopeWireName(s)) == Some(s)
  {
  }

  /** The corrected naming agrees with serde's exactly for the scopes other than B2B. */
  lemma ScopeWireNameAgrees(s: TokenScope)
    ensures ScopeWireName(s) == ScopeWireNameAsWritten(s) <==> s != GigachatApiB2B
  {
    var written := ScopeWireNameAsWritten(s);
    match s
    case GigachatApiPers =>
      assert written == "GIGACHAT_API_PERS";
    case GigachatApiB2B =>
      assert |written| == 17 && |ScopeWireName(s)| == 16;
    case GigachatApiCorp =>
      assert written == "GIGACHAT_API_CORP";
  }

  /**
   * The name the source sends for the B2B scope is not the accepted one,
   * and the corrected decoding does not recognise it.
   */
  lemma ScopeWireNameB2BMismatch()
    ensures ScopeWireNameAsWritten(GigachatApiB2B) != ScopeWireName(GigachatApiB2B)
    ensures ScopeFromWireName(ScopeWireNameAsWritten(GigachatApiB2B)).None?
  {
  }

  /** `CredentialsState`: the bearer token and the instant (ms) it expires. */
  datatype CredentialsState = CredentialsState(accessToken: string, expiresAt: int)

  /**
   * `client::error::ClientError`; obtaining a token produces the last three,
   * building the client the first.
   */
  datatype ClientError =
    | BuildHttpClient(buildError: TransportError)
    | UrlParse(urlError: ParseError)
    | Certificate(certificateError: TransportError)
    | AuthenticationFailed
    | TokenGenerationFailed(sendError: TransportError)
    | TokenResponseParseFailed(decodeError: DecodeError)

  /** The authorization scheme of section 2.1 of RFC 6750, with its separating space. */
  const BEARER: string := "Bearer "

  predicate HasBearerPrefix(t: string)
  {
    |t| >= |BEARER| && t[..|BEARER|] == BEARER
  }

  /**
   * The credential-exchange request: a POST to the auth URL carrying the
   * long-lived secret as bearer credentials, the request id, and the scope
   * as the only form field, named as serde's `SCREAMING_SNAKE_CASE` names it.
   */
  function AuthRequest(url: Url, secret: string, scope: TokenScope, requestId: string)
    : (req: Request<seq<(string, string)>>)
    ensures req.verb == Post && req.url == url && req.body == [("scope", ScopeWireNameAsWritten(scope))]
    ensures Header("Authorization", BEARER + secret) in req.headers
    ensures Header("RqUID", requestId) in req.headers
  {
    Request(Post, url, [Header("Authorization", BEARER + secret), Header("RqUID", requestId)],
            [("scope", ScopeWireNameAsWritten(scope))])
  }

  /**
   * For the personal and corporate scopes the form carries the accepted
   * name; for B2B it carries serde's "GIGACHAT_API_B2_B", which is not it.
   */
  lemma AuthRequestScope(url: Url, secret: string, scope: TokenScope, requestId: string)
    ensures scope != GigachatApiB2B ==> AuthRequest(url, secret, scope, requestId).body == [("scope", ScopeWireName(scope))]
    ensures scope == GigachatApiB2B ==> AuthRequest(url, secret, scope, requestId).body == [("scope", "GIGACHAT_API_B2_B")]
    ensures scope == GigachatApiB2B ==> AuthRequest(url, secret, scope, requestId).body != [("scope", ScopeWireName(scope))]
  {
  }

  /**
   * `generate_new_state`: a send failure is `TokenGenerationFailed`, any
   * non-2xx status is `AuthenticationFailed` (status and body dropped), a
   * body that does not decode is `TokenResponseParseFailed`; on success the
   * decoded token gets the `Bearer ` prefix, once.
   */
  function GenerateNewState(
    url: Url, secret: string, scope: TokenScope, requestId: string,
    transport: Request<seq<(string, string)>> -> Sent,
    decode: Response -> Result<CredentialsState, DecodeError>
  ): (r: Result<CredentialsState, ClientError>)
    ensures var sent := transport(AuthRequest(url, secret, scope, requestId));
      && (sent.SendFailed? ==> r == Err(TokenGenerationFailed(sent.error)))
      && (sent.Received? && !IsSuccess(sent.response.status) ==> r == Err(AuthenticationFailed))
      && (sent.Received? && IsSuccess(sent.response.status) && decode(sent.response).Err? ==>
            r == Err(TokenResponseParseFailed(decode(sent.response).error)))
      && (r.Ok? ==>
            sent.Received? && IsSuccess(sent.response.status) && decode(sent.response).Ok? &&
            r.value.accessToken == BEARER + decode(sent.response).value.accessToken &&
            r.value.expiresAt == decode(sent.response).value.expiresAt)
    ensures r.Ok? ==> HasBearerPrefix(r.value.accessToken)
  {
    match transport(AuthRequest(url, secret, scope, requestId))
    case SendFailed(e) => Err(TokenGenerationFailed(e))
    case Received(response) =>
      match Client.CheckResponse(response)
      case Err(_) => Err(AuthenticationFailed)
      case Ok(checked) =>
        match decode(checked)
        case Err(e) => Err(TokenResponseParseFailed(e))
        case Ok(state) =>
          var prefixed := BEARER + state.accessToken;
          assert prefixed[..|BEARER|] == BEARER;
          Ok(state.(accessToken := prefixed))
  }

  /**
   * `SberTokenSource`: the secret, auth URL and scope are fixed at
   * construction; only the cached `state` ever changes.
   */
  class SberTokenSource {
    const secret: string
    const url: Url
    const scope: TokenScope
    var state: CredentialsState

    /** Once constructed, the cached token is always a prefixed bearer token. */
    predicate Valid()
      reads this
    {
      HasBearerPrefix(state.accessToken)
    }

    /** The placeholder `new` starts from: an empty token that expires at once. */
    constructor Seed(secret: string, url: Url, scope: TokenScope, now: int)
      ensures this.secret == secret && this.url == url && this.scope == scope
      ensures state == CredentialsState("", now)
    {
      this.secret := secret;
      this.url := url;
      this.scope := scope;
      state := CredentialsState("", now);
    }

    /**
     * `SberTokenSource::new`: seed the placeholder, then overwrite it with a
     * freshly generated state; if that first exchange fails, so does `new`.
     */
    static method New(
      url: Url, scope: TokenScope, secret: string, now: int, requestId: string,
      transport: Request<seq<(string, string)>> -> Sent,
      decode: Response -> Result<CredentialsState, DecodeError>
    ) returns (r: Result<SberTokenSource, ClientError>)
      ensures var generated := GenerateNewState(url, secret, scope, requestId, transport, decode);
        && (generated.Err? ==> r == Err(generated.error))
        && (generated.Ok? ==>
              r.Ok? && fresh(r.value) && r.value.Valid() && r.value.state == generated.value &&
              r.value.secret == secret && r.value.url == url && r.value.scope == scope)
    {
      var source := new SberTokenSource.Seed(secret, url, scope, now);
      var generated := GenerateNewState(url, secret, scope, requestId, transport, decode);
      if generated.Err? {
        return Err(generated.error);
      }
      source.state := generated.value;
      return Ok(source);
    }

    /**
     * `TokenSource::token`: while `expiresAt > now` the cached token is
     * returned as is and nothing is sent (`refreshed` is false); otherwise one
     * exchange is made and, if it succeeds, the whole state is replaced and
     * the new token returned; if it fails, the error is returned and the
     * state is left as it was.
     */
    method Token(
      now: int, requestId: string,
      transport: Request<seq<(string, string)>> -> Sent,
      decode: Response -> Result<CredentialsState, DecodeError>
    ) returns (r: Result<string, ClientError>, refreshed: bool)
      requires Valid()
      modifies this`state
      ensures Valid()
      ensures refreshed <==> old(state).expiresAt <= now
      ensures !refreshed ==> r == Ok(old(state).accessToken) && state == old(state)
      ensures refreshed ==>
        var generated := GenerateNewState(url, secret, scope, requestId, transport, decode);
        && (generated.Ok? ==> state == generated.value && r == Ok(generated.value.accessToken))
        && (generated.Err? ==> state == old(state) && r == Err(generated.error))
      ensures r.Ok? ==> HasBearerPrefix(r.value)
    {
      if state.expiresAt > now {
        return Ok(state.accessToken), false;
      }
      var generated := GenerateNewState(url, secret, scope, requestId, transport, decode);
      if generated.Err? {
        return Err(generated.error), true;
      }
      state := generated.value;
      return Ok(generated.value.accessToken), true;
    }
  }

  /**
   * Two calls in a row: a refresh that yields a credential valid until
   * `until` is reused, unchanged, by any later call before `until`.
   */
  method CachedAfterRefresh(
    source: SberTokenSource, now: int, later: int, requestId: string,
    transport: Request<seq<(string, string)>> -> Sent,
    decode: Response -> Result<CredentialsState, DecodeError>
  ) returns (first: Result<string, ClientError>, second: Result<string, ClientError>)
    requires source.Valid() && source.state.expiresAt <= now
    modifies source
    ensures var generated := GenerateNewState(source.url, source.secret, source.scope, requestId, transport, decode);
      generated.Ok? && later < generated.value.expiresAt ==> first == second
  {
    var refreshed;
    first, refreshed := source.Token(now, requestId, transport, decode);
    second, refreshed := source.Token(later, requestId, transport, decode);
  }
}
