/**
 * The request executor every payment operation builds on: it obtains a bearer
 * token, assembles the headers, selects the HTTP method, and classifies what the
 * transport returned before handing the body and status to the operation's parser.
 */
module Executor {
  import opened Wrappers
  import opened TokenCache
  import opened Environments
  import opened Stores
  import opened OAuth
  import opened UserAgent
  import opened TokenProviders
  import CurlOAuth
  import GuzzleOAuth

  const GET: string := "GET"
  const POST: string := "POST"
  const PUT: string := "PUT"

  const ACCEPT_HEADER: string := "Accept: application/json"
  const TRANSACTION_RESPONSE_HEADER: string := "Transaction-Response: brand-return-opened"
  const BEARER_PREFIX: string := "Authorization: Bearer "
  const JSON_CONTENT_TYPE: string := "Content-Type: application/json; charset=utf8"
  const EMPTY_CONTENT_LENGTH: string := "Content-Length: 0"
  /** The name of the client-identification header, up to its colon. */
  const USER_AGENT_NAME: string := "User-Agent:"

  const INIT_FAILURE_MESSAGE: string := "Was not possible to create a curl instance."
  const NO_RESPONSE_MESSAGE: string := "Error obtaining a response from the API"

  /** How the transfer is told its method: nothing for GET, the POST flag, or a custom request line. */
  datatype Verb = DefaultGet | PostFlag | CustomRequest(name: string)

  function Dispatch(httpMethod: string): (v: Verb)
    ensures v == DefaultGet <==> httpMethod == GET
    ensures v == PostFlag <==> httpMethod == POST
    ensures v.CustomRequest? <==> httpMethod != GET && httpMethod != POST
    ensures v.CustomRequest? ==> v.name == httpMethod
  {
    if httpMethod == GET then DefaultGet
    else if httpMethod == POST then PostFlag
    else CustomRequest(httpMethod)
  }

  /** The header that describes the body: a JSON content type, or a zero length when there is no body. */
  function BodyHeader(body: string): (h: string)
    ensures h == JSON_CONTENT_TYPE <==> body != ""
    ensures h == EMPTY_CONTENT_LENGTH <==> body == ""
  {
    if body != "" then JSON_CONTENT_TYPE else EMPTY_CONTENT_LENGTH
  }

  /**
   * The header list of a business request, in order: the squeezed
   * client-identification header, Accept, Transaction-Response, the bearer
   * credential (section 2.1 of RFC 6750), and exactly one body header.
   */
  function Headers(userAgent: string, accessToken: string, body: string): (h: seq<string>)
    requires |userAgent| >= |USER_AGENT_NAME| && userAgent[..|USER_AGENT_NAME|] == USER_AGENT_NAME
    ensures |h| == 5
    ensures h[0] == SqueezeSpaces(userAgent)
    ensures |h[0]| >= |USER_AGENT_NAME| && h[0][..|USER_AGENT_NAME|] == USER_AGENT_NAME
    ensures h[1] == ACCEPT_HEADER && h[2] == TRANSACTION_RESPONSE_HEADER && h[3] == BEARER_PREFIX + accessToken
    ensures h[4] == JSON_CONTENT_TYPE <==> body != ""
    ensures h[4] == EMPTY_CONTENT_LENGTH <==> body == ""
    ensures forall i :: 0 <= i < 4 ==> h[i] != JSON_CONTENT_TYPE && h[i] != EMPTY_CONTENT_LENGTH
  {
    var rest := userAgent[|USER_AGENT_NAME|..];
    assert userAgent == USER_AGENT_NAME + rest;
    assert !HasDoubleSpace(USER_AGENT_NAME) by {
      forall i | 0 <= i < |USER_AGENT_NAME| - 1
        ensures !DoubleSpaceAt(USER_AGENT_NAME, i)
      {
      }
    }
    SqueezeKeepsPrefix(USER_AGENT_NAME, rest);
    var squeezed := SqueezeSpaces(userAgent);
    assert squeezed == USER_AGENT_NAME + SqueezeSpaces(rest);
    assert squeezed[0] == 'U' && JSON_CONTENT_TYPE[0] == 'C' && EMPTY_CONTENT_LENGTH[0] == 'C';
    assert (BEARER_PREFIX + accessToken)[0] == 'A';
    [squeezed, ACCEPT_HEADER, TRANSACTION_RESPONSE_HEADER, BEARER_PREFIX + accessToken, BodyHeader(body)]
  }

  /** The agent header as built always opens with the header name. */
  lemma UserAgentHeaderIsNamed(agent: string, platform: Option<string>, platformVersion: Option<string>, curl: Option<CurlVersion>)
    ensures var h := UserAgentHeader(agent, platform, platformVersion, curl);
            |h| >= |USER_AGENT_NAME| && h[..|USER_AGENT_NAME|] == USER_AGENT_NAME
  {
    var h := UserAgentHeader(agent, platform, platformVersion, curl);
    assert h[..|HEADER_PREFIX + agent|][..|USER_AGENT_NAME|] == h[..|USER_AGENT_NAME|];
    assert (HEADER_PREFIX + agent)[..|USER_AGENT_NAME|] == USER_AGENT_NAME;
  }

  /** A business request as handed to the transport. */
  datatype HttpRequest = HttpRequest(url: string, verb: Verb, headers: seq<string>, postFields: Option<string>)

  /** What the transport gave back for a business request. */
  datatype HttpOutcome =
    | InitFailed
    | CurlError(errno: Errno, message: string)
    | NotString
    | Received(response: string, httpCode: int)

  const CURL_ERROR_OPENING: string := "Curl error["

  /** The error text of a failed transfer, `Curl error[<errno>]: <message>`. */
  function CurlErrorMessage(errno: nat, message: string): (m: string)
    ensures ReportsCode(m, CURL_ERROR_OPENING, errno, message)
  {
    ErrorReport(CURL_ERROR_OPENING, errno, message)
  }

  /**
   * Transport failures become runtime errors; a response that arrived is handed,
   * with its status, to the operation's parser, whose result is returned as is.
   */
  function Classify<T>(o: HttpOutcome, parse: (string, int) -> Result<T, Error>): (r: Result<T, Error>)
    ensures o.Received? ==> r == parse(o.response, o.httpCode)
    ensures !o.Received? ==> r.Failure? && r.error.RuntimeException? && r.error.code == 0 && r.error.previous.None?
    ensures o.InitFailed? ==> r.error.message == INIT_FAILURE_MESSAGE
    ensures o.CurlError? ==> r.error.message == CurlErrorMessage(o.errno, o.message)
    ensures o.NotString? ==> r.error.message == NO_RESPONSE_MESSAGE
  {
    match o
    case InitFailed => Failure(RuntimeException(INIT_FAILURE_MESSAGE, 0, None))
    case CurlError(errno, message) => Failure(RuntimeException(CurlErrorMessage(errno, message), 0, None))
    case NotString => Failure(RuntimeException(NO_RESPONSE_MESSAGE, 0, None))
    case Received(response, httpCode) => parse(response, httpCode)
  }

  /** What a concrete operation supplies: its service path and its response parser. */
  datatype Operation<T> = Operation(service: string, parse: (string, int) -> Result<T, Error>)

  /**
   * The values the executor reads from its surroundings: the clock as read for
   * the token lookup (`now`) and, if a token is fetched, as read once the
   * exchange has returned (`fetchedAt`); the runtime-formatted agent string;
   * and the transport library's version report.
   */
  datatype Runtime = Runtime(now: int, fetchedAt: int, agent: string, curl: Option<CurlVersion>)

  /** How the OAuth endpoint and the business API answer. */
  datatype Network = Network(oauth: OAuthTransport, api: HttpRequest -> HttpOutcome)

  class AbstractService {
    const store: Store
    var oauthService: Option<OAuthProvider>
    var platform: Option<string>
    var platformVersion: Option<string>

    constructor (store: Store)
      ensures this.store == store && oauthService == None && platform == None && platformVersion == None
    {
      this.store := store;
      oauthService := None;
      platform := None;
      platformVersion := None;
    }

    method SetOAuthService(provider: OAuthProvider)
      modifies this
      ensures oauthService == Some(provider)
      ensures platform == old(platform) && platformVersion == old(platformVersion)
    {
      oauthService := Some(provider);
    }

    method Platform(platform: Option<string>, platformVersion: Option<string>)
      modifies this
      ensures this.platform == platform && this.platformVersion == platformVersion
      ensures oauthService == old(oauthService)
    {
      this.platform := platform;
      this.platformVersion := platformVersion;
    }

    /** The store whose token is used: the injected provider's, or this service's own. */
    function TokenStore(): Store
      reads this
    {
      match oauthService
      case None => store
      case Some(p) => p.ProviderStore()
    }

    /** Without an injected provider a built-in (cURL) one is used. */
    function TokenKind(): ProviderKind
      reads this
    {
      match oauthService
      case None => Curl
      case Some(p) => KindOf(p)
    }

    /** The client-identification header for the current platform tag. */
    function GetUserAgent(agent: string, curl: Option<CurlVersion>): (ua: string)
      reads this
      ensures |ua| >= |HEADER_PREFIX + agent| && ua[..|HEADER_PREFIX + agent|] == HEADER_PREFIX + agent
      ensures PhpEmpty(platform) || PhpEmpty(platformVersion) ==> ua == HEADER_PREFIX + agent + CurlSuffix(curl)
      ensures !PhpEmpty(platform) && !PhpEmpty(platformVersion) ==>
                ua == HEADER_PREFIX + agent + (" " + platform.value + "/" + platformVersion.value) + CurlSuffix(curl)
    {
      UserAgentHeader(agent, platform, platformVersion, curl)
    }

    /**
     * The bearer token, from the injected provider or else from a built-in
     * cURL provider over this service's own store.
     */
    method AcquireAccessToken(now: int, fetchedAt: int, oauth: OAuthTransport) returns (token: Result<string, Error>)
      requires TokenStore().Valid()
      modifies TokenStore()
      ensures TokenStore().Valid()
      ensures var a := old(TokenAcquisition(TokenKind(), TokenStore(), now, fetchedAt, oauth));
              token == a.result && TokenStore().Cached() == a.after
      ensures TokenStore().environment == old(TokenStore().environment)
      ensures TokenStore().filiation == old(TokenStore().filiation) && TokenStore().token == old(TokenStore().token)
    {
      var attempted: Option<TokenRequest>;
      match oauthService {
        case None =>
          var provider := new CurlOAuth.OAuthService(store);
          token, attempted := provider.GetAccessToken(now, fetchedAt, oauth.curl);
        case Some(CurlProvider(provider)) =>
          token, attempted := provider.GetAccessToken(now, fetchedAt, oauth.curl);
        case Some(GuzzleProvider(provider)) =>
          token, attempted := provider.GetAccessToken(now, fetchedAt, oauth.guzzle);
      }
    }

    /** The header list, appended to one entry at a time as the request is configured. */
    static method BuildHeaders(userAgent: string, accessToken: string, body: string) returns (headers: seq<string>, postFields: Option<string>)
      requires |userAgent| >= |USER_AGENT_NAME| && userAgent[..|USER_AGENT_NAME|] == USER_AGENT_NAME
      ensures headers == Headers(userAgent, accessToken, body)
      ensures postFields.Some? <==> body != ""
      ensures postFields.Some? ==> postFields.value == body
    {
      headers := [
        SqueezeSpaces(userAgent),
        ACCEPT_HEADER,
        TRANSACTION_RESPONSE_HEADER,
        BEARER_PREFIX + accessToken
      ];
      postFields := None;
      if body != "" {
        postFields := Some(body);
        headers := headers + [JSON_CONTENT_TYPE];
      } else {
        headers := headers + [EMPTY_CONTENT_LENGTH];
      }
    }

    /**
     * Sends `body` with `httpMethod` to the operation's service. The token comes
     * first; nothing is sent when it cannot be obtained. Otherwise the request is
     * built, handed to the transport, and the outcome classified.
     */
    method SendRequest<T>(op: Operation<T>, ctx: Runtime, net: Network, body: string := "", httpMethod: string := GET)
      returns (r: Result<T, Error>, sent: Option<HttpRequest>)
      requires store.Valid() && TokenStore().Valid()
      modifies TokenStore()
      ensures store.Valid() && TokenStore().Valid()
      ensures var a := old(TokenAcquisition(TokenKind(), TokenStore(), ctx.now, ctx.fetchedAt, net.oauth));
              && TokenStore().Cached() == a.after
              && (a.result.Failure? ==> r == Failure(a.result.error) && sent == None)
              && (a.result.Success? ==>
                    && sent == Some(HttpRequest(
                         old(store.environment).GetEndpoint(op.service),
                         Dispatch(httpMethod),
                         Headers(GetUserAgent(ctx.agent, ctx.curl), a.result.value, body),
                         if body != "" then Some(body) else None))
                    && r == Classify(net.api(sent.value), op.parse))
      ensures store.environment == old(store.environment)
      ensures TokenStore().environment == old(TokenStore().environment)
      ensures TokenStore().filiation == old(TokenStore().filiation) && TokenStore().token == old(TokenStore().token)
      ensures TokenStore() != store ==> store.Cached() == old(store.Cached())
    {
      var accessToken := AcquireAccessToken(ctx.now, ctx.fetchedAt, net.oauth);
      if accessToken.Failure? {
        return Failure(accessToken.error), None;
      }

      var userAgent := GetUserAgent(ctx.agent, ctx.curl);
      UserAgentHeaderIsNamed(ctx.agent, platform, platformVersion, ctx.curl);
      var headers, postFields := BuildHeaders(userAgent, accessToken.value, body);
      var request := HttpRequest(store.GetEnvironment().GetEndpoint(op.service), Dispatch(httpMethod), headers, postFields);
      sent := Some(request);

      var response := net.api(request);
      if response.InitFailed? {
        return Failure(RuntimeException(INIT_FAILURE_MESSAGE, 0, None)), sent;
      }
      if response.CurlError? {
        return Failure(RuntimeException(CurlErrorMessage(response.errno, response.message), 0, None)), sent;
      }
      if response.NotString? {
        return Failure(RuntimeException(NO_RESPONSE_MESSAGE, 0, None)), sent;
      }
      r := op.parse(response.response, response.httpCode);
    }
  }
}
