/** The built-in (cURL) OAuth 2.0 token provider. */
module CurlOAuth {
  import opened Wrappers
  import opened TokenCache
  import opened Stores
  import opened OAuth

  const INIT_FAILURE_MESSAGE: string := "Was not possible to create a curl instance for OAuth."
  const EMPTY_RESPONSE_MESSAGE: string := "OAuth: empty response from token endpoint."

  /**
   * What the transport gave back for the token request: the handle could not be
   * created, cURL reported a (non-zero) error number, the response was not a
   * string, or a response arrived with its HTTP code and decoded body.
   */
  datatype CurlOutcome =
    | InitFailed
    | CurlError(errno: Errno, message: string)
    | NotString
    | Transferred(httpCode: int, body: TokenBody)

  const CURL_ERROR_OPENING: string := "OAuth cURL error["

  /** The error text of a failed transfer, `OAuth cURL error[<errno>]: <message>`. */
  function CurlErrorMessage(errno: nat, message: string): (m: string)
    ensures ReportsCode(m, CURL_ERROR_OPENING, errno, message)
  {
    ErrorReport(CURL_ERROR_OPENING, errno, message)
  }

  /**
   * The outcome of a token request: every transport failure is a runtime error;
   * a response that arrived is decided on its status and body alone.
   */
  function Fetch(o: CurlOutcome): (r: Result<Grant, Error>)
    ensures !o.Transferred? ==> r.Failure? && r.error.RuntimeException? && r.error.code == 0 && r.error.previous.None?
    ensures o.InitFailed? ==> r.error.message == INIT_FAILURE_MESSAGE
    ensures o.CurlError? ==> r.error.message == CurlErrorMessage(o.errno, o.message)
    ensures o.NotString? ==> r.error.message == EMPTY_RESPONSE_MESSAGE
    ensures o.Transferred? ==> r == Decide(o.httpCode, o.body)
  {
    match o
    case InitFailed => Failure(RuntimeException(INIT_FAILURE_MESSAGE, 0, None))
    case CurlError(errno, message) => Failure(RuntimeException(CurlErrorMessage(errno, message), 0, None))
    case NotString => Failure(RuntimeException(EMPTY_RESPONSE_MESSAGE, 0, None))
    case Transferred(httpCode, body) => Decide(httpCode, body)
  }

  class OAuthService {
    const store: Store

    constructor (store: Store)
      ensures this.store == store
    {
      this.store := store;
    }

    /**
     * A valid access token: the cached one when usable (no request is made),
     * otherwise one fetched through `exchange` and stored with its expiry counted from
     * `fetchedAt`, the clock once the exchange has returned.
     */
    method GetAccessToken(now: int, fetchedAt: int, exchange: TokenRequest -> CurlOutcome) returns (r: Result<string, Error>, attempted: Option<TokenRequest>)
      requires store.Valid()
      modifies store
      ensures store.Valid()
      ensures var request := RequestFor(old(store.environment.oauthEndpoint), old(store.filiation), old(store.token));
              Acquisition(r, attempted, store.Cached()) == Acquire(old(store.Cached()), now, fetchedAt, request, Fetch(exchange(request)))
      ensures store.environment == old(store.environment) && store.filiation == old(store.filiation) && store.token == old(store.token)
    {
      var cached := store.GetAccessToken(now);
      if cached.Some? {
        return Success(cached.value), None;
      }
      r, attempted := FetchAccessToken(fetchedAt, exchange);
    }

    /** The exchange itself: build the request, classify what came back, store a granted token. */
    method FetchAccessToken(fetchedAt: int, exchange: TokenRequest -> CurlOutcome) returns (r: Result<string, Error>, attempted: Option<TokenRequest>)
      requires store.Valid()
      modifies store
      ensures store.Valid()
      ensures var request := RequestFor(old(store.environment.oauthEndpoint), old(store.filiation), old(store.token));
              var fetched := Fetch(exchange(request));
              && attempted == Some(request)
              && (fetched.Success? ==> r == Success(fetched.value.accessToken)
                                       && store.Cached() == Put(fetched.value.accessToken, fetchedAt, fetched.value.expiresIn))
              && (fetched.Failure? ==> r == Failure(fetched.error) && store.Cached() == old(store.Cached()))
      ensures store.environment == old(store.environment) && store.filiation == old(store.filiation) && store.token == old(store.token)
    {
      var oauthEndpoint := store.GetEnvironment().GetOAuthEndpoint();
      var request := RequestFor(oauthEndpoint, store.GetFiliation(), store.GetToken());
      attempted := Some(request);
      var outcome := exchange(request);
      if outcome.InitFailed? {
        return Failure(RuntimeException(INIT_FAILURE_MESSAGE, 0, None)), attempted;
      }
      if outcome.CurlError? {
        return Failure(RuntimeException(CurlErrorMessage(outcome.errno, outcome.message), 0, None)), attempted;
      }
      if outcome.NotString? {
        return Failure(RuntimeException(EMPTY_RESPONSE_MESSAGE, 0, None)), attempted;
      }
      var httpCode := outcome.httpCode;
      var data := outcome.body;
      if data.InvalidJson? {
        return Failure(RuntimeException(INVALID_JSON_PREFIX + data.reason, 0, None)), attempted;
      }
      if httpCode >= 400 || data.accessToken.None? {
        var message := FailureMessage(data.errorDescription, data.error);
        return Failure(RedeException(message, httpCode)), attempted;
      }
      var expiresIn := data.expiresIn.GetOr(DEFAULT_EXPIRES_IN);
      store.SetAccessToken(data.accessToken.value, fetchedAt, expiresIn);
      r := Success(data.accessToken.value);
    }
  }
}
