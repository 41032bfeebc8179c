/** The OAuth 2.0 token provider built on the Guzzle HTTP client. */
module GuzzleOAuth {
  import opened Wrappers
  import opened TokenCache
  import opened Stores
  import opened OAuth

  const GUZZLE_ERROR_PREFIX: string := "OAuth Guzzle error: "

  /** What `client->post` did: it threw, or it returned a status and a body (decoded here). */
  datatype GuzzleOutcome =
    | Threw(exception: GuzzleError)
    | Responded(status: int, body: TokenBody)

  /**
   * The outcome of a token request: a thrown exception is rewrapped as a runtime
   * error with the prefixed message, the same code and the original as cause; a
   * response is decided on its status and body alone.
   */
  function Fetch(o: GuzzleOutcome): (r: Result<Grant, Error>)
    ensures o.Threw? ==> r == Failure(RuntimeException(GUZZLE_ERROR_PREFIX + o.exception.message, o.exception.code, Some(o.exception)))
    ensures o.Responded? ==> r == Decide(o.status, o.body)
  {
    match o
    case Threw(e) => Failure(RuntimeException(GUZZLE_ERROR_PREFIX + e.message, e.code, Some(e)))
    case Responded(status, body) => Decide(status, body)
  }

  class GuzzleOAuthService {
    const store: Store

    /** The client's own settings (timeouts, certificate verification) are not part of this model. */
    constructor (store: Store)
      ensures this.store == store
    {
      this.store := store;
    }

    /**
     * A valid access token: the cached one when usable (no `post` is made),
     * otherwise one fetched through `post` and stored with its expiry counted from
     * `fetchedAt`, the clock once the exchange has returned.
     */
    method GetAccessToken(now: int, fetchedAt: int, post: TokenRequest -> GuzzleOutcome) returns (r: Result<string, Error>, attempted: Option<TokenRequest>)
      requires store.Valid()
      modifies store
      ensures store.Valid()
      ensures var request := RequestFor(old(store.environment.oauthEndpoint), old(store.filiation), old(store.token));
              Acquisition(r, attempted, store.Cached()) == Acquire(old(store.Cached()), now, fetchedAt, request, Fetch(post(request)))
      ensures store.environment == old(store.environment) && store.filiation == old(store.filiation) && store.token == old(store.token)
    {
      var cached := store.GetAccessToken(now);
      if cached.Some? {
        return Success(cached.value), None;
      }
      r, attempted := FetchAccessToken(fetchedAt, post);
    }

    /** The exchange itself: post the request, classify what came back, store a granted token. */
    method FetchAccessToken(fetchedAt: int, post: TokenRequest -> GuzzleOutcome) returns (r: Result<string, Error>, attempted: Option<TokenRequest>)
      requires store.Valid()
      modifies store
      ensures store.Valid()
      ensures var request := RequestFor(old(store.environment.oauthEndpoint), old(store.filiation), old(store.token));
              var fetched := Fetch(post(request));
              && attempted == Some(request)
              && (fetched.Success? ==> r == Success(fetched.value.accessToken)
                                       && store.Cached() == Put(fetched.value.accessToken, fetchedAt, fetched.value.expiresIn))
              && (fetched.Failure? ==> r == Failure(fetched.error) && store.Cached() == old(store.Cached()))
      ensures store.environment == old(store.environment) && store.filiation == old(store.filiation) && store.token == old(store.token)
    {
      var oauthEndpoint := store.GetEnvironment().GetOAuthEndpoint();
      var request := RequestFor(oauthEndpoint, store.GetFiliation(), store.GetToken());
      attempted := Some(request);
      var response := post(request);
      if response.Threw? {
        var e := response.exception;
        return Failure(RuntimeException(GUZZLE_ERROR_PREFIX + e.message, e.code, Some(e))), attempted;
      }
      var httpCode := response.status;
      var data := response.body;
      if data.InvalidJson? {
        return Failure(RuntimeException(INVALID_JSON_PREFIX + data.reason, 0, None)), attempted;
      }
      if httpCode >= 400 || data.accessToken.None? {
        var message := FailureMessage(data.errorDescription, data.error);
        return Failure(RedeException(message, httpCode)), attempted;
      }
      var expiresIn := data.expiresIn.GetOr(DEFAULT_EXPIRES_IN);
      store.SetAccessToken(data.accessToken.value, fetchedAt, expiresIn);
      r := Success(data.accessToken.value);
    }
  }
}
