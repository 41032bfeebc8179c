/**
 * The two interchangeable token providers, selected by the integrator, and
 * what either of them yields for a store: the same cache fast path, the same
 * request, and the same decision once a response has arrived.
 */
module TokenProviders {
  import opened Wrappers
  import opened TokenCache
  import opened Stores
  import opened OAuth
  import CurlOAuth
  import GuzzleOAuth

  /** A provider object of either kind. */
  datatype OAuthProvider =
    | CurlProvider(curl: CurlOAuth.OAuthService)
    | GuzzleProvider(guzzle: GuzzleOAuth.GuzzleOAuthService)
  {
    /** The store whose cache the provider reads and writes. */
    function ProviderStore(): Store {
      match this
      case CurlProvider(p) => p.store
      case GuzzleProvider(p) => p.store
    }
  }

  datatype ProviderKind = Curl | Guzzle

  function KindOf(p: OAuthProvider): ProviderKind {
    if p.CurlProvider? then Curl else Guzzle
  }

  /** How the OAuth endpoint answers a token request, seen through each transport. */
  datatype OAuthTransport = OAuthTransport(
    curl: TokenRequest -> CurlOAuth.CurlOutcome,
    guzzle: TokenRequest -> GuzzleOAuth.GuzzleOutcome)

  /**
   * What `getAccessToken` of a provider of kind `kind` over store `s` yields when
   * the cache is read at `now` and a fetched token is stored at `fetchedAt`.
   */
  function TokenAcquisition(kind: ProviderKind, s: Store, now: int, fetchedAt: int, net: OAuthTransport): (a: Acquisition)
    reads s
    requires s.Valid()
    ensures Consistent(a.after)
    ensures Usable(s.Cached(), now) ==> a == Acquisition(Success(s.accessToken.value), None, s.Cached())
    ensures !Usable(s.Cached(), now) ==> a.attempted == Some(RequestFor(s.environment.oauthEndpoint, s.filiation, s.token))
  {
    var request := RequestFor(s.environment.oauthEndpoint, s.filiation, s.token);
    var fetched := match kind
      case Curl => CurlOAuth.Fetch(net.curl(request))
      case Guzzle => GuzzleOAuth.Fetch(net.guzzle(request));
    Acquire(s.Cached(), now, fetchedAt, request, fetched)
  }

  /**
   * For the same status and body, the two providers return the same token or
   * raise the same error, and leave the same cache. Stated over `Acquire`, this
   * holds because both `Fetch` functions hand a response to the same `Decide`;
   * that each provider's step-by-step `FetchAccessToken` does what its `Fetch`
   * says is the content of the two methods' own contracts.
   */
  lemma ProvidersAgreeOnResponses(c: Cache, now: int, fetchedAt: int, request: TokenRequest, status: int, body: TokenBody)
    requires Consistent(c)
    ensures Acquire(c, now, fetchedAt, request, CurlOAuth.Fetch(CurlOAuth.Transferred(status, body)))
         == Acquire(c, now, fetchedAt, request, GuzzleOAuth.Fetch(GuzzleOAuth.Responded(status, body)))
  {
  }

  /**
   * Both providers fail on every transport failure with a runtime error and keep
   * no token; the cURL one never records a cause, the Guzzle one always does.
   */
  lemma ProvidersFailAlikeOnTransport(c: Cache, now: int, fetchedAt: int, request: TokenRequest, o: CurlOAuth.CurlOutcome, e: GuzzleError)
    requires Consistent(c) && !Usable(c, now) && !o.Transferred?
    ensures var a := Acquire(c, now, fetchedAt, request, CurlOAuth.Fetch(o));
            a.result.Failure? && a.result.error.RuntimeException? && a.result.error.previous.None? && a.after == Empty
    ensures var a := Acquire(c, now, fetchedAt, request, GuzzleOAuth.Fetch(GuzzleOAuth.Threw(e)));
            a.result.Failure? && a.result.error.RuntimeException? && a.result.error.previous == Some(e) && a.after == Empty
  {
  }
}
