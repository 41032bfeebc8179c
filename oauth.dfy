/**
 * The OAuth 2.0 client-credentials exchange (section 4.4 of RFC 6749) as the
 * token providers see it once a response has arrived: the request they send,
 * the decoded response body, the two kinds of error they raise, and the
 * decision that both providers make on a (status, body) pair.
 */
module OAuth {
  import opened Wrappers
  import opened TokenCache

  const GRANT_BODY: string := "grant_type=client_credentials"
  const FORM_CONTENT_TYPE: string := "Content-Type: application/x-www-form-urlencoded"
  const DEFAULT_FAILURE_MESSAGE: string := "OAuth authentication failed."
  const INVALID_JSON_PREFIX: string := "OAuth: invalid JSON response: "

  /**
   * The token endpoint's body after JSON decoding. A field that is absent or
   * JSON `null` is None; a body that decodes to something other than an object
   * has every field None.
   */
  datatype TokenBody =
    | InvalidJson(reason: string)
    | Decoded(accessToken: Option<string>, expiresIn: Option<int>, error: Option<string>, errorDescription: Option<string>)

  /** A cURL error number; the error branches are taken only when it is non-zero. */
  type Errno = n: nat | n > 0 witness 1

  /** An exception thrown by the HTTP library, kept as the cause of the wrapping error. */
  datatype GuzzleError = GuzzleError(message: string, code: int)

  /** The two exception classes the core raises. */
  datatype Error =
    | RuntimeException(message: string, code: int, previous: Option<GuzzleError>)
    | RedeException(message: string, code: int)

  /** A token granted by the endpoint and its lifetime in seconds. */
  datatype Grant = Grant(accessToken: string, expiresIn: int)

  /**
   * The token request: a POST to `url` carrying `Authorization: Basic` with the
   * base64 encoding of `basicCredentials`, the form content type and the grant body.
   */
  datatype TokenRequest = TokenRequest(url: string, basicCredentials: string, contentType: string, body: string)

  predicate IsDigits(d: string) {
    forall i :: 0 <= i < |d| ==> '0' <= d[i] <= '9'
  }

  function DigitValue(c: char): nat {
    if '0' <= c <= '9' then c as int - '0' as int else 0
  }

  /** The number a string of decimal digits spells, most significant digit first. */
  function DigitsValue(d: string): nat
    decreases |d|
  {
    if d == [] then 0 else 10 * DigitsValue(d[..|d| - 1]) + DigitValue(d[|d| - 1])
  }

  /** The decimal digits of `n`, as `%d` prints a non-negative integer: no leading zero, and they spell `n`. */
  function Decimal(n: nat): (d: string)
    ensures |d| > 0 && IsDigits(d)
    ensures |d| > 1 ==> d[0] != '0'
    ensures DigitsValue(d) == n
  {
    var last := ['0' + ((n % 10) as char)];
    if n < 10 then last
    else
      var d := Decimal(n / 10) + last;
      assert d[..|d| - 1] == Decimal(n / 10);
      d
  }

  /**
   * `m` reads as `<opening><digits>]: <detail>`, where the digits spell `code`
   * in decimal without a leading zero: the `[%d]: %s` shape of a transport
   * error message, read back from its text.
   */
  predicate ReportsCode(m: string, opening: string, code: nat, detail: string) {
    |m| >= |opening| + 4 + |detail| &&
    m[..|opening|] == opening &&
    m[|m| - |detail|..] == detail &&
    m[|m| - |detail| - 3..|m| - |detail|] == "]: " &&
    var digits := m[|opening|..|m| - |detail| - 3];
    IsDigits(digits) && DigitsValue(digits) == code && (|digits| > 1 ==> digits[0] != '0')
  }

  /** `<opening><code in decimal>]: <detail>` reports exactly that code and detail. */
  function ErrorReport(opening: string, code: nat, detail: string): (m: string)
    ensures ReportsCode(m, opening, code, detail)
  {
    var digits := Decimal(code);
    var m := opening + digits + "]: " + detail;
    assert m[..|opening|] == opening;
    assert m[|m| - |detail|..] == detail;
    assert m[|m| - |detail| - 3..|m| - |detail|] == "]: ";
    assert m[|opening|..|m| - |detail| - 3] == digits;
    m
  }

  /** The user-pass string of HTTP Basic authentication (section 2 of RFC 7617), before base64. */
  function Credentials(filiation: string, secret: string): string {
    filiation + ":" + secret
  }

  /** The prefix of `s` before its first colon, and the rest after it. */
  function SplitAtColon(s: string): (parts: (string, string))
    ensures ':' !in parts.0
    ensures ':' in s ==> s == parts.0 + ":" + parts.1
    ensures ':' !in s ==> parts == (s, "")
  {
    if s == [] then ("", "")
    else if s[0] == ':' then ("", s[1..])
    else
      var rest := SplitAtColon(s[1..]);
      assert s == [s[0]] + s[1..];
      ([s[0]] + rest.0, rest.1)
  }

  /**
   * A server splits the user-pass at its first colon (section 2 of RFC 7617), so
   * it recovers the filiation and the secret exactly when the filiation has no colon.
   */
  lemma {:induction false} CredentialsRoundTrip(filiation: string, secret: string)
    requires ':' !in filiation
    ensures SplitAtColon(Credentials(filiation, secret)) == (filiation, secret)
  {
    if filiation == [] {
      assert Credentials(filiation, secret) == ":" + secret;
    } else {
      assert Credentials(filiation, secret)[1..] == Credentials(filiation[1..], secret);
      CredentialsRoundTrip(filiation[1..], secret);
      assert [filiation[0]] + filiation[1..] == filiation;
    }
  }

  /** The request both providers send for a store's OAuth endpoint and credentials. */
  function RequestFor(oauthEndpoint: string, filiation: string, secret: string): (req: TokenRequest)
    ensures req.url == oauthEndpoint && req.body == GRANT_BODY && req.contentType == FORM_CONTENT_TYPE
    ensures req.basicCredentials == Credentials(filiation, secret)
    ensures ':' !in filiation ==> SplitAtColon(req.basicCredentials) == (filiation, secret)
  {
    var req := TokenRequest(oauthEndpoint, Credentials(filiation, secret), FORM_CONTENT_TYPE, GRANT_BODY);
    if ':' in filiation then req
    else CredentialsRoundTrip(filiation, secret); req
  }

  /** The message of a failed authentication: `error_description`, else `error`, else a fixed text. */
  function FailureMessage(errorDescription: Option<string>, error: Option<string>): (m: string)
    ensures errorDescription.Some? ==> m == errorDescription.value
    ensures errorDescription.None? && error.Some? ==> m == error.value
    ensures errorDescription.None? && error.None? ==> m == DEFAULT_FAILURE_MESSAGE
  {
    errorDescription.GetOr(error.GetOr(DEFAULT_FAILURE_MESSAGE))
  }

  /**
   * The decision on a response that arrived: an undecodable body is a runtime
   * error; status 400 or above, or no `access_token`, is an authentication error
   * carrying the status as its code; anything else grants the token, with a
   * lifetime of 1440 seconds when `expires_in` is missing.
   */
  function Decide(status: int, body: TokenBody): (r: Result<Grant, Error>)
    ensures r.Success? <==> body.Decoded? && status < 400 && body.accessToken.Some?
    ensures r.Success? ==> r.value.accessToken == body.accessToken.value
    ensures r.Success? && body.expiresIn.Some? ==> r.value.expiresIn == body.expiresIn.value
    ensures r.Success? && body.expiresIn.None? ==> r.value.expiresIn == DEFAULT_EXPIRES_IN
    ensures body.InvalidJson? ==> r == Failure(RuntimeException(INVALID_JSON_PREFIX + body.reason, 0, None))
    ensures body.Decoded? && !r.Success? ==> r == Failure(RedeException(FailureMessage(body.errorDescription, body.error), status))
  {
    match body
    case InvalidJson(reason) => Failure(RuntimeException(INVALID_JSON_PREFIX + reason, 0, None))
    case Decoded(accessToken, expiresIn, error, errorDescription) =>
      if status >= 400 || accessToken.None? then
        Failure(RedeException(FailureMessage(errorDescription, error), status))
      else
        Success(Grant(accessToken.value, expiresIn.GetOr(DEFAULT_EXPIRES_IN)))
  }

  /** A successful status with a token wins over any `error` fields in the same body. */
  lemma TokenWinsOverErrorFields(status: int, token: string, expiresIn: Option<int>, error: string, description: string)
    requires status < 400
    ensures Decide(status, Decoded(Some(token), expiresIn, Some(error), Some(description))).Success?
  {
  }

  /** A 200 response `{"access_token":"tok1","expires_in":600}` grants "tok1" for 600 seconds. */
  lemma GrantExample()
    ensures Decide(200, Decoded(Some("tok1"), Some(600), None, None)) == Success(Grant("tok1", 600))
  {
  }

  /** A 401 response with `error_description` "bad credentials" fails with that message and code 401. */
  lemma RejectionExample()
    ensures Decide(401, Decoded(None, None, Some("invalid_client"), Some("bad credentials")))
         == Failure(RedeException("bad credentials", 401))
  {
  }

  /** What a provider's `getAccessToken` yields: its result, the request it tried, and the cache after. */
  datatype Acquisition = Acquisition(result: Result<string, Error>, attempted: Option<TokenRequest>, after: Cache)

  /**
   * Token acquisition over a cache: a usable cached token is returned and no
   * request is made; otherwise `request` is tried, and its outcome `fetched`
   * either stores the granted token or leaves the cache as the read left it.
   * The clock is read twice: at `now` for the lookup, and at `fetchedAt`, once
   * the exchange has returned, for the new token's expiry.
   */
  function Acquire(c: Cache, now: int, fetchedAt: int, request: TokenRequest, fetched: Result<Grant, Error>): (a: Acquisition)
    requires Consistent(c)
    ensures Consistent(a.after)
    ensures Usable(c, now) ==> a == Acquisition(Success(c.token.value), None, c)
    ensures !Usable(c, now) ==> a.attempted == Some(request)
    ensures !Usable(c, now) && fetched.Success? ==>
              a.result == Success(fetched.value.accessToken) && a.after == Put(fetched.value.accessToken, fetchedAt, fetched.value.expiresIn)
    ensures !Usable(c, now) && fetched.Failure? ==> a.result == Failure(fetched.error) && a.after == Empty
  {
    var read := Read(c, now);
    if read.value.Some? then Acquisition(Success(read.value.value), None, read.after)
    else match fetched
      case Success(g) => Acquisition(Success(g.accessToken), Some(request), Put(g.accessToken, fetchedAt, g.expiresIn))
      case Failure(e) => Acquisition(Failure(e), Some(request), read.after)
  }

  /** After a successful acquisition the returned token is the one in the cache, usable until its margin. */
  lemma AcquiredTokenIsCached(c: Cache, now: int, fetchedAt: int, request: TokenRequest, fetched: Result<Grant, Error>)
    requires Consistent(c)
    requires Acquire(c, now, fetchedAt, request, fetched).result.Success?
    ensures Acquire(c, now, fetchedAt, request, fetched).after.token == Some(Acquire(c, now, fetchedAt, request, fetched).result.value)
  {
  }
}
