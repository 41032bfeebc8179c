# eRede v2 authenticated requests, modelled in Dafny

This project models how the eRede PHP SDK (v2) authenticates and sends a
request to the acquirer's REST API:

- **Store.** The merchant's store holds the filiation (client id), the
  integration key (client secret) and the environment. It also holds an OAuth
  2.0 access token cached with its expiry instant. A cached token is served
  until 60 seconds before that instant; from then on it is dropped.
- **Environment.** There are two environments, production and sandbox. Each
  fixes the versioned API endpoint (`<base>/v2/<service>`) and the OAuth token
  endpoint, and carries the optional consumer ip and session id that are
  serialised with a transaction.
- **Token providers.** Two interchangeable providers, one cURL-based and one
  Guzzle-based, obtain a token with the client-credentials grant. Each one:
  - serves the cached token when it is still usable;
  - otherwise posts `grant_type=client_credentials` with HTTP Basic
    credentials `filiation:secret`;
  - turns a transport failure or an undecodable body into a runtime error;
  - turns a status of 400 or more, or a body without `access_token`, into a
    gateway error. Its message is `error_description`, else `error`, else
    `OAuth authentication failed.`, and its code is the HTTP status;
  - stores the granted token for `expires_in` seconds, 1440 when the body
    gives none.
- **Request executor.** The executor every operation builds on:
  - obtains the bearer token, from the injected provider or from a default
    cURL provider over the same store;
  - builds the five request headers in their fixed order. The client header
    has double spaces squeezed in one pass. The last header is either the
    JSON content type or a zero content length;
  - selects the HTTP method: GET is the default, POST sets the POST flag, and
    any other method is sent as a custom request;
  - masks the card holder name, card number and security code in the logged
    request body;
  - classifies the outcome: transport error, then non-string response, then
    the operation's own parser.

The clock (`time()`), the network and the runtime's version probes are inputs
of the model. The clock is two values: `now`, read for the cache lookup, and
`fetchedAt`, read after a token exchange has returned and used for the new
token's expiry. The network is a set of functions from request to outcome, and
the probes form a runtime record. Stateful PHP objects are Dafny classes: `Store`, `Environment`, both
providers and `AbstractService`. Each state-changing method is proved against
a pure specification function (`TokenCache.Read`, `TokenCache.Put`,
`OAuth.Acquire`, `TokenProviders.TokenAcquisition`, `Executor.Headers`), and
the properties of those functions are proved as lemmas.

Modules, one per concern:

| file | module | models |
|---|---|---|
| `wrappers.dfy` | `Wrappers` | `Option` and `Result` |
| `environment.dfy` | `Environments` | `RedeV2\Environment` |
| `token_cache.dfy` | `TokenCache`, `Stores` | the token cache as values, and the `Store` class |
| `oauth.dfy` | `OAuth` | what both providers share: request, decision on a response, cache fast path |
| `oauth_service.dfy` | `CurlOAuth` | the cURL provider |
| `guzzle_oauth_service.dfy` | `GuzzleOAuth` | the Guzzle provider |
| `token_providers.dfy` | `TokenProviders` | provider selection and agreement of the two providers |
| `user_agent.dfy` | `UserAgent` | the client-identification header and the double-space squeeze |
| `redaction.dfy` | `Redaction` | masking of sensitive fields in the logged body |
| `abstract_service.dfy` | `Executor` | `AbstractService::sendRequest` and its helpers |

## Model

| member | source | states |
|---|---|---|
| TokenCache.Read | src/Rede/Store.php:100-114 | For a consistent cache, a token is returned iff one is cached and `now < expiry - 60`. A returned token is the cached one and leaves the cache as it was. A refused read leaves no token behind. Reading an empty cache changes nothing. Consistency (token null iff expiry null) is preserved. |
| TokenCache.Put | src/Rede/Store.php:124-129 | Storing a token gives a consistent cache holding that token, whose expiry lies exactly `expiresIn` seconds after `now`. |
| TokenCache.ReadAfterPut | src/Rede/Store.php:100-129 | A token stored at `now` for `expiresIn` seconds is served at `later` iff `later < now + expiresIn - 60`; otherwise the read empties the cache. |
| TokenCache.BoundaryIsExpired | src/Rede/Store.php:106-111 | At exactly 60 seconds before expiry the token is already refused and the cache emptied. |
| TokenCache.ExpiryIsMonotone | src/Rede/Store.php:100-114 | Once a read refuses, every later read refuses too, whether made on the emptied cache or on the original one. |
| TokenCache.ReadIsStable | src/Rede/Store.php:100-114 | Reading twice at the same instant gives the same answer and the same cache as reading once. |
| TokenCache.HourLongTokenExample | src/Rede/Store.php:106-113 | A one-hour token is served 3500 s after it was stored and refused 3541 s after. |
| TokenCache.ShortTokenExample | src/Rede/Store.php:106-129 | A 120 s token is served for the first 60 s and refused from then on. |
| Stores.Store.constructor | src/Rede/Store.php:30-36 | A new store keeps the given credentials and has an empty token cache. It uses the given environment, or a fresh production environment when none is given. |
| Stores.Store.SetEnvironment | src/Rede/Store.php:51-55 | Only the environment changes; the credentials and the token cache are kept. |
| Stores.Store.SetFiliation | src/Rede/Store.php:70-74 | Only the filiation changes. |
| Stores.Store.SetToken | src/Rede/Store.php:89-93 | Only the integration key changes. |
| Stores.Store.GetEnvironment | src/Rede/Store.php:41-44 | Returns the store's environment, which is always a well-formed one (its endpoint is `<baseUrl>/v2/`). |
| Stores.Store.GetFiliation | src/Rede/Store.php:60-63 | Returns the filiation held by the store. |
| Stores.Store.GetToken | src/Rede/Store.php:79-82 | Returns the integration key held by the store. |
| Stores.SetThenGet | src/Rede/Store.php:41-93 | After setting the filiation, the integration key and the environment, each getter returns the value set, whatever the other setters did. The token cache is untouched. |
| Stores.Store.GetAccessToken | src/Rede/Store.php:100-114 | Returns what `TokenCache.Read` returns and leaves the cache `Read` leaves: a token exactly when the cached one is usable at `now`. Nothing else in the store changes. |
| Stores.Store.SetAccessToken | src/Rede/Store.php:124-129 | The cache becomes `TokenCache.Put(token, now, expiresIn)`, with `expiresIn` defaulting to 1440. Nothing else changes. |
| Stores.Store.InvalidateAccessToken | src/Rede/Store.php:136-141 | The cache becomes empty and nothing else changes. |
| Stores.InvalidateTwice | src/Rede/Store.php:136-141 | Invalidating twice leaves the same state as invalidating once. |
| Stores.Lifecycle | src/Rede/Store.php:100-129 | After storing `t` with the default lifetime, `t` is served at once. At any `later >= now`, `t` is served again iff `later < now + 1380`, and nothing else is ever served; otherwise the cache is empty. |
| Environments.Environment.constructor | src/RedeV2/Environment.php:42-46 | The endpoint is `<baseUrl>/v2/`, the OAuth endpoint is the given URL, and the consumer fields are unset. |
| Environments.Environment.Production | src/RedeV2/Environment.php:51-54 | A fresh production environment, whose service URL for any `s` is `https://api.userede.com.br/erede/v2/` followed by `s`. |
| Environments.Environment.Sandbox | src/RedeV2/Environment.php:59-62 | A fresh sandbox environment, whose service URL for any `s` is `https://sandbox-erede.useredecloud.com.br/v2/` followed by `s`. |
| Environments.Environment.GetOAuthEndpoint | src/RedeV2/Environment.php:67-70 | The production token endpoint for a production environment, and the sandbox one for a sandbox environment. |
| Environments.Environment.GetEndpoint | src/RedeV2/Environment.php:77-80 | The service URL is `<baseUrl>/v2/<service>`: the environment's endpoint followed by exactly the service name. |
| Environments.Environment.SetIp | src/RedeV2/Environment.php:95-99 | Sets the ip and keeps the session id; the serialised consumer then carries both. |
| Environments.Environment.SetSessionId | src/RedeV2/Environment.php:114-118 | Sets the session id and keeps the ip; the serialised consumer then carries both. |
| Environments.Environment.GetIp | src/RedeV2/Environment.php:85-88 | Returns the consumer ip last set, or null. |
| Environments.Environment.GetSessionId | src/RedeV2/Environment.php:104-107 | Returns the consumer session id last set, or null. |
| Environments.SetThenGetConsumer | src/RedeV2/Environment.php:85-118 | After setting both consumer fields, each getter returns the value set, and the serialised consumer carries both. |
| Environments.Environment.JsonSerialize | src/RedeV2/Environment.php:124-131 | The consumer object carries the current ip and session id, unset ones included. |
| Environments.EnvironmentsDiffer | src/RedeV2/Environment.php:9-14 | For every service, production and sandbox give different API URLs and different token endpoints. |
| OAuth.Decimal | src/Rede/Service/OAuthService.php:84 | The `%d` rendering of a non-negative number: a non-empty string of decimal digits with no leading zero, whose value (`DigitsValue`, read most significant digit first) is the number. |
| OAuth.ErrorReport | src/Rede/Service/OAuthService.php:84 | `<opening><number>]: <detail>` reads back as that opening, the number in decimal without a leading zero, `]: ` and exactly that detail. |
| OAuth.SplitAtColon | src/Rede/Service/OAuthService.php:59-61 | Splits at the first colon: the user part has no colon, joining the parts back gives the input, and an input without a colon is all user part. |
| OAuth.CredentialsRoundTrip | src/Rede/Service/OAuthService.php:59-61 | For a filiation without a colon, the Basic credential string `filiation:secret` splits back into exactly that filiation and secret (section 2 of RFC 7617). |
| OAuth.RequestFor | src/Rede/Service/OAuthService.php:57-77 | The token request goes to the environment's OAuth endpoint with body `grant_type=client_credentials` and a form content type. Its Basic credential string is always `filiation:secret`, and it splits back into the filiation and secret when the filiation has no colon. |
| OAuth.FailureMessage | src/Rede/Service/OAuthService.php:98-100 | The gateway error message is `error_description` if present, else `error`, else `OAuth authentication failed.`. |
| OAuth.Decide | src/Rede/Service/OAuthService.php:92-107 | A decoded body with status below 400 and an `access_token` grants that token for `expires_in` seconds, or 1440 without it. Nothing else grants. Undecodable JSON is a runtime error. Any other decoded body is a gateway error whose code is the status. |
| OAuth.TokenWinsOverErrorFields | src/Rede/Service/OAuthService.php:98-101 | Below 400, a body carrying a token is granted even when it also carries `error` and `error_description`. |
| OAuth.GrantExample | src/Rede/Service/OAuthService.php:103-107 | Status 200 with token `tok1` and `expires_in` 600 grants `tok1` for 600 s. |
| OAuth.RejectionExample | src/Rede/Service/OAuthService.php:98-101 | Status 401 with `error_description` "bad credentials" is a gateway error with that message and code 401. |
| OAuth.Acquire | src/Rede/Service/OAuthService.php:36-45 | A usable cached token (cache read at `now`) is returned and nothing is handed to the transport. Otherwise the request is handed to the transport. A grant is returned and stored with its expiry counted from `fetchedAt`, the clock read again after the exchange. A failure is returned and the cache is left empty. |
| OAuth.AcquiredTokenIsCached | src/Rede/Service/OAuthService.php:103-107 | Whatever token is returned is the one left in the cache. |
| CurlOAuth.CurlErrorMessage | src/Rede/Service/OAuthService.php:82-86 | The message is `OAuth cURL error[`, the error number in decimal, `]: ` and the cURL error text. |
| CurlOAuth.Fetch | src/Rede/Service/OAuthService.php:63-101 | A failed handle, a cURL error or a non-string response is a runtime error with code 0 and no cause. Their messages are `Was not possible to create a curl instance for OAuth.`, `CurlErrorMessage` of the error number and text, and `OAuth: empty response from token endpoint.`. A response that arrived is decided by `OAuth.Decide` on its status and body. |
| CurlOAuth.OAuthService.constructor | src/Rede/Service/OAuthService.php:24-26 | The provider works on the given store. |
| CurlOAuth.OAuthService.GetAccessToken | src/Rede/Service/OAuthService.php:36-45 | The token, the request handed to the transport (if any) and the new cache are exactly `OAuth.Acquire` on the old cache, read at `now`, with a fetched token stored at `fetchedAt` and the request built from the store's credentials. |
| CurlOAuth.OAuthService.FetchAccessToken | src/Rede/Service/OAuthService.php:55-107 | The request is always handed to the transport. A grant is returned and stored with its lifetime counted from `fetchedAt`. A failure is returned and the cache is left as it was. |
| GuzzleOAuth.Fetch | src/Rede/Service/GuzzleOAuthService.php:77-109 | A thrown client error becomes a runtime error prefixed `OAuth Guzzle error: `, keeping its code and the error as cause; a response is decided by `OAuth.Decide`. |
| GuzzleOAuth.GuzzleOAuthService.constructor | src/Rede/Service/GuzzleOAuthService.php:33-40 | The provider works on the given store; the client settings are not modelled. |
| GuzzleOAuth.GuzzleOAuthService.GetAccessToken | src/Rede/Service/GuzzleOAuthService.php:50-59 | The token, the request posted (if any) and the new cache are exactly `OAuth.Acquire` on the old cache, read at `now`, with a fetched token stored at `fetchedAt`. |
| GuzzleOAuth.GuzzleOAuthService.FetchAccessToken | src/Rede/Service/GuzzleOAuthService.php:69-115 | The request is always posted. A grant is returned and stored with its lifetime counted from `fetchedAt`. A failure is returned and the cache is left unchanged. |
| TokenProviders.TokenAcquisition | src/Rede/Service/GuzzleOAuthService.php:50-59 | Either provider serves a usable cached token and hands nothing to the transport. Otherwise it hands over the request built from the store's credentials and endpoint, and leaves a consistent cache; a fetched token is stored at `fetchedAt`. |
| TokenProviders.ProvidersAgreeOnResponses | src/Rede/Service/GuzzleOAuthService.php:95-115 | Given the same status and body, the cURL and Guzzle providers return the same token or error and leave the same cache. Over `Acquire` this follows from both `Fetch` functions deferring to `Decide`; that each provider's `FetchAccessToken` matches its `Fetch` is the content of those methods' contracts. |
| TokenProviders.ProvidersFailAlikeOnTransport | src/Rede/Service/GuzzleOAuthService.php:87-93 | On a transport failure both providers return a runtime error and keep no token; only the Guzzle one records the cause. |
| UserAgent.PlatformSuffix | src/RedeV2/Service/AbstractService.php:189-191 | The ` platform/version` tag is present iff neither part is PHP-empty (null, "" or "0"). |
| UserAgent.CurlSuffix | src/RedeV2/Service/AbstractService.php:193-201 | The library suffix is empty iff the runtime gives no version report; otherwise it starts with ` curl/`. |
| UserAgent.UserAgentHeader | src/RedeV2/Service/AbstractService.php:175-204 | The header opens with `User-Agent: <agent>`, carries the platform tag only when both parts are non-empty, and ends with the library versions. |
| UserAgent.SqueezeSpaces | src/RedeV2/Service/AbstractService.php:94-98 | Squeezing never lengthens the header. |
| UserAgent.SqueezeShrinks | src/RedeV2/Service/AbstractService.php:94-98 | A header containing a double space gets strictly shorter. |
| UserAgent.SqueezeChangesIffDoubleSpace | src/RedeV2/Service/AbstractService.php:94-98 | The header is changed iff it contains a double space. |
| UserAgent.SqueezeKeepsNonSpaces | src/RedeV2/Service/AbstractService.php:94-98 | Only spaces are removed: the other characters survive, in order. |
| UserAgent.SqueezeKeepsPrefix | src/RedeV2/Service/AbstractService.php:94-98 | A prefix without double spaces that does not end in a space passes through unchanged. |
| UserAgent.SqueezeLeavesDoubleIffTriple | src/RedeV2/Service/AbstractService.php:94-98 | The replacement is a single pass, not a collapse of every run of spaces: the result still contains a double space iff the input contains three spaces in a row. |
| UserAgent.SinglePassExample | src/RedeV2/Service/AbstractService.php:94-98 | The replacement is one left-to-right pass: three spaces become two. |
| Redaction.QuoteFreeRun | src/RedeV2/Service/AbstractService.php:141 | The length of the longest quote-free prefix: no quote before it, and a quote right after it unless the input ends. |
| Redaction.Redact | src/RedeV2/Service/AbstractService.php:141 | The logged body with each sensitive value replaced by `***`, left to right without overlap. A body containing no quote is logged unchanged. |
| Redaction.MatchAt | src/RedeV2/Service/AbstractService.php:141 | A match at the start opens with a quote and spans a key, a non-empty value and its delimiters, all within the input. |
| Redaction.MatchKeySound | src/RedeV2/Service/AbstractService.php:141 | A match against one key is a quote, that key in any letter case, `":"`, a non-empty run of characters other than `"`, and a closing quote. |
| Redaction.MatchAtSound | src/RedeV2/Service/AbstractService.php:141 | Soundness of the matcher, the converse of `FieldMatches`: whatever it reports is a quote, one of the three sensitive keys in any case, `":"`, a non-empty quote-free value and a closing quote. |
| Redaction.RedactKeepsPlainPrefix | src/RedeV2/Service/AbstractService.php:141 | The first `n` characters, where no sensitive field starts, are copied through, and masking continues after them. |
| Redaction.NoMatchWithoutQuote | src/RedeV2/Service/AbstractService.php:141 | No field starts at a character other than a quote. |
| Redaction.NoFieldNoChange | src/RedeV2/Service/AbstractService.php:141 | A body in which no sensitive field starts is logged unchanged. With `MatchAtSound` and `FieldMatches`, "no field starts" means no quote, sensitive key, separator, non-empty quote-free value and closing quote. |
| Redaction.FieldMatches | src/RedeV2/Service/AbstractService.php:141 | `"<key>":"<value>"` with a sensitive key, in any letter case, and a non-empty quote-free value matches with exactly that key and value length. |
| Redaction.RedactField | src/RedeV2/Service/AbstractService.php:141 | Such a field is logged as `"<key>":"***"` with the key's original case; masking continues after it. |
| Redaction.CardNumberExample | src/RedeV2/Service/AbstractService.php:141 | In `{"cardnumber":"<n>","amount":<a>}` the number is masked and everything else is kept. |
| Executor.Dispatch | src/RedeV2/Service/AbstractService.php:113-121 | GET sets nothing, POST sets the POST flag, and every other method is sent as a custom request with exactly that name; each case holds iff its condition does. |
| Executor.BodyHeader | src/RedeV2/Service/AbstractService.php:123-129 | The JSON content type iff the body is non-empty, the zero content length iff it is empty. |
| Executor.Headers | src/RedeV2/Service/AbstractService.php:93-129 | Exactly five headers: the squeezed client header, which still opens with `User-Agent:`; Accept; Transaction-Response; `Authorization: Bearer <token>`; then the content type iff the body is non-empty, or else the zero length. No earlier entry is a body header. |
| Executor.UserAgentHeaderIsNamed | src/RedeV2/Service/AbstractService.php:177-187 | The client header as built always starts with the header name. |
| Executor.CurlErrorMessage | src/RedeV2/Service/AbstractService.php:159-161 | The message is `Curl error[`, the error number in decimal, `]: ` and the cURL error text. |
| Executor.Classify | src/RedeV2/Service/AbstractService.php:159-167 | A transport failure is a runtime error with code 0 and no cause. A failed handle is `Was not possible to create a curl instance.`, a cURL error is `CurlErrorMessage` of its number and text, and a non-string response is `Error obtaining a response from the API`. A response that arrived gives exactly what the operation's parser gives for its body and status. |
| Executor.AbstractService.constructor | src/RedeV2/Service/AbstractService.php:40-42 | A new service over the given store, with no injected provider and no platform tag. |
| Executor.AbstractService.SetOAuthService | src/RedeV2/Service/AbstractService.php:50-54 | Installs the provider and keeps the platform tag. |
| Executor.AbstractService.Platform | src/RedeV2/Service/AbstractService.php:62-68 | Sets both platform parts and keeps the provider. |
| Executor.AbstractService.GetUserAgent | src/RedeV2/Service/AbstractService.php:175-204 | The header opens with `User-Agent: <agent>`, carries ` platform/version` exactly when both of the service's platform parts are non-empty, and ends with the library suffix. |
| Executor.AbstractService.AcquireAccessToken | src/RedeV2/Service/AbstractService.php:88-90 | The token and new cache are those of `TokenProviders.TokenAcquisition` for the injected provider's kind and store, or for a cURL provider over this service's store. The credentials and environment of that store are kept. |
| Executor.AbstractService.BuildHeaders | src/RedeV2/Service/AbstractService.php:93-129 | The headers appended step by step equal `Executor.Headers`; the body is attached iff it is non-empty. |
| Executor.AbstractService.SendRequest | src/RedeV2/Service/AbstractService.php:86-168 | Token failure: that error is returned and no request is handed to the transport. Otherwise exactly one request is handed to the transport: to the store's environment URL for the service, with the method given by `Dispatch`, the headers given by `Headers` and the body iff it is non-empty. Its outcome is classified by `Classify`. The token cache of the token store becomes what `TokenAcquisition` leaves (read at `now`, stored at `fetchedAt`). The filiation, secret and environment of both stores are kept, and the service's own store's cache is kept when the token comes from another store. |

## Left out

- Logging is not modelled: the request/response debug lines and `dumpHttpInfo` (src/RedeV2/Service/AbstractService.php:134-157, 218-231). Only the masking applied to the logged body is modelled.
- TLS options, the return-transfer flag, the Guzzle client's timeouts and the handle lifecycle are not modelled. These are library settings with no observable effect in the model.
- cURL, Guzzle, `json_decode`, `base64_encode`, `time()`, `phpversion()`, `php_uname()` and `curl_version()` are inputs.
  - The network is a function from request to outcome.
  - A decoded token body is a value carrying its optional fields.
  - The Basic credential is kept as the `filiation:secret` text before base64 encoding.
  - The formatted agent string is an input string. It is the SDK's `USER_AGENT` format applied to the runtime probes and to the store's filiation (AbstractService.php:178-185). The model therefore does not tie the client header to the store's filiation.
- `OAuth.Decide`: assumes `expires_in` is already an integer, and `access_token`, `error` and `error_description` already strings. The `(int)` and `(string)` casts of other JSON types are not modelled. Without strict types, a non-string `access_token` that passes `isset` (OAuthService.php:98) is coerced by `setAccessToken(string ...)` (Store.php:124): `123` is stored as `"123"`, `true` as `"1"`, `false` as `""`. An array or object there throws a `TypeError`, which is neither of the providers' two exceptions. None of this is modelled.
- `OAuth.Decide`: a JSON value that is not an object (e.g. `null`) is taken to be a body with no fields, which is how PHP's property access on it behaves.
- `GuzzleOAuth.Fetch`: Guzzle's default client raises its own exception for 4xx/5xx responses. With that client, a rejected token request reaches the provider as a thrown error, not a response. `TokenProviders.ProvidersAgreeOnResponses` covers the responses the client does return. Guzzle's internal behaviour is not part of this model.
- `TokenCache.Put`: integers are unbounded, so the model's `Put` always stores the token and its expiry together. In PHP, `time() + $expiresIn` (Store.php:127) past `PHP_INT_MAX` yields a float, not a wrapped or saturated integer. Assigning that float to the `?int` expiry property (Store.php:21) throws a `TypeError`. By then line 126 has already stored the token. On the providers' path the expiry was null before the call, so the store is left with a token and a null expiry. `getAccessToken` then skips the expiry test (Store.php:107) and serves that token on every later read, breaking the "token null iff expiry null" invariant. The `(int)` conversion of a huge `expires_in` (OAuthService.php:103) raises no error; its result for an out-of-range value is left to the platform. None of this is modelled.
- Two concurrent requests sharing one store may both fetch a token. Interleaving is not modelled: each method runs atomically.
- Several namespaces are joined. `Rede\Environment`, which `Store.php` refers to, is not part of this model. Neither is `RedeV2\Store`, which `AbstractService.php` refers to. The model joins the one `Store` here to the `RedeV2\Environment` shown.
- Providers are joined the same way. `AbstractService.php` lives in `RedeV2\Service`, so its default `new OAuthService(...)` (line 89) names `RedeV2\Service\OAuthService`, and `setOAuthService` (line 50) accepts `RedeV2\Service\OAuthServiceInterface`. Neither class is part of this model. The model takes the shown `Rede\Service` providers to be those classes.
- The provider interface, `Brand.php` and the concrete operations (`execute`, `getService`, `parseResponse`) are left out. An operation is a service name plus a parser function.
- `Executor.AbstractService.SendRequest`: a failure to create the cURL handle (AbstractService.php:104-108, OAuthService.php:63-67) happens before anything is sent. The model records it as an outcome of the request handed to the transport, so `sent`/`attempted` hold that request even though nothing reached the network.
- `Executor.AbstractService.SendRequest`: cURL itself switches a request to POST when a body is set with no explicit method. The model records the method option the source sets, not the method cURL ends up using.
- `Redaction.CardNumberExample`: the masking is proved field by field. Overlapping matches, such as a masked value that would itself start a new field, follow the same left-to-right rule but have no separate lemma.
