/**
 * The deployment targets of the eRede API v2: a base URL from which per-service
 * endpoints are composed, the OAuth 2.0 token URL, and the optional consumer
 * metadata (`ip`, `sessionId`) that operations embed in their payloads.
 */
module Environments {
  import opened Wrappers

  const PRODUCTION: string := "https://api.userede.com.br/erede"
  const SANDBOX: string := "https://sandbox-erede.useredecloud.com.br"
  const VERSION: string := "v2"
  const OAUTH_PRODUCTION: string := "https://api.userede.com.br/redelabs/oauth2/token"
  const OAUTH_SANDBOX: string := "https://rl7-sandbox-api.useredecloud.com.br/oauth2/token"

  /** The URL of `service` under an environment whose base URL is `baseUrl`. */
  function ServiceUrl(baseUrl: string, service: string): string {
    baseUrl + "/" + VERSION + "/" + service
  }

  /** The consumer metadata object, `{consumer: {ip, sessionId}}`. */
  datatype Consumer = Consumer(ip: Option<string>, sessionId: Option<string>)
  datatype Serialized = Serialized(consumer: Consumer)

  class Environment {
    /** The base URL the environment was built from; only `endpoint` is kept at run time. */
    ghost const baseUrl: string
    /** `baseUrl/v2/`, fixed at construction. */
    const endpoint: string
    const oauthEndpoint: string
    var ip: Option<string>
    var sessionId: Option<string>

    ghost predicate Valid() {
      endpoint == baseUrl + "/" + VERSION + "/"
    }

    /** The private constructor: both factories go through it. */
    constructor (baseUrl: string, oauthUrl: string)
      ensures Valid() && this.baseUrl == baseUrl && oauthEndpoint == oauthUrl
      ensures ip == None && sessionId == None
    {
      this.baseUrl := baseUrl;
      endpoint := baseUrl + "/" + VERSION + "/";
      oauthEndpoint := oauthUrl;
      ip := None;
      sessionId := None;
    }

    static method Production() returns (e: Environment)
      ensures fresh(e) && e.Valid() && e.IsProduction()
      ensures e.ip == None && e.sessionId == None
      ensures forall s :: e.GetEndpoint(s) == "https://api.userede.com.br/erede/v2/" + s
    {
      e := new Environment(PRODUCTION, OAUTH_PRODUCTION);
    }

    static method Sandbox() returns (e: Environment)
      ensures fresh(e) && e.Valid() && e.IsSandbox()
      ensures e.ip == None && e.sessionId == None
      ensures forall s :: e.GetEndpoint(s) == "https://sandbox-erede.useredecloud.com.br/v2/" + s
    {
      e := new Environment(SANDBOX, OAUTH_SANDBOX);
    }

    ghost predicate IsProduction() {
      baseUrl == PRODUCTION && oauthEndpoint == OAUTH_PRODUCTION
    }

    ghost predicate IsSandbox() {
      baseUrl == SANDBOX && oauthEndpoint == OAUTH_SANDBOX
    }

    /** The OAuth 2.0 token endpoint, exactly as given at construction. */
    function GetOAuthEndpoint(): (url: string)
      ensures IsProduction() ==> url == OAUTH_PRODUCTION
      ensures IsSandbox() ==> url == OAUTH_SANDBOX
    {
      oauthEndpoint
    }

    /** The URL of a service: the base URL, the version segment, then the service name. */
    function GetEndpoint(service: string): (url: string)
      requires Valid()
      ensures url == ServiceUrl(baseUrl, service)
      ensures url[..|url| - |service|] == endpoint && url[|url| - |service|..] == service
    {
      endpoint + service
    }

    /** The consumer ip last set, or null. */
    function GetIp(): (v: Option<string>)
      reads this
      ensures v == ip
    {
      ip
    }

    /** The consumer session id last set, or null. */
    function GetSessionId(): (v: Option<string>)
      reads this
      ensures v == sessionId
    {
      sessionId
    }

    method SetIp(ip: string)
      modifies this
      ensures this.ip == Some(ip) && sessionId == old(sessionId)
      ensures JsonSerialize() == Serialized(Consumer(Some(ip), old(sessionId)))
    {
      this.ip := Some(ip);
    }

    method SetSessionId(sessionId: string)
      modifies this
      ensures this.sessionId == Some(sessionId) && ip == old(ip)
      ensures JsonSerialize() == Serialized(Consumer(old(ip), Some(sessionId)))
    {
      this.sessionId := Some(sessionId);
    }

    /** The consumer metadata as it stands now. */
    function JsonSerialize(): (j: Serialized)
      reads this
      ensures j.consumer.ip == GetIp() && j.consumer.sessionId == GetSessionId()
    {
      Serialized(Consumer(ip, sessionId))
    }
  }

  /** Both consumer fields read back what was set, and the serialised consumer carries the same values. */
  method SetThenGetConsumer(e: Environment, ip: string, sessionId: string)
    modifies e
    ensures e.GetIp() == Some(ip) && e.GetSessionId() == Some(sessionId)
    ensures e.JsonSerialize() == Serialized(Consumer(Some(ip), Some(sessionId)))
  {
    e.SetIp(ip);
    e.SetSessionId(sessionId);
  }

  /** The two environments never agree on any endpoint: production and sandbox are distinct targets. */
  lemma EnvironmentsDiffer(p: Environment, s: Environment, service: string)
    requires p.Valid() && p.IsProduction() && s.Valid() && s.IsSandbox()
    ensures p.GetEndpoint(service) != s.GetEndpoint(service)
    ensures p.GetOAuthEndpoint() != s.GetOAuthEndpoint()
  {
    assert p.GetEndpoint(service)[8] == 'a' && s.GetEndpoint(service)[8] == 's';
    assert OAUTH_PRODUCTION[12] == 'u' && OAUTH_SANDBOX[12] == 's';
  }
}
