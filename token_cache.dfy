/**
 * The cached OAuth 2.0 access token as a value: the pair (token, expiry) that
 * the credential store keeps, with the 60-second safety margin that decides
 * whether a cached token may still be used.
 */
module TokenCache {
  import opened Wrappers

  /** Seconds before the recorded expiry from which a token counts as expired. */
  const EXPIRY_MARGIN: int := 60
  /** Lifetime assumed when the caller (or the token endpoint) gives none. */
  const DEFAULT_EXPIRES_IN: int := 1440

  /** The two cache fields; `expiry` is an absolute time in seconds. */
  datatype Cache = Cache(token: Option<string>, expiry: Option<int>)

  const Empty: Cache := Cache(None, None)

  /** The two fields are written together: both present or both absent. */
  predicate Consistent(c: Cache) {
    c.token.None? <==> c.expiry.None?
  }

  /** A token may be handed out at `now` only while `now` is more than the margin before its expiry. */
  predicate Usable(c: Cache, now: int) {
    c.token.Some? && c.expiry.Some? && now + EXPIRY_MARGIN < c.expiry.value
  }

  /** What a read returns, and the cache after the read. */
  datatype Lookup = Lookup(value: Option<string>, after: Cache)

  /**
   * Reading the cache at `now`: no token gives nothing; a token at or past
   * `expiry - 60` is dropped together with its expiry; otherwise the token.
   */
  function Read(c: Cache, now: int): (r: Lookup)
    ensures Consistent(c) ==> (r.value.Some? <==> Usable(c, now))
    ensures r.value.Some? ==> r.value == c.token && r.after == c
    ensures r.value.None? ==> r.after.token.None?
    ensures c.token.None? ==> r.after == c
    ensures Consistent(c) ==> Consistent(r.after)
  {
    if c.token.None? then Lookup(None, c)
    else if c.expiry.Some? && now >= c.expiry.value - EXPIRY_MARGIN then Lookup(None, Empty)
    else Lookup(c.token, c)
  }

  /** Storing a token at `now` that lives `expiresIn` seconds. */
  function Put(token: string, now: int, expiresIn: int): (c: Cache)
    ensures Consistent(c) && c.token == Some(token)
    ensures c.expiry.Some? && c.expiry.value - now == expiresIn
  {
    Cache(Some(token), Some(now + expiresIn))
  }

  /** A freshly stored token is handed out exactly until `expiresIn - 60` seconds have passed. */
  lemma ReadAfterPut(token: string, now: int, expiresIn: int, later: int)
    ensures Read(Put(token, now, expiresIn), later).value == Some(token) <==> later < now + expiresIn - EXPIRY_MARGIN
    ensures Read(Put(token, now, expiresIn), later).value != Some(token) ==> Read(Put(token, now, expiresIn), later) == Lookup(None, Empty)
  {
  }

  /** At exactly `expiry - 60` the token is already gone. */
  lemma BoundaryIsExpired(c: Cache, now: int)
    requires c.token.Some? && c.expiry.Some? && now == c.expiry.value - EXPIRY_MARGIN
    ensures Read(c, now) == Lookup(None, Empty)
  {
  }

  /** Once expired a token stays expired: reads at later times find nothing either. */
  lemma ExpiryIsMonotone(c: Cache, now: int, later: int)
    requires Consistent(c) && now <= later && Read(c, now).value.None?
    ensures Read(Read(c, now).after, later).value.None?
    ensures Read(c, later).value.None?
  {
  }

  /** Reading twice at the same instant gives the same answer and the same cache. */
  lemma ReadIsStable(c: Cache, now: int)
    ensures Read(Read(c, now).after, now).value == Read(c, now).value
    ensures Read(Read(c, now).after, now).after == Read(c, now).after
  {
  }

  /**
   * A token stored for an hour is served 100 seconds before its expiry and
   * refused 59 seconds before it.
   */
  lemma HourLongTokenExample(token: string, now: int)
    ensures Read(Put(token, now, 3600), now + 3500).value == Some(token)
    ensures Read(Put(token, now, 3600), now + 3541).value == None
  {
  }

  /** A token stored for 120 seconds is served up to `now + 59` and refused from `now + 60`. */
  lemma ShortTokenExample(now: int)
    ensures forall t :: now <= t < now + 60 ==> Read(Put("abc", now, 120), t).value == Some("abc")
    ensures forall t :: t >= now + 60 ==> Read(Put("abc", now, 120), t).value == None
  {
  }
}

/** The credential store: merchant identity, the active environment and the token cache. */
module Stores {
  import opened Wrappers
  import opened TokenCache
  import opened Environments

  class Store {
    var environment: Environment
    /** The PV, used as OAuth client id. */
    var filiation: string
    /** The integration key, used as OAuth client secret. */
    var token: string
    var accessToken: Option<string>
    var accessTokenExpiry: Option<int>

    /** The token and its expiry are both set or both null; the environment came from a factory. */
    ghost predicate Valid()
      reads this
    {
      Consistent(Cached()) && environment.Valid()
    }

    function Cached(): Cache
      reads this
    {
      Cache(accessToken, accessTokenExpiry)
    }

    /** Without an environment the store targets production. */
    constructor (filiation: string, token: string, environment: Environment?)
      requires environment != null ==> environment.Valid()
      ensures Valid() && Cached() == Empty
      ensures this.filiation == filiation && this.token == token
      ensures environment != null ==> this.environment == environment
      ensures environment == null ==> fresh(this.environment) && this.environment.Valid() && this.environment.IsProduction()
    {
      this.filiation := filiation;
      this.token := token;
      var chosen: Environment;
      if environment == null {
        chosen := Environment.Production();
      } else {
        chosen := environment;
      }
      this.environment := chosen;
      accessToken := None;
      accessTokenExpiry := None;
    }

    /** The environment given at construction or by the last `SetEnvironment`; always a well-formed one. */
    function GetEnvironment(): (e: Environment)
      reads this
      ensures e == environment
      ensures Valid() ==> e.Valid()
    {
      environment
    }

    /** The filiation given at construction or by the last `SetFiliation`. */
    function GetFiliation(): (f: string)
      reads this
      ensures f == filiation
    {
      filiation
    }

    /** The integration key given at construction or by the last `SetToken`. */
    function GetToken(): (t: string)
      reads this
      ensures t == token
    {
      token
    }

    method SetEnvironment(environment: Environment)
      requires Valid() && environment.Valid()
      modifies this
      ensures Valid() && this.environment == environment
      ensures filiation == old(filiation) && token == old(token) && Cached() == old(Cached())
    {
      this.environment := environment;
    }

    method SetFiliation(filiation: string)
      requires Valid()
      modifies this
      ensures Valid() && this.filiation == filiation
      ensures environment == old(environment) && token == old(token) && Cached() == old(Cached())
    {
      this.filiation := filiation;
    }

    method SetToken(token: string)
      requires Valid()
      modifies this
      ensures Valid() && this.token == token
      ensures environment == old(environment) && filiation == old(filiation) && Cached() == old(Cached())
    {
      this.token := token;
    }

    /** The cached token if still usable at `now`; an expired one is dropped with its expiry. */
    method GetAccessToken(now: int) returns (t: Option<string>)
      requires Valid()
      modifies this
      ensures Valid()
      ensures t == Read(old(Cached()), now).value && Cached() == Read(old(Cached()), now).after
      ensures t.Some? <==> Usable(old(Cached()), now)
      ensures environment == old(environment) && filiation == old(filiation) && token == old(token)
    {
      if accessToken == None {
        return None;
      }
      if accessTokenExpiry.Some? && now >= accessTokenExpiry.value - EXPIRY_MARGIN {
        accessToken := None;
        accessTokenExpiry := None;
        return None;
      }
      t := accessToken;
    }

    method SetAccessToken(accessToken: string, now: int, expiresIn: int := DEFAULT_EXPIRES_IN)
      requires Valid()
      modifies this
      ensures Valid() && Cached() == Put(accessToken, now, expiresIn)
      ensures environment == old(environment) && filiation == old(filiation) && token == old(token)
    {
      this.accessToken := Some(accessToken);
      accessTokenExpiry := Some(now + expiresIn);
    }

    method InvalidateAccessToken()
      requires Valid()
      modifies this
      ensures Valid() && Cached() == Empty
      ensures environment == old(environment) && filiation == old(filiation) && token == old(token)
    {
      accessToken := None;
      accessTokenExpiry := None;
    }
  }

  /** Each setter's value is what its getter returns afterwards, whatever the other setters did; the token cache is untouched. */
  method SetThenGet(s: Store, e: Environment, filiation: string, token: string)
    requires s.Valid() && e.Valid()
    modifies s
    ensures s.Valid()
    ensures s.GetEnvironment() == e && s.GetFiliation() == filiation && s.GetToken() == token
    ensures s.Cached() == old(s.Cached())
  {
    s.SetFiliation(filiation);
    s.SetToken(token);
    s.SetEnvironment(e);
  }

  /** Invalidating twice leaves the store exactly as invalidating once. */
  method InvalidateTwice(s: Store)
    requires s.Valid()
    modifies s
    ensures s.Valid() && s.Cached() == Empty
    ensures s.environment == old(s.environment) && s.filiation == old(s.filiation) && s.token == old(s.token)
  {
    s.InvalidateAccessToken();
    ghost var once := s.Cached();
    s.InvalidateAccessToken();
    assert s.Cached() == once;
  }

  /** The cache walks NoToken -> Cached -> NoToken as time passes the margin. */
  method Lifecycle(s: Store, t: string, now: int, later: int) returns (first: Option<string>, second: Option<string>)
    requires s.Valid() && now <= later
    modifies s
    ensures first == Some(t)
    ensures second.Some? <==> later < now + 1440 - EXPIRY_MARGIN
    ensures second.Some? ==> second == Some(t)
    ensures second.None? ==> s.Cached() == Empty
  {
    s.SetAccessToken(t, now);
    first := s.GetAccessToken(now);
    second := s.GetAccessToken(later);
  }
}
