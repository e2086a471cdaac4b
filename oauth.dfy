/**
 * The token lifecycle both platform clients implement in the same way
 * (services/ghl.js and services/podium.js): a token record is either valid
 * or expired and in need of a refresh; a code exchange and a refresh each
 * produce a new record whose expiry is the current time plus the granted
 * lifetime in milliseconds.
 */
module OAuth {
  import opened Js
  import opened Http
  import opened TokenStore

  /** `now >= v` for an integer now, with v converted to a number as JavaScript does
      for booleans and null; every other value compares as false in the model, where
      JavaScript would convert a numeric string or an array to a number. */
  predicate NotBefore(now: int, v: Json)
  {
    match v
    case Num(n) => now >= n
    case Bool(b) => now >= (if b then 1 else 0)
    case Null => now >= 0
    case _ => false
  }

  /** `!r.access_token || now >= (r.expires_at || 0)`: the record must be refreshed. */
  predicate NeedsRefresh(r: Record, now: int)
    // a numeric expiry is compared as it is
    ensures Field(r, "expires_at").Num? ==>
      (NeedsRefresh(r, now) <==> !Truthy(Field(r, "access_token")) || now >= Field(r, "expires_at").n)
    // a missing or falsy expiry counts as 0
    ensures !Truthy(Field(r, "expires_at")) ==>
      (NeedsRefresh(r, now) <==> !Truthy(Field(r, "access_token")) || now >= 0)
    // without an access token a refresh is always due
    ensures !Truthy(Field(r, "access_token")) ==> NeedsRefresh(r, now)
  {
    !Truthy(Field(r, "access_token")) || NotBefore(now, Or(Field(r, "expires_at"), Num(0)))
  }

  /** A record without an expiry is refreshed on every call made at a
      non-negative clock reading, whatever its access token. */
  lemma MissingExpiryForcesRefresh(r: Record, now: int)
    requires now >= 0 && !Truthy(Field(r, "expires_at"))
    ensures NeedsRefresh(r, now)
  {
  }

  /** `now + expires_in * 1000`, in milliseconds. */
  function ExpiresAt(g: TokenGrant, now: int): (e: int)
    ensures e > now <==> g.expiresIn > 0
    ensures e == now <==> g.expiresIn == 0
    ensures e - now == g.expiresIn * 1000
  {
    now + g.expiresIn * 1000
  }

  /** `{ access_token, refresh_token, expires_at }` built from a code exchange's answer. */
  function GrantedRecord(g: TokenGrant, now: int): (r: Record)
    ensures Field(r, "access_token") == g.accessToken
    ensures Field(r, "refresh_token") == g.refreshToken
    ensures Field(r, "expires_at") == Num(ExpiresAt(g, now))
    ensures Truthy(g.accessToken) ==> forall t :: NeedsRefresh(r, t) <==> t >= ExpiresAt(g, now)
    ensures !Truthy(g.accessToken) ==> forall t :: NeedsRefresh(r, t)
  {
    map["access_token" := g.accessToken,
        "refresh_token" := g.refreshToken,
        "expires_at" := Num(ExpiresAt(g, now))]
  }

  /** The record after a refresh: as granted, except that the refresh token
      rotates only when the answer carries a truthy one. */
  function RefreshedRecord(prev: Record, g: TokenGrant, now: int): (r: Record)
    ensures Field(r, "access_token") == g.accessToken
    ensures Field(r, "refresh_token") == (if Truthy(g.refreshToken) then g.refreshToken else Field(prev, "refresh_token"))
    ensures Field(r, "expires_at") == Num(ExpiresAt(g, now))
    ensures Truthy(Field(prev, "refresh_token")) ==> Truthy(Field(r, "refresh_token"))
    ensures Truthy(g.accessToken) ==> forall t :: NeedsRefresh(r, t) <==> t >= ExpiresAt(g, now)
  {
    map["access_token" := g.accessToken,
        "refresh_token" := Or(g.refreshToken, Field(prev, "refresh_token")),
        "expires_at" := Num(ExpiresAt(g, now))]
  }

  /** A refresh of a record whose expiry has passed, with a positive lifetime, moves the expiry strictly later. */
  lemma RefreshMovesExpiryLater(prev: Record, g: TokenGrant, now: int, e: int)
    requires Field(prev, "expires_at") == Num(e) && e <= now && g.expiresIn > 0
    ensures Field(RefreshedRecord(prev, g, now), "expires_at").n > e
  {
  }
}
