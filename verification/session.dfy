/**
 * The session issuer: `generate_jwt(secret, expiration)` on a user and the
 * validation the request extractor performs on a bearer token. Signing is
 * modelled abstractly: a signature records the key and the claims it was
 * made over, and only the holder of the same key can reproduce it.
 */
module Session {
  import opened Wrappers

  /** The claims a session token carries: the user's public id and its expiry. */
  datatype Claims = Claims(pid: string, exp: int)

  /** Stand-in for a symmetric signature over the claims. */
  datatype Signature = Signature(key: string, signed: Claims)

  /** A decoded session token. */
  datatype Jwt = Jwt(claims: Claims, signature: Signature)

  function Sign(secret: string, c: Claims): Signature {
    Signature(secret, c)
  }

  /** Issues a token for `pid` at time `now`, valid for `ttl` minutes. */
  function Issue(pid: string, secret: string, now: int, ttl: nat): (t: Jwt)
    ensures t.claims.pid == pid
    ensures t.claims.exp == now + ttl
  {
    var c := Claims(pid, now + ttl);
    Jwt(c, Sign(secret, c))
  }

  /** The pid of a token whose signature checks under `secret` and that has not expired. */
  function Validate(t: Jwt, secret: string, now: int): (r: Option<string>)
    ensures r.Some? <==> t.signature == Sign(secret, t.claims) && now <= t.claims.exp
    ensures r.Some? ==> r.value == t.claims.pid
  {
    if t.signature == Sign(secret, t.claims) && now <= t.claims.exp then Some(t.claims.pid) else None
  }

  /** A token validates, to its own pid, under its secret until it expires. */
  lemma IssueThenValidate(pid: string, secret: string, issuedAt: int, ttl: nat, now: int)
    requires now <= issuedAt + ttl
    ensures Validate(Issue(pid, secret, issuedAt, ttl), secret, now) == Some(pid)
  {
  }

  /** Rotating the secret invalidates every token issued under the old one. */
  lemma OtherSecretRejects(pid: string, secret: string, other: string, issuedAt: int, ttl: nat, now: int)
    requires other != secret
    ensures Validate(Issue(pid, secret, issuedAt, ttl), other, now) == None
  {
  }

  /** A token is rejected once its lifetime has elapsed. */
  lemma ExpiredRejects(pid: string, secret: string, issuedAt: int, ttl: nat, now: int)
    requires now > issuedAt + ttl
    ensures Validate(Issue(pid, secret, issuedAt, ttl), secret, now) == None
  {
  }
}
