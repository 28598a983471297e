/** JSON Web Tokens (RFC 7519) as the authentication service sees them: a set of claims. Signing,
    encoding and signature checking belong to the JWT library and are not modelled here; a token's
    string form is an abstract function of its claims, supplied by the service. */
module Jwt {
  import opened Wrappers

  type UserId = nat

  /** The `jti` claim (section 4.1.7 of RFC 7519): a freshly generated unique identifier. */
  type Jti = string

  /** The library's `token_type` claim. */
  datatype Kind = Access | Refresh

  /** The claims the service relies on: the token type, the user id claim (the subject), `jti`,
      `iat` (section 4.1.6 of RFC 7519) and `exp` (section 4.1.4), times on the server clock. */
  datatype Claims = Claims(kind: Kind, subject: UserId, jti: Jti, iat: int, exp: int)

  /** `RefreshToken.for_user(user)`: a refresh token for the user with the generated `jti`,
      issued `now` and valid for `lifetime`. */
  function ForUser(subject: UserId, jti: Jti, now: int, lifetime: int): (c: Claims)
    ensures c.kind == Refresh && c.subject == subject && c.jti == jti
    ensures c.iat == now && c.exp - c.iat == lifetime
  {
    Claims(Refresh, subject, jti, now, now + lifetime)
  }

  /** `refresh.access_token`: an access token with its own `jti` and an expiry `lifetime` after
      `from`, the refresh token's creation time. The library copies every other claim of the
      refresh token, `iat` included. */
  function AccessOf(refresh: Claims, jti: Jti, from: int, lifetime: int): (a: Claims)
    ensures a.kind == Access && a.jti == jti && a.exp == from + lifetime
    ensures a.(kind := refresh.kind, jti := refresh.jti, exp := refresh.exp) == refresh
  {
    Claims(Access, refresh.subject, jti, refresh.iat, from + lifetime)
  }

  /** The library's blacklist check, made when a refresh token is constructed from its string:
      a decoded token whose `jti` is blacklisted is refused. */
  function CheckBlacklist(decoded: Option<Claims>, blacklist: set<Jti>): (r: Option<Claims>)
    ensures r.Some? ==> r == decoded && r.value.jti !in blacklist
    ensures decoded.Some? && decoded.value.jti !in blacklist ==> r == decoded
  {
    if decoded.Some? && decoded.value.jti in blacklist then None else decoded
  }

  /** A token object of the JWT library; its setters change its claims in place. */
  class Token {
    var claims: Claims

    constructor (claims: Claims)
      ensures this.claims == claims
    {
      this.claims := claims;
    }

    /** `set_jti()`: a new unique identifier (the generator is a parameter). */
    method SetJti(jti: Jti)
      modifies this
      ensures claims == old(claims).(jti := jti)
    {
      claims := claims.(jti := jti);
    }

    /** `set_exp()`: expiry `lifetime` after `from`. */
    method SetExp(from: int, lifetime: int)
      modifies this
      ensures claims == old(claims).(exp := from + lifetime)
    {
      claims := claims.(exp := from + lifetime);
    }

    /** `set_iat()`: issued at `at`. */
    method SetIat(at: int)
      modifies this
      ensures claims == old(claims).(iat := at)
    {
      claims := claims.(iat := at);
    }
  }
}
