/**
 * The claim set that `JWTAuthentication.format_jwt` signs, and the JSON Web
 * Token codec it signs with (PyJWT, HS256). The codec's HMAC and base64
 * internals are not part of this model: it is a pair of functions chosen by
 * the caller, and the pipeline is proved for every such pair.
 */
module Tokens {
  import opened Wrappers

  /** `datetime.timedelta(minutes=10)`, in seconds. */
  const TokenLifetime: int := 10 * 60

  /** The claims of an issued token; times are whole seconds since the epoch. */
  datatype Claims = Claims(iat: int, exp: int, sub: string, githubLogin: string, githubToken: string)

  /** The string-valued claims of a decoded token, by claim name. */
  type ClaimMap = map<string, string>

  /**
   * `jwt.encode(claims, secret)` and `jwt.decode(token, secret)` at time
   * `now`; decode gives None where PyJWT raises `InvalidTokenError` (bad
   * signature, malformed token, expired token).
   */
  datatype Codec = Codec(encode: (Claims, string) -> string, decode: (string, string, int) -> Option<ClaimMap>)

  /** The claim set for a user at time `now`: issued now, expiring ten minutes later. */
  function MintClaims(now: int, userid: string, login: string, bearerToken: string): (c: Claims)
    ensures c.iat == now && c.exp == now + TokenLifetime
    ensures c.exp - c.iat == 10 * 60
    ensures c.sub == userid && c.githubLogin == login && c.githubToken == bearerToken
  {
    Claims(iat := now, exp := now + TokenLifetime, sub := userid, githubLogin := login, githubToken := bearerToken)
  }

  /** The string claims a decoder reads back from a token carrying `c`. */
  function StringClaims(c: Claims): ClaimMap
  {
    map["sub" := c.sub, "github_login" := c.githubLogin, "github_token" := c.githubToken]
  }

  /**
   * The property expected of a JWT codec: a token decodes, with the secret
   * it was signed with and before it expires, to the claims it was made
   * from. The pipeline does not rely on it; it is a hypothesis of the
   * issue-then-refresh lemma only.
   */
  ghost predicate RoundTrips(codec: Codec)
  {
    forall c: Claims, secret: string, now: int | now < c.exp ::
      codec.decode(codec.encode(c, secret), secret, now) == Some(StringClaims(c))
  }
}
