/** The token service of internal/auth/auth.go: configuration defaults, the
    checks applied to a verified Google ID token, and the claims of the
    application's own JWT. Signature checking, signing and parsing belong to
    foreign libraries and enter the model as inputs. */
module Auth {
  import opened Base

  /** time.Duration is counted in nanoseconds. */
  const Second: int := 1_000_000_000
  const Hour: int := 3600 * Second

  /** Expiration used when the configuration leaves it zero. */
  const DefaultExpiration: int := 24 * Hour

  datatype Config = Config(googleClientId: string, jwtSecret: seq<bv8>, jwtExpiration: int)

  datatype Service = Service(config: Config)

  /** NewService keeps the configuration, except that a zero expiration
      becomes 24 hours. */
  function NewService(config: Config): (s: Service)
    ensures s.config.googleClientId == config.googleClientId
    ensures s.config.jwtSecret == config.jwtSecret
    ensures config.jwtExpiration != 0 ==> s.config == config
    ensures config.jwtExpiration == 0 ==> s.config.jwtExpiration == DefaultExpiration
    ensures s.config.jwtExpiration != 0
  {
    if config.jwtExpiration == 0 then Service(config.(jwtExpiration := DefaultExpiration))
    else Service(config)
  }

  /** A claim value of a decoded ID-token payload. */
  datatype ClaimValue = StringClaim(s: string) | BoolClaim(b: bool) | OtherClaim

  /** The claims of a payload that the verification library accepted. */
  type Payload = map<string, ClaimValue>

  /** `claims[k].(string)` with the failure ignored: "" when the claim is
      missing or not a string. */
  function StringClaimOf(p: Payload, k: string): (s: string)
    ensures k in p && p[k].StringClaim? ==> s == p[k].s
    ensures !(k in p && p[k].StringClaim?) ==> s == ""
  {
    if k in p then (match p[k] case StringClaim(v) => v case _ => "") else ""
  }

  /** `claims[k].(bool)` with the failure ignored: false when the claim is
      missing or not a boolean. */
  function BoolClaimOf(p: Payload, k: string): (b: bool)
    ensures b <==> k in p && p[k] == BoolClaim(true)
  {
    if k in p then (match p[k] case BoolClaim(v) => v case _ => false) else false
  }

  const GoogleIssuers: set<string> := {"https://accounts.google.com", "accounts.google.com"}

  datatype GoogleTokenInfo = GoogleTokenInfo(email: string, googleId: string, name: string,
                                             picture: string, verified: bool)

  datatype GoogleTokenError =
    | VerificationFailed
    | InvalidIssuer(issuer: string)
    | InvalidAudience(expected: string, got: string)
    | InvalidToken

  /** ValidateGoogleIDToken. `verified` is what idtoken.Validate returned:
      the payload, or None when the library rejected the token. */
  function ValidateGoogleIDToken(s: Service, verified: Option<Payload>): (r: Result<GoogleTokenInfo, GoogleTokenError>)
    ensures verified.None? ==> r == Err(VerificationFailed)
    ensures r.Ok? <==>
      && verified.Some?
      && StringClaimOf(verified.value, "iss") in GoogleIssuers
      && StringClaimOf(verified.value, "aud") == s.config.googleClientId
      && StringClaimOf(verified.value, "email") != ""
      && StringClaimOf(verified.value, "sub") != ""
    ensures verified.Some? && StringClaimOf(verified.value, "iss") !in GoogleIssuers ==>
      r == Err(InvalidIssuer(StringClaimOf(verified.value, "iss")))
    ensures r == Err(InvalidToken) <==>
      && verified.Some?
      && StringClaimOf(verified.value, "iss") in GoogleIssuers
      && StringClaimOf(verified.value, "aud") == s.config.googleClientId
      && (StringClaimOf(verified.value, "email") == "" || StringClaimOf(verified.value, "sub") == "")
    ensures r.Ok? ==> r.value == GoogleTokenInfo(
      StringClaimOf(verified.value, "email"),
      StringClaimOf(verified.value, "sub"),
      StringClaimOf(verified.value, "name"),
      StringClaimOf(verified.value, "picture"),
      BoolClaimOf(verified.value, "email_verified"))
  {
    match verified
    case None => Err(VerificationFailed)
    case Some(payload) =>
      var issuer := StringClaimOf(payload, "iss");
      if issuer != "https://accounts.google.com" && issuer != "accounts.google.com" then
        Err(InvalidIssuer(issuer))
      else
        var audience := StringClaimOf(payload, "aud");
        if audience != s.config.googleClientId then
          Err(InvalidAudience(s.config.googleClientId, audience))
        else
          var email := StringClaimOf(payload, "email");
          var sub := StringClaimOf(payload, "sub");
          var name := StringClaimOf(payload, "name");
          var picture := StringClaimOf(payload, "picture");
          var emailVerified := BoolClaimOf(payload, "email_verified");
          if email == "" || sub == "" then Err(InvalidToken)
          else Ok(GoogleTokenInfo(email, sub, name, picture, emailVerified))
  }

  /** The claims GenerateJWT signs; times in nanoseconds. */
  datatype JwtClaims = JwtClaims(userId: int, email: string, expiresAt: int, issuedAt: int, notBefore: int)

  /** The claims of GenerateJWT for a user at time `now`. */
  function GenerateJWTClaims(s: Service, userId: int, email: string, now: int): (c: JwtClaims)
    ensures c.userId == userId && c.email == email
    ensures c.issuedAt == now && c.notBefore == c.issuedAt
    ensures c.expiresAt - c.issuedAt == s.config.jwtExpiration
  {
    JwtClaims(userId, email, now + s.config.jwtExpiration, now, now)
  }

  /** A token generated by a service built with NewService from an
      expiration-less configuration is valid for exactly 24 hours. */
  lemma DefaultTokenLifetime(config: Config, userId: int, email: string, now: int)
    requires config.jwtExpiration == 0
    ensures var c := GenerateJWTClaims(NewService(config), userId, email, now);
      c.expiresAt == now + 86_400 * Second
  {
  }
}
