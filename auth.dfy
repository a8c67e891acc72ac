/**
 * Token issuing and the two authentication middlewares (`authenticateAdmin`,
 * `authenticateUser`). JSON Web Token signing and verification are oracles passed
 * in as functions; the clock is the parameter `now` (milliseconds).
 */
module Auth {
  import opened Wrappers
  import opened Records
  import Text

  /** The identity a token carries: `{ id, email }`. */
  datatype Claims = Claims(id: Id, email: string)

  /** `jwt.sign(claims, secret, { expiresIn: "8h" })` issued at time `issuedAt`. */
  type Signer = (Claims, string, int) -> string

  /** `jwt.verify(token, secret)` at time `now`: the decoded claims, or `None` where it throws. */
  type Verifier = (string, string, int) -> Option<Claims>

  /** Process-wide configuration read once at start-up. */
  datatype Config = Config(jwtSecret: string)

  const DEFAULT_JWT_SECRET: string := "your_jwt_secret"

  /** `"8h"`: a token's lifetime in milliseconds. */
  const TOKEN_LIFETIME_MS: int := 8 * 60 * 60 * 1000

  const BEARER_PREFIX: string := "Bearer "
  const NO_TOKEN_MESSAGE: string := "No token provided, authorization denied"
  const INVALID_TOKEN_MESSAGE: string := "Invalid token, authorization denied"

  /** `process.env.JWT_SECRET || "your_jwt_secret"`: a missing or empty variable falls back to the default. */
  function LoadConfig(jwtSecretVar: Option<string>): (cfg: Config)
    ensures cfg.jwtSecret != ""
    ensures Truthy(jwtSecretVar) ==> cfg.jwtSecret == jwtSecretVar.value
    ensures !Truthy(jwtSecretVar) ==> cfg.jwtSecret == DEFAULT_JWT_SECRET
  {
    if Truthy(jwtSecretVar) then Config(jwtSecretVar.value) else Config(DEFAULT_JWT_SECRET)
  }

  /** The signer and verifier behave as JSON Web Tokens do: a token verifies under the secret
      it was signed with, to the claims it was signed with, until its lifetime runs out. */
  ghost predicate HonestJwt(sign: Signer, verify: Verifier) {
    && (forall c, k, t :: sign(c, k, t) != "")
    && (forall c, k, t, now :: verify(sign(c, k, t), k, now)
          == if now < t + TOKEN_LIFETIME_MS then Some(c) else None)
  }

  /** The three ways a middleware can decide. */
  datatype Decision = NoToken | InvalidToken | Proceed(user: Claims)

  /** `authHeader.replace("Bearer ", "")`. */
  function TokenOf(header: string): string {
    Text.ReplaceFirst(header, BEARER_PREFIX, "")
  }

  /** The decision of `authenticateAdmin` and of `authenticateUser`, which share their code and `JWT_SECRET`. */
  function Authenticate(cfg: Config, header: Option<string>, verify: Verifier, now: int): (d: Decision)
    ensures d == NoToken <==> !Truthy(header) || TokenOf(header.value) == ""
    ensures d == InvalidToken <==>
      Truthy(header) && TokenOf(header.value) != "" && verify(TokenOf(header.value), cfg.jwtSecret, now).None?
    ensures d.Proceed? ==> Truthy(header) && verify(TokenOf(header.value), cfg.jwtSecret, now) == Some(d.user)
  {
    if !Truthy(header) then NoToken
    else
      var token := TokenOf(header.value);
      if token == "" then NoToken
      else
        match verify(token, cfg.jwtSecret, now)
        case None => InvalidToken
        case Some(claims) => Proceed(claims)
  }

  /** The 401 response of a middleware that does not call the handler. */
  function Denial(d: Decision): (r: Reply)
    requires !d.Proceed?
    ensures d == NoToken ==> r == Json(401, Message(NO_TOKEN_MESSAGE))
    ensures d == InvalidToken ==> r == Json(401, Message(INVALID_TOKEN_MESSAGE))
  {
    Json(401, Message(if d == NoToken then NO_TOKEN_MESSAGE else INVALID_TOKEN_MESSAGE))
  }

  /** A `Bearer <token>` header is judged on `<token>` alone, whatever `<token>` contains. */
  lemma BearerHeader(cfg: Config, token: string, verify: Verifier, now: int)
    ensures Authenticate(cfg, Some(BEARER_PREFIX + token), verify, now) ==
      if token == "" then NoToken
      else if verify(token, cfg.jwtSecret, now).None? then InvalidToken
      else Proceed(verify(token, cfg.jwtSecret, now).value)
  {
    Text.ReplaceFirstOfPrefix(BEARER_PREFIX, token, "");
    assert TokenOf(BEARER_PREFIX + token) == token;
    assert |BEARER_PREFIX + token| > 0;
  }

  /** `"Bearer "` alone leaves nothing to verify. */
  lemma BarePrefixIsNoToken(cfg: Config, verify: Verifier, now: int)
    ensures Authenticate(cfg, Some(BEARER_PREFIX), verify, now) == NoToken
  {
  }

  /** A header without the prefix anywhere in it is verified as it stands. */
  lemma RawHeader(cfg: Config, header: string, verify: Verifier, now: int)
    requires header != ""
    requires forall j :: 0 <= j ==> !Text.OccursAt(header, BEARER_PREFIX, j)
    ensures Authenticate(cfg, Some(header), verify, now) ==
      if verify(header, cfg.jwtSecret, now).None? then InvalidToken
      else Proceed(verify(header, cfg.jwtSecret, now).value)
  {
  }

  /** Under honest tokens, a bearer header carrying a token signed with the configured secret
      is accepted, with exactly the signed claims, for eight hours, and rejected as invalid from then on. */
  lemma SignedTokenLifetime(cfg: Config, sign: Signer, verify: Verifier, claims: Claims, issuedAt: int, now: int)
    requires HonestJwt(sign, verify)
    ensures Authenticate(cfg, Some(BEARER_PREFIX + sign(claims, cfg.jwtSecret, issuedAt)), verify, now) ==
      if now < issuedAt + TOKEN_LIFETIME_MS then Proceed(claims) else InvalidToken
  {
    BearerHeader(cfg, sign(claims, cfg.jwtSecret, issuedAt), verify, now);
  }
}
