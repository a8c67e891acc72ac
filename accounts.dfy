/**
 * Login against a credential collection (`/api/login`, `/api/admin/login`). Password
 * comparison is an oracle standing for `bcrypt.compare`; the token comes from the signer.
 */
module Accounts {
  import opened Wrappers
  import opened Records
  import opened Auth

  /** `bcrypt.compare(plaintext, hash)`. */
  type Comparer = (string, string) -> bool

  const INVALID_CREDENTIALS: string := "Invalid email or password"

  /** The one reply for every failed login. */
  function InvalidCredentials(): Reply {
    Json(400, Message(INVALID_CREDENTIALS))
  }

  /** The reply of a successful login: a token for `{ id, email }` and the public account fields. */
  function Welcome(a: Account, cfg: Config, sign: Signer, now: int): Reply {
    Json(200, LoggedIn(sign(Claims(a.id, a.email), cfg.jwtSecret, now), PublicUser(a.id, a.username, a.email)))
  }

  /** Whichever index holds the first account with `email` is the one `findOne` returns. */
  lemma EmailIndexIsFirstMatch(accounts: seq<Account>, email: string)
    ensures forall i :: 0 <= i < |accounts| && accounts[i].email == email
                        && (forall j :: 0 <= j < i ==> accounts[j].email != email) ==>
              EmailIndex(accounts, email) == Some(i)
  {
  }

  /** Login over one collection. The first account with the email decides; an unknown email
      and a wrong password get the same reply. */
  function Login(accounts: seq<Account>, email: string, password: string,
                 compare: Comparer, cfg: Config, sign: Signer, now: int): (r: Reply)
    ensures (forall j :: 0 <= j < |accounts| ==> accounts[j].email != email) ==> r == InvalidCredentials()
    ensures forall i :: 0 <= i < |accounts| && accounts[i].email == email
                        && (forall j :: 0 <= j < i ==> accounts[j].email != email) ==>
              r == if compare(password, accounts[i].passwordHash) then Welcome(accounts[i], cfg, sign, now)
                   else InvalidCredentials()
  {
    EmailIndexIsFirstMatch(accounts, email);
    match EmailIndex(accounts, email)
    case None => InvalidCredentials()
    case Some(i) =>
      if !compare(password, accounts[i].passwordHash) then InvalidCredentials()
      else Welcome(accounts[i], cfg, sign, now)
  }

  /** A login reply is either the invalid-credentials reply or a 200 whose token embeds exactly
      the id and email of an account holding that email. */
  lemma LoginOutcomes(accounts: seq<Account>, email: string, password: string,
                      compare: Comparer, cfg: Config, sign: Signer, now: int)
    ensures var r := Login(accounts, email, password, compare, cfg, sign, now);
      r == InvalidCredentials() ||
      exists i :: 0 <= i < |accounts| && accounts[i].email == email && compare(password, accounts[i].passwordHash)
                  && r == Welcome(accounts[i], cfg, sign, now)
  {
  }

  /** Anti-enumeration: an unknown email and a known email with a wrong password cannot be told apart. */
  lemma UnknownEmailLooksLikeWrongPassword(accounts: seq<Account>, unknown: string, known: string,
                                           p1: string, p2: string,
                                           compare: Comparer, cfg: Config, sign: Signer, now: int)
    requires forall j :: 0 <= j < |accounts| ==> accounts[j].email != unknown
    requires forall j :: 0 <= j < |accounts| && accounts[j].email == known ==> !compare(p2, accounts[j].passwordHash)
    ensures Login(accounts, unknown, p1, compare, cfg, sign, now) == Login(accounts, known, p2, compare, cfg, sign, now)
  {
  }

  /** Under honest tokens, the token of a successful login is accepted by the middleware, with exactly
      the account's id and email, for eight hours. The middleware is the same for user and admin routes,
      so a token from either login opens both route sets. */
  lemma LoginTokenAuthenticates(accounts: seq<Account>, email: string, password: string,
                                compare: Comparer, cfg: Config, sign: Signer, verify: Verifier,
                                issuedAt: int, now: int)
    requires HonestJwt(sign, verify)
    requires Login(accounts, email, password, compare, cfg, sign, issuedAt).Json?
    requires Login(accounts, email, password, compare, cfg, sign, issuedAt).body.LoggedIn?
    requires issuedAt <= now < issuedAt + TOKEN_LIFETIME_MS
    ensures var r := Login(accounts, email, password, compare, cfg, sign, issuedAt);
      Authenticate(cfg, Some(BEARER_PREFIX + r.body.token), verify, now)
        == Proceed(Claims(r.body.user.id, r.body.user.email))
  {
    var i := EmailIndex(accounts, email).value;
    var a := accounts[i];
    SignedTokenLifetime(cfg, sign, verify, Claims(a.id, a.email), issuedAt, now);
  }
}
