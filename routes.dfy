/**
 * Handlers as the router runs them: the protected ones behind the authentication
 * middleware, which calls the handler only when it decides to proceed, and the
 * read-only endpoints over the store.
 */
module Routes {
  import opened Wrappers
  import opened Records
  import opened Auth
  import opened Accounts
  import opened Catalog
  import opened Reservations
  import opened Store

  /** `POST /api/book` behind `authenticateUser`: on a 401 the booking handler does not run and the store is
      untouched; otherwise the handler runs with the decoded identity. */
  method BookRoute(db: Database, cfg: Config, header: Option<string>, verify: Verifier, now: int, req: BookingRequest)
    returns (r: Reply)
    requires db.Valid()
    modifies db
    ensures db.Valid()
    ensures !Authenticate(cfg, header, verify, now).Proceed? ==>
      && r == Denial(Authenticate(cfg, header, verify, now))
      && db.hotels == old(db.hotels) && db.users == old(db.users) && db.admins == old(db.admins)
      && db.bookings == old(db.bookings) && db.nextId == old(db.nextId)
    ensures Authenticate(cfg, header, verify, now).Proceed? ==>
      var user := Authenticate(cfg, header, verify, now).user;
      && db.hotels == old(db.hotels) && db.users == old(db.users) && db.admins == old(db.admins)
      && (HotelIndex(db.hotels, req.hotelId).None? ==>
            r == Json(404, Message("Hotel not found")) && db.bookings == old(db.bookings) && db.nextId == old(db.nextId))
      && (HotelIndex(db.hotels, req.hotelId).Some? ==>
            var b := NewBooking(old(db.nextId), user.id, req, db.hotels[HotelIndex(db.hotels, req.hotelId).value]);
            && db.bookings == old(db.bookings) + [b]
            && db.nextId == old(db.nextId) + 1
            && r == Json(201, BookingCreated("Booking successful", b)))
  {
    var decision := Authenticate(cfg, header, verify, now);
    if !decision.Proceed? {
      return Denial(decision);
    }
    r := db.Book(decision.user, req);
  }

  /** `GET /api/my-bookings` behind `authenticateUser`: the caller's bookings, by the id in the token. */
  function MyBookingsRoute(db: Database, cfg: Config, header: Option<string>, verify: Verifier, now: int): (r: Reply)
    reads db
    ensures !Authenticate(cfg, header, verify, now).Proceed? ==> r == Denial(Authenticate(cfg, header, verify, now))
    ensures Authenticate(cfg, header, verify, now).Proceed? ==>
      && r.Json? && r.status == 200 && r.body.Details?
      && var mine := OwnedBy(db.bookings, Authenticate(cfg, header, verify, now).user.id);
      && |r.body.details| == |mine|
      && forall i :: 0 <= i < |mine| ==> r.body.details[i] == Detail(mine[i], db.hotels, db.users)
  {
    var decision := Authenticate(cfg, header, verify, now);
    if !decision.Proceed? then Denial(decision)
    else Json(200, Details(MyBookings(db.bookings, db.hotels, db.users, decision.user.id)))
  }

  /** `GET /api/admin/users` behind `authenticateAdmin`: every user document, password hashes included. */
  function AdminUsersRoute(db: Database, cfg: Config, header: Option<string>, verify: Verifier, now: int): (r: Reply)
    reads db
    ensures !Authenticate(cfg, header, verify, now).Proceed? ==> r == Denial(Authenticate(cfg, header, verify, now))
    ensures Authenticate(cfg, header, verify, now).Proceed? ==> r == Json(200, AccountList(db.users))
  {
    var decision := Authenticate(cfg, header, verify, now);
    if !decision.Proceed? then Denial(decision) else Json(200, AccountList(db.users))
  }

  /** `POST /api/login` and `POST /api/admin/login`. */
  function LoginRoute(db: Database, role: Role, email: string, password: string,
                      compare: Comparer, cfg: Config, sign: Signer, now: int): (r: Reply)
    reads db
    ensures (forall j :: 0 <= j < |db.Accounts(role)| ==> db.Accounts(role)[j].email != email) ==> r == InvalidCredentials()
    ensures forall i :: 0 <= i < |db.Accounts(role)| && db.Accounts(role)[i].email == email
                        && (forall j :: 0 <= j < i ==> db.Accounts(role)[j].email != email) ==>
              r == if compare(password, db.Accounts(role)[i].passwordHash) then Welcome(db.Accounts(role)[i], cfg, sign, now)
                   else InvalidCredentials()
    ensures r == InvalidCredentials() ||
      exists i :: 0 <= i < |db.Accounts(role)| && db.Accounts(role)[i].email == email
                  && compare(password, db.Accounts(role)[i].passwordHash)
                  && r == Welcome(db.Accounts(role)[i], cfg, sign, now)
  {
    LoginOutcomes(db.Accounts(role), email, password, compare, cfg, sign, now);
    Login(db.Accounts(role), email, password, compare, cfg, sign, now)
  }

  /** `GET /api/search`. */
  function SearchRoute(db: Database, name: Option<string>, city: Option<string>): (r: Reply)
    reads db
    ensures r.Json? && r.status == 200 && r.body.HotelList?
    ensures forall h :: h in r.body.hotels <==> h in db.hotels && Matches(BuildFilter(name, city), h)
  {
    Json(200, HotelList(Search(db.hotels, BuildFilter(name, city))))
  }

  /** An admin's token passes `authenticateUser` and a user's token passes `authenticateAdmin`: a token from
      either login, presented within eight hours, makes the middleware proceed with the id and email it was
      issued for. */
  lemma CrossRoleToken(db: Database, role: Role, email: string, password: string, compare: Comparer,
                       cfg: Config, sign: Signer, verify: Verifier, issuedAt: int, now: int)
    requires HonestJwt(sign, verify)
    requires LoginRoute(db, role, email, password, compare, cfg, sign, issuedAt) != InvalidCredentials()
    requires issuedAt <= now < issuedAt + TOKEN_LIFETIME_MS
    ensures var login := LoginRoute(db, role, email, password, compare, cfg, sign, issuedAt);
      Authenticate(cfg, Some(BEARER_PREFIX + login.body.token), verify, now) == Proceed(Claims(login.body.user.id, login.body.user.email))
  {
    LoginTokenAuthenticates(db.Accounts(role), email, password, compare, cfg, sign, verify, issuedAt, now);
  }
}
