# Hotel booking server — a Dafny model of its application logic

The server is an Express application backed by a document database. It keeps hotel
listings (name, nightly price, city, image), user and admin accounts, and bookings.
This project models the logic that sits under that plumbing, over an in-memory store:

- the two authentication middlewares (`authenticateAdmin`, `authenticateUser`), which turn
  an optional `Authorization` header into "no token" (401), "invalid token" (401) or
  "proceed with the decoded identity";
- registration and login for users and for admins, with a hash function, a password
  comparison, a token signer and a token verifier standing in for bcrypt and JSON Web Tokens;
- hotel upload, update (partial field replacement), fetch by id and delete by id;
- the query `GET /api/search` builds from its `name` and `city` parameters, and the search it runs;
- booking a hotel, with its price rule `ceil((checkOut - checkIn) / 86 400 000) * price`;
- the "my bookings" projection, which joins each of the caller's bookings with its hotel and
  user and falls back to placeholder text for missing references and falsy fields.

Layout, one module per file:

| file | module | contents |
|---|---|---|
| wrappers.dfy | Wrappers | `Option` |
| text.dfy | Text | first-occurrence `replace`, JavaScript `trim`, ASCII lower-casing, substring search |
| pricing.dfy | Pricing | the day count and the total price of a stay |
| records.dfy | Records | documents, replies, lookups by id and by email, removal by index |
| auth.dfy | Auth | configuration, token oracles, the middleware decision |
| accounts.dfy | Accounts | login over a credential collection |
| catalog.dfy | Catalog | new hotel, partial update, fetch by id, search filter and search |
| reservations.dfy | Reservations | the booking record and the my-bookings projection |
| store.dfy | Store | class `Database`: the four collections and the handlers that change them |
| routes.dfy | Routes | handlers behind the middleware and read-only endpoints |

The handlers that change the database (upload, update, delete, register, book) are methods
of the class `Store.Database`, whose fields are the collections; each states the whole new
state in terms of the old one and keeps the invariant `Valid()` (distinct hotel ids,
distinct emails per account collection, every id below the next fresh id). Read-only logic
(login, search, the my-bookings projection, the middleware decision, the price rule) is
written as functions, with lemmas relating the operations to one another.

Three behaviours of the code are worth stating plainly:

- The middleware removes the first occurrence of `"Bearer "` wherever it stands and verifies
  what is left, so a bare token is verified as it is and `"xBearer y"` is verified as `"xy"`
  (`Auth.RawHeader`, `Auth.BearerHeader`).
- A header that leaves nothing after that removal (`"Bearer "` alone) is answered as
  "no token", like a missing header (`Auth.BarePrefixIsNoToken`).
- An upload without a file is not answered by the handler: it attaches `httpStatusCode = 400`
  to an error and forwards it to `next`; the model records that forwarding (`Forwarded`).

## Model

| member | source | states |
|---|---|---|
| Text.IndexOf | src/index.js:404 | the index returned is an occurrence of the pattern and no earlier index is one; none is returned only when the pattern occurs nowhere |
| Text.ReplaceFirstOfPrefix | src/index.js:404 | `Text.ReplaceFirst` (the `replace` call) turns `pattern + rest` into `replacement + rest` |
| Text.ReplaceFirstAbsent | src/index.js:404 | `Text.ReplaceFirst` leaves a string without the pattern unchanged |
| Text.TrimEmptyIff | src/index.js:159 | `Text.Trim` (JavaScript `trim()`) gives `""` exactly when every character is JavaScript whitespace |
| Text.ContainsIgnoringCaseIff | src/index.js:160 | the case-insensitive test holds exactly when some position of the lowered field starts the lowered pattern |
| Pricing.CeilDiv | src/index.js:522 | `Math.ceil(a / b)` for a positive divisor is the least `r` with `a <= r * b` |
| Pricing.Days | src/index.js:522 | the day count is the least whole number of days covering `checkOut - checkIn` |
| Pricing.DaysUnique | src/index.js:522 | any whole number meeting that bracketing is the day count |
| Pricing.WholeDays | src/index.js:522-524 | a span of exactly `n` days counts `n` days and `Pricing.TotalPrice` is `n * price` |
| Pricing.PartialDayRoundsUp | src/index.js:522 | `n` days plus part of a day counts `n + 1` days |
| Pricing.BackwardsStayNotPositive | src/index.js:520-524 | check-out at or before check-in is accepted with a day count of zero or less (zero when equal) |
| Pricing.ThreeNightsAtOneHundred | src/index.js:520-524 | 2024-01-01 to 2024-01-04 at 100 costs 300 |
| Records.FirstWhere | src/index.js:285 | the first element satisfying the query, or none when no element does |
| Records.Keep | src/index.js:168 | an element is kept exactly when it is in the collection and matches the query |
| Records.KeepAppend | src/index.js:168 | keeping preserves collection order: an element added at the end is kept at the end when it matches |
| Records.KeepAll | src/index.js:168 | when every element matches, the whole collection is returned in order |
| Records.HotelIndex | src/index.js:191 | `findById` on hotels: a hotel with the id, or none when no hotel has it |
| Records.AccountIndex | src/index.js:549-550 | `populate("user")`: an account with the id, or none when no account has it |
| Records.EmailIndex | src/index.js:257 | `findOne({ email })`: the first account with the email, or none when no account has it |
| Records.HotelIndexIsTheOne | src/index.js:221 | with distinct ids, looking a hotel up by its id finds that very hotel |
| Records.RemoveAt | src/index.js:143 | removal keeps the elements before the index and shifts those after it down by one |
| Records.RemoveHotel | src/index.js:143 | removing a hotel keeps ids distinct and removes exactly the hotels with its id |
| Auth.LoadConfig | src/index.js:16 | the secret is the environment variable when it is non-empty, otherwise `"your_jwt_secret"`; never empty |
| Auth.Authenticate | src/index.js:395-419 | a missing or empty header, or an empty token after `Auth.TokenOf` (the replace), is "no token"; a token the verifier rejects is "invalid token"; otherwise the decision carries exactly the verified claims. `authenticateUser` (src/index.js:483-507) is the same code and secret, so one function models both |
| Auth.Denial | src/index.js:398-418 | "no token" answers 401 "No token provided, authorization denied"; "invalid token" answers 401 "Invalid token, authorization denied" |
| Auth.BearerHeader | src/index.js:404-418 | `Bearer <token>` is judged on `<token>` alone |
| Auth.BarePrefixIsNoToken | src/index.js:404-410 | the header `"Bearer "` alone is "no token" |
| Auth.RawHeader | src/index.js:404-418 | a header without the prefix is verified as it stands |
| Auth.SignedTokenLifetime | src/index.js:295-297 | a token signed with the configured secret is accepted with its claims for 8 hours and is "invalid token" afterwards |
| Accounts.EmailIndexIsFirstMatch | src/index.js:285 | whichever index holds the first account with the email is the one the lookup returns |
| Accounts.Login | src/index.js:281-307 | unknown email gives `Accounts.InvalidCredentials` (400 "Invalid email or password"); otherwise the first account with the email decides: wrong password gives the same reply, right password `Accounts.Welcome`, a token for its id and email with its public fields |
| Accounts.LoginOutcomes | src/index.js:285-302 | every login reply is the invalid-credentials reply or the welcome of an account holding that email whose password compares equal |
| Accounts.UnknownEmailLooksLikeWrongPassword | src/index.js:286-293 | an unknown email and a wrong password give identical replies |
| Accounts.LoginTokenAuthenticates | src/index.js:295-297 | the token of a successful login passes the middleware for 8 hours, carrying exactly the account's id and email |
| Catalog.Patch | src/index.js:196-208 | the id never changes; a truthy name, price or city replaces the old value (the price parsed), and a file sets the image to that file's type and bytes |
| Catalog.PatchKeepsUnsupplied | src/index.js:196-208 | a missing or empty name, price or city keeps its old value; the image changes only to the supplied file's |
| Catalog.EmptyPatchIsIdentity | src/index.js:196-208 | an update supplying nothing (absent or empty fields, no file) leaves the hotel as it was |
| Catalog.PatchIdempotent | src/index.js:196-210 | applying the same update twice equals applying it once |
| Catalog.FullPatchIsNewHotel | src/index.js:196-206 | an update supplying every field and a file gives the document an upload of the same form would create |
| Catalog.GetHotel | src/index.js:219-230 | a hotel with the id exists exactly when the reply is 200 with such a hotel; otherwise the reply is a plain 404 "Hotel not found" |
| Catalog.BuildFilter | src/index.js:155-165 | a field gets a constraint exactly when its parameter is present and not all whitespace; the pattern is the parameter untrimmed |
| Catalog.Search | src/index.js:168 | a hotel is in the result exactly when it is in the store and matches every constraint; the result is `Records.Keep` of the store, so store order is kept |
| Catalog.SearchAppend | src/index.js:168 | the search keeps store order: a hotel added at the end appears at the end of the result when it matches |
| Catalog.BlankSearchReturnsAll | src/index.js:157-168 | with no usable parameter every hotel is returned, in order |
| Catalog.CityOnlySearch | src/index.js:159-168 | an empty name and city `"pAr"` give a city-only filter that selects exactly the hotels whose city contains "par" in any case |
| Reservations.NewBooking | src/index.js:520-534 | the booking gets the fresh id, is made out to the caller and the hotel, keeps the request's dates, room type and person count, and is priced `Days(checkIn, checkOut) * price` |
| Reservations.OwnedBy | src/index.js:548 | a booking is selected exactly when it is in the store and belongs to the user; the result is `Records.Keep` of the store |
| Reservations.OwnedByAppend | src/index.js:548 | the selection keeps store order |
| Reservations.Detail | src/index.js:552-560 | the first hotel with the booking's hotel id gives its name, or "Unknown Hotel" when there is none or its name is empty; likewise the first user with the booking's user id gives its username, or "Unknown User"; the total is the booking's (an integer total falls back to 0 only when it is 0); person count 0 gives "Unknown Person Count"; empty room type "Unknown Room Type" |
| Reservations.Details | src/index.js:552-560 | one entry per booking, each the detail of the booking at the same position |
| Reservations.MyBookingsAfterBooking | src/index.js:548-560 | `Reservations.MyBookings` after a new booking is the old list plus that booking's detail at the end for its own user, and unchanged for every other user |
| Reservations.DeletedHotelIsUnknown | src/index.js:553 | after its hotel is deleted, a booking is listed with "Unknown Hotel" |
| Store.Database.Upload | src/index.js:75-115 | no file: error forwarded with code 400; a missing or empty field: no response; either way nothing changes. Otherwise exactly one hotel, `Catalog.NewHotel` of the form and file, is appended, and fetching its id returns the name, parsed price, city and image bytes sent |
| Store.Database.Delete | src/index.js:140-152 | unknown id: 404 and no change; otherwise the hotels are exactly the old ones without that id, in order |
| Store.Database.Update | src/index.js:186-217 | unknown id: 404 and no change; otherwise that hotel becomes its patch, the reply carries it, and no other hotel changes |
| Store.Database.Register | src/index.js:253-279 | email already in the role's collection: 400 and no change; otherwise that collection grows by one account whose stored password is `hash(password)`; the other collection is untouched (admin copy src/index.js:334-360) |
| Store.Database.Book | src/index.js:510-543 | unknown hotel: 404 and bookings unchanged; otherwise exactly one booking is appended, with the token's id as user and the day-rule price |
| Routes.BookRoute | src/index.js:483-510 | on a 401 (the `Auth.Denial` reply) the booking handler does not run and the store is unchanged; otherwise it books under the decoded identity: 404 with no change for an unknown hotel, else one booking appended and 201 "Booking successful" with it |
| Routes.MyBookingsRoute | src/index.js:546-567 | the `Auth.Denial` reply when the middleware denies; otherwise 200 with one entry per booking of the token's id, in store order |
| Routes.AdminUsersRoute | src/index.js:422-430 | the `Auth.Denial` reply when the middleware denies; otherwise 200 with every user document |
| Routes.LoginRoute | src/index.js:362-388 | over the role's own collection (admins for src/index.js:362-388, users for :281-307): unknown email gives the invalid-credentials reply; an existing email is decided by the first account holding it: the right password gives its welcome (token and public fields), a wrong one the invalid-credentials reply; every reply is that one or the welcome of an account in that collection holding the email whose password compares equal |
| Routes.SearchRoute | src/index.js:154-184 | 200 with exactly the stored hotels that match the filter built from the parameters |
| Routes.CrossRoleToken | src/index.js:483-507 | a token from either login passes the middleware guarding user routes and the one guarding admin routes |

## Left out

- HTTP wiring: routing, CORS, body parsing, the port and `app.listen`; handlers take their request fields as parameters.
- The database connection and schema validation (required fields, the email format, the unique index on usernames); the store is in memory, so a duplicate username is accepted where the database would raise an error.
- Every 500 path (`catch` blocks): the in-memory store never fails, and hashing and signing are total functions. Ids are natural numbers here, so a malformed id (which makes `findById` throw a cast error, answered 500 rather than 404) is not modelled.
- Accounts.Login: the email is always a string here. A login body without an email makes `findOne({ email })` behave as `findOne({})`, which returns an arbitrary account, and the server then decides the login by that account's password; the model does not capture this.
- Store.Database.Register: the email is always a string here. A registration body without an email makes `findOne({ email })` behave as `findOne({})`, so the server refuses it as a duplicate whenever the collection is non-empty; the model does not capture this.
- File handling: multer's disk storage, temporary file names, `readFileSync` and `unlinkSync`. The base64 encoding and decoding of an image is taken to return the same bytes.
- bcrypt: hashing and comparison are function parameters; the salt is not modelled.
- Store.Database.Register: states that the stored password is `hash(password)`; that this differs from the plaintext is a property of bcrypt, not of this code.
- JSON Web Tokens: signing and verification are function parameters and the clock is the parameter `now`. `Auth.HonestJwt` states what the lemmas assume of them; the whole-second rounding of the expiry time is not modelled.
- Numbers: prices are integers and `parseFloat` is a parameter from string to integer; dates are integer milliseconds, so the `NaN` that an unparsable price or date produces is not modelled.
- Search patterns are regular expressions in the server; the model reads them as literal text and folds only ASCII letters for the case-insensitive match. A query parameter given as an array is not modelled.
- The status Express's default error handler picks for the error forwarded by the upload handler: the model records the forwarded message and its `httpStatusCode` only.
- `GET /api/bookings` (every hotel with its image as base64) and `GET /api/admin/bookings` (every booking with populated user and hotel): read-only listings with no decision in them.
- `POST /api/logout` and `POST /api/admin/logout`: they answer a fixed message and change nothing.
- Concurrent requests: each handler runs as one step on the store.
