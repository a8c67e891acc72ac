/**
 * The documents the server keeps (hotels, user and admin accounts, bookings), the
 * request payloads it reads, the replies it sends, and lookups over the collections.
 * A Mongo ObjectId is a natural number here; the store hands out fresh ones.
 */
module Records {
  import opened Wrappers

  type Id = nat

  /** A stored image: declared content type and raw bytes. */
  datatype Image = Image(contentType: string, data: seq<bv8>)

  /** A file received in a multipart upload: its MIME type and its bytes. */
  datatype UploadedFile = UploadedFile(mimetype: string, bytes: seq<bv8>)

  datatype Hotel = Hotel(id: Id, name: string, price: int, city: string, img: Image)

  /** A user or an admin: both collections share this shape. `passwordHash` is what the hasher returned. */
  datatype Account = Account(id: Id, username: string, email: string, passwordHash: string)

  /** A reservation. Dates are milliseconds since the epoch. */
  datatype Booking = Booking(
    id: Id, user: Id, hotel: Id,
    checkInDate: int, checkOutDate: int,
    roomType: string, personCount: int, totalPrice: int)

  /** `booking.personCount || "Unknown Person Count"` is either the number or the placeholder text. */
  datatype CountOrLabel = Count(n: int) | Label(text: string)

  /** One entry of the caller's booking list. */
  datatype BookingDetail = BookingDetail(
    hotelName: string, userName: string, totalPrice: int,
    checkInDate: int, checkOutDate: int,
    personCount: CountOrLabel, roomType: string)

  /** The account fields a successful login sends back. */
  datatype PublicUser = PublicUser(id: Id, username: string, email: string)

  datatype Body =
    | Message(text: string)
    | BookingCreated(message: string, booking: Booking)
    | HotelUpdated(message: string, hotel: Hotel)
    | HotelDoc(hotel: Hotel)
    | HotelList(hotels: seq<Hotel>)
    | LoggedIn(token: string, user: PublicUser)
    | Details(details: seq<BookingDetail>)
    | AccountList(accounts: seq<Account>)

  /** What a handler does with the response. */
  datatype Reply =
    | Json(status: nat, body: Body)             // res.status(..).json(..)
    | Plain(status: nat, text: string)          // res.status(..).send(..)
    | Forwarded(message: string, httpStatusCode: nat)  // next(error)
    | NoReply                                   // the handler returns without responding

  /** JavaScript truthiness of an optional string field: present and not empty. */
  predicate Truthy(field: Option<string>) {
    field.Some? && field.value != ""
  }

  /** The first element of `s` that satisfies `p`, as a document query returning the first match. */
  function FirstWhere<T>(s: seq<T>, p: T -> bool): (r: Option<nat>)
    ensures r.Some? ==> r.value < |s| && p(s[r.value])
    ensures r.Some? ==> forall j :: 0 <= j < r.value ==> !p(s[j])
    ensures r.None? ==> forall j :: 0 <= j < |s| ==> !p(s[j])
  {
    if |s| == 0 then None
    else if p(s[0]) then Some(0)
    else
      match FirstWhere(s[1..], p)
      case None => None
      case Some(k) => Some(k + 1)
  }

  /** The elements of `s` that satisfy `p`, in their order in `s`: a document query returning every match. */
  function Keep<T(!new)>(s: seq<T>, p: T -> bool): (r: seq<T>)
    ensures |r| <= |s|
    ensures forall x :: x in r <==> x in s && p(x)
  {
    if s == [] then []
    else
      var rest := Keep(s[1..], p);
      assert forall x :: x in s <==> x == s[0] || x in s[1..];
      if p(s[0]) then [s[0]] + rest else rest
  }

  /** Keeping never reorders: one more element at the end is kept at the end, when it matches. */
  lemma {:induction false} KeepAppend<T(!new)>(s: seq<T>, x: T, p: T -> bool)
    ensures Keep(s + [x], p) == Keep(s, p) + (if p(x) then [x] else [])
  {
    if s != [] {
      assert (s + [x])[1..] == s[1..] + [x];
      KeepAppend(s[1..], x, p);
    }
  }

  /** When every element matches, all of them are kept, in order. */
  lemma {:induction false} KeepAll<T(!new)>(s: seq<T>, p: T -> bool)
    requires forall j :: 0 <= j < |s| ==> p(s[j])
    ensures Keep(s, p) == s
  {
    if s != [] {
      KeepAll(s[1..], p);
    }
  }

  /** `findById` on the hotel collection. */
  function HotelIndex(hotels: seq<Hotel>, id: Id): (r: Option<nat>)
    ensures r.Some? ==> r.value < |hotels| && hotels[r.value].id == id
    ensures r.Some? ==> forall j :: 0 <= j < r.value ==> hotels[j].id != id
    ensures r.None? ==> forall j :: 0 <= j < |hotels| ==> hotels[j].id != id
  {
    FirstWhere(hotels, (h: Hotel) => h.id == id)
  }

  /** `findById` on an account collection (what `populate("user")` performs). */
  function AccountIndex(accounts: seq<Account>, id: Id): (r: Option<nat>)
    ensures r.Some? ==> r.value < |accounts| && accounts[r.value].id == id
    ensures r.Some? ==> forall j :: 0 <= j < r.value ==> accounts[j].id != id
    ensures r.None? ==> forall j :: 0 <= j < |accounts| ==> accounts[j].id != id
  {
    FirstWhere(accounts, (a: Account) => a.id == id)
  }

  /** `findOne({ email })` on an account collection: the first account with that email. */
  function EmailIndex(accounts: seq<Account>, email: string): (r: Option<nat>)
    ensures r.Some? ==> r.value < |accounts| && accounts[r.value].email == email
    ensures r.Some? ==> forall j :: 0 <= j < r.value ==> accounts[j].email != email
    ensures r.None? ==> forall j :: 0 <= j < |accounts| ==> accounts[j].email != email
  {
    FirstWhere(accounts, (a: Account) => a.email == email)
  }

  /** No two hotels share an id. */
  ghost predicate DistinctHotelIds(hotels: seq<Hotel>) {
    forall i, j :: 0 <= i < j < |hotels| ==> hotels[i].id != hotels[j].id
  }

  /** With distinct ids, the hotel `findById` returns is the only one with that id. */
  lemma HotelIndexIsTheOne(hotels: seq<Hotel>, k: nat)
    requires DistinctHotelIds(hotels) && k < |hotels|
    ensures HotelIndex(hotels, hotels[k].id) == Some(k)
  {
  }

  /** The collection without its element at index `k`, the others in order (`findByIdAndDelete`). */
  function RemoveAt<T>(s: seq<T>, k: nat): (r: seq<T>)
    requires k < |s|
    ensures |r| == |s| - 1
    ensures forall j :: 0 <= j < k ==> r[j] == s[j]
    ensures forall j :: k <= j < |r| ==> r[j] == s[j + 1]
  {
    s[..k] + s[k + 1..]
  }

  /** Removing the hotel at `k` from hotels with distinct ids removes exactly the hotels with its id. */
  lemma RemoveHotel(hotels: seq<Hotel>, k: nat)
    requires DistinctHotelIds(hotels) && k < |hotels|
    ensures DistinctHotelIds(RemoveAt(hotels, k))
    ensures forall h :: h in RemoveAt(hotels, k) <==> h in hotels && h.id != hotels[k].id
  {
  }
}
