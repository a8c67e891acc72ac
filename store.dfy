/**
 * The four collections (hotels, users, admins, bookings) as one in-memory store whose
 * handlers update it in place. `nextId` stands for the database's generation of fresh
 * ObjectIds: every id in the store is below it.
 */
module Store {
  import opened Wrappers
  import opened Records
  import opened Auth
  import opened Catalog
  import opened Reservations

  /** Which credential collection a registration or login uses. */
  datatype Role = Customer | Administrator

  /** `bcrypt.hash(password, 10)`; its salt is not modelled. */
  type Hasher = string -> string

  /** No two accounts of a collection share an email: registration refuses duplicates. */
  ghost predicate DistinctEmails(accounts: seq<Account>) {
    forall i, j :: 0 <= i < j < |accounts| ==> accounts[i].email != accounts[j].email
  }

  function DuplicateMessage(role: Role): string {
    if role == Customer then "User with this email already exists" else "Admin with this email already exists"
  }

  function RegisteredMessage(role: Role): string {
    if role == Customer then "User registered successfully" else "Admin registered successfully"
  }

  class Database {
    var hotels: seq<Hotel>
    var users: seq<Account>
    var admins: seq<Account>
    var bookings: seq<Booking>
    var nextId: nat

    ghost predicate Valid()
      reads this
    {
      && DistinctHotelIds(hotels)
      && DistinctEmails(users)
      && DistinctEmails(admins)
      && (forall i :: 0 <= i < |hotels| ==> hotels[i].id < nextId)
      && (forall i :: 0 <= i < |users| ==> users[i].id < nextId)
      && (forall i :: 0 <= i < |admins| ==> admins[i].id < nextId)
      && (forall i :: 0 <= i < |bookings| ==> bookings[i].id < nextId)
    }

    /** The credential collection of a role. */
    function Accounts(role: Role): seq<Account>
      reads this
    {
      if role == Customer then users else admins
    }

    constructor ()
      ensures Valid()
      ensures hotels == [] && users == [] && admins == [] && bookings == []
    {
      hotels, users, admins, bookings, nextId := [], [], [], [], 0;
    }

    /** `POST /api/uploadphoto`: a missing file is passed on as an error with code 400; a missing or empty
        field ends the handler without a response; otherwise one hotel is created, and fetching it by its
        new id gives back the name, price, city and image bytes that were sent. */
    method Upload(file: Option<UploadedFile>, form: HotelForm, parsePrice: PriceParser) returns (r: Reply)
      requires Valid()
      modifies this
      ensures Valid()
      ensures users == old(users) && admins == old(admins) && bookings == old(bookings)
      ensures file.None? ==> r == Forwarded("Please upload a file", 400)
      ensures file.Some? && !FormComplete(form) ==> r == NoReply
      ensures !(file.Some? && FormComplete(form)) ==> hotels == old(hotels) && nextId == old(nextId)
      ensures file.Some? && FormComplete(form) ==>
        && r == Json(200, Message("Uploading successful"))
        && hotels == old(hotels) + [NewHotel(old(nextId), form, file.value, parsePrice)]
        && nextId == old(nextId) + 1
        && GetHotel(hotels, old(nextId)) == Json(200, HotelDoc(NewHotel(old(nextId), form, file.value, parsePrice)))
    {
      if file.None? {
        return Forwarded("Please upload a file", 400);
      }
      if !Truthy(form.name) || !Truthy(form.price) || !Truthy(form.city) {
        return NoReply;
      }
      var hotel := NewHotel(nextId, form, file.value, parsePrice);
      hotels := hotels + [hotel];
      nextId := nextId + 1;
      HotelIndexIsTheOne(hotels, |hotels| - 1);
      r := Json(200, Message("Uploading successful"));
    }

    /** `DELETE /api/hotels/:id`: an unknown id is a 404 and changes nothing; otherwise exactly the hotel
        with that id is removed and the others keep their order. */
    method Delete(id: Id) returns (r: Reply)
      requires Valid()
      modifies this
      ensures Valid()
      ensures users == old(users) && admins == old(admins) && bookings == old(bookings) && nextId == old(nextId)
      ensures HotelIndex(old(hotels), id).None? ==> r == Json(404, Message("Hotel not found")) && hotels == old(hotels)
      ensures HotelIndex(old(hotels), id).Some? ==>
        var k := HotelIndex(old(hotels), id).value;
        r == Json(200, Message("Hotel deleted successfully")) && hotels == RemoveAt(old(hotels), k)
      ensures forall h :: h in hotels <==> h in old(hotels) && h.id != id
    {
      var found := HotelIndex(hotels, id);
      if found.None? {
        return Json(404, Message("Hotel not found"));
      }
      var k := found.value;
      RemoveHotel(hotels, k);
      hotels := RemoveAt(hotels, k);
      r := Json(200, Message("Hotel deleted successfully"));
    }

    /** `PUT /api/hotels/:id`: an unknown id is a 404 and changes nothing; otherwise the hotel with that
        id becomes `Patch` of itself and no other hotel changes. */
    method Update(id: Id, form: HotelForm, file: Option<UploadedFile>, parsePrice: PriceParser) returns (r: Reply)
      requires Valid()
      modifies this
      ensures Valid()
      ensures users == old(users) && admins == old(admins) && bookings == old(bookings) && nextId == old(nextId)
      ensures HotelIndex(old(hotels), id).None? ==> r == Json(404, Message("Hotel not found")) && hotels == old(hotels)
      ensures HotelIndex(old(hotels), id).Some? ==>
        var k := HotelIndex(old(hotels), id).value;
        && hotels == old(hotels)[k := Patch(old(hotels)[k], form, file, parsePrice)]
        && r == Json(200, HotelUpdated("Hotel updated successfully", hotels[k]))
      ensures |hotels| == |old(hotels)|
      ensures forall j :: 0 <= j < |hotels| && old(hotels)[j].id != id ==> hotels[j] == old(hotels)[j]
    {
      var found := HotelIndex(hotels, id);
      if found.None? {
        return Json(404, Message("Hotel not found"));
      }
      var k := found.value;
      var hotel := hotels[k];
      hotel := hotel.(name := if Truthy(form.name) then form.name.value else hotel.name);
      hotel := hotel.(price := if Truthy(form.price) then parsePrice(form.price.value) else hotel.price);
      hotel := hotel.(city := if Truthy(form.city) then form.city.value else hotel.city);
      if file.Some? {
        hotel := hotel.(img := ImageOf(file.value));
      }
      hotels := hotels[k := hotel];
      r := Json(200, HotelUpdated("Hotel updated successfully", hotel));
    }

    /** `POST /api/register` and `POST /api/admin/register`: a taken email is a 400 and changes nothing;
        otherwise the role's collection grows by exactly one account holding the hash of the password. */
    method Register(role: Role, username: string, email: string, password: string, hash: Hasher) returns (r: Reply)
      requires Valid()
      modifies this
      ensures Valid()
      ensures hotels == old(hotels) && bookings == old(bookings)
      ensures Accounts(if role == Customer then Administrator else Customer)
           == old(Accounts(if role == Customer then Administrator else Customer))
      ensures (exists j :: 0 <= j < |old(Accounts(role))| && old(Accounts(role))[j].email == email) ==>
        && r == Json(400, Message(DuplicateMessage(role)))
        && Accounts(role) == old(Accounts(role)) && nextId == old(nextId)
      ensures (forall j :: 0 <= j < |old(Accounts(role))| ==> old(Accounts(role))[j].email != email) ==>
        && r == Json(201, Message(RegisteredMessage(role)))
        && Accounts(role) == old(Accounts(role)) + [Account(old(nextId), username, email, hash(password))]
        && nextId == old(nextId) + 1
    {
      if EmailIndex(Accounts(role), email).Some? {
        return Json(400, Message(DuplicateMessage(role)));
      }
      var account := Account(nextId, username, email, hash(password));
      if role == Customer {
        users := users + [account];
      } else {
        admins := admins + [account];
      }
      nextId := nextId + 1;
      r := Json(201, Message(RegisteredMessage(role)));
    }

    /** `POST /api/book` for the authenticated `user`: an unknown hotel is a 404 and changes nothing;
        otherwise exactly one booking is appended, made out to the token's id and priced by the day rule. */
    method Book(user: Claims, req: BookingRequest) returns (r: Reply)
      requires Valid()
      modifies this
      ensures Valid()
      ensures hotels == old(hotels) && users == old(users) && admins == old(admins)
      ensures HotelIndex(hotels, req.hotelId).None? ==>
        r == Json(404, Message("Hotel not found")) && bookings == old(bookings) && nextId == old(nextId)
      ensures HotelIndex(hotels, req.hotelId).Some? ==>
        var b := NewBooking(old(nextId), user.id, req, hotels[HotelIndex(hotels, req.hotelId).value]);
        && bookings == old(bookings) + [b]
        && nextId == old(nextId) + 1
        && r == Json(201, BookingCreated("Booking successful", b))
    {
      var found := HotelIndex(hotels, req.hotelId);
      if found.None? {
        return Json(404, Message("Hotel not found"));
      }
      var booking := NewBooking(nextId, user.id, req, hotels[found.value]);
      bookings := bookings + [booking];
      nextId := nextId + 1;
      r := Json(201, BookingCreated("Booking successful", booking));
    }
  }
}
