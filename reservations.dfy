/**
 * Bookings: the record `/api/book` stores and the projection `/api/my-bookings` returns,
 * which joins each booking with its hotel's name and its user's username.
 */
module Reservations {
  import opened Wrappers
  import opened Records
  import Pricing

  /** The body of a booking request, dates already read as milliseconds. */
  datatype BookingRequest = BookingRequest(
    hotelId: Id, checkInDate: int, checkOutDate: int, roomType: string, personCount: int)

  const UNKNOWN_HOTEL: string := "Unknown Hotel"
  const UNKNOWN_USER: string := "Unknown User"
  const UNKNOWN_PERSON_COUNT: string := "Unknown Person Count"
  const UNKNOWN_ROOM_TYPE: string := "Unknown Room Type"

  /** The booking saved for `user` at `hotel`; its price is the price rule applied to the request's dates. */
  function NewBooking(id: Id, user: Id, req: BookingRequest, hotel: Hotel): (b: Booking)
    requires hotel.id == req.hotelId
    ensures b.id == id && b.user == user && b.hotel == hotel.id
    ensures b.checkInDate == req.checkInDate && b.checkOutDate == req.checkOutDate
    ensures b.roomType == req.roomType && b.personCount == req.personCount
    ensures b.totalPrice == Pricing.Days(req.checkInDate, req.checkOutDate) * hotel.price
  {
    Booking(id, user, req.hotelId, req.checkInDate, req.checkOutDate, req.roomType, req.personCount,
            Pricing.TotalPrice(req.checkInDate, req.checkOutDate, hotel.price))
  }

  /** `Booking.find({ user })`: the bookings of one user, in store order. */
  function OwnedBy(bookings: seq<Booking>, user: Id): (r: seq<Booking>)
    ensures |r| <= |bookings|
    ensures forall b :: b in r <==> b in bookings && b.user == user
  {
    Keep(bookings, (b: Booking) => b.user == user)
  }

  lemma OwnedByAppend(bookings: seq<Booking>, b: Booking, user: Id)
    ensures OwnedBy(bookings + [b], user) == OwnedBy(bookings, user) + (if b.user == user then [b] else [])
  {
    KeepAppend(bookings, b, (b: Booking) => b.user == user);
  }

  /** One entry of the list: populated names with their placeholders, and the `||` fallbacks of the other fields.
      A `Date` is always truthy, so the two dates never fall back; an integer total is falsy only when 0,
      where the fallback 0 is the same value. */
  function Detail(b: Booking, hotels: seq<Hotel>, users: seq<Account>): (d: BookingDetail)
    ensures (forall j :: 0 <= j < |hotels| ==> hotels[j].id != b.hotel) ==> d.hotelName == UNKNOWN_HOTEL
    ensures (forall j :: 0 <= j < |users| ==> users[j].id != b.user) ==> d.userName == UNKNOWN_USER
    ensures forall j :: 0 <= j < |hotels| && hotels[j].id == b.hotel && (forall i :: 0 <= i < j ==> hotels[i].id != b.hotel) ==>
              d.hotelName == if hotels[j].name != "" then hotels[j].name else UNKNOWN_HOTEL
    ensures forall j :: 0 <= j < |users| && users[j].id == b.user && (forall i :: 0 <= i < j ==> users[i].id != b.user) ==>
              d.userName == if users[j].username != "" then users[j].username else UNKNOWN_USER
    ensures d.hotelName != UNKNOWN_HOTEL ==> exists j :: 0 <= j < |hotels| && hotels[j].id == b.hotel && hotels[j].name == d.hotelName
    ensures d.userName != UNKNOWN_USER ==> exists j :: 0 <= j < |users| && users[j].id == b.user && users[j].username == d.userName
    ensures d.totalPrice == b.totalPrice
    ensures d.checkInDate == b.checkInDate && d.checkOutDate == b.checkOutDate
    ensures d.personCount == if b.personCount != 0 then Count(b.personCount) else Label(UNKNOWN_PERSON_COUNT)
    ensures d.roomType == if b.roomType != "" then b.roomType else UNKNOWN_ROOM_TYPE
  {
    var hotelName := match HotelIndex(hotels, b.hotel)
      case Some(k) => hotels[k].name
      case None => "";
    var userName := match AccountIndex(users, b.user)
      case Some(k) => users[k].username
      case None => "";
    BookingDetail(
      if hotelName != "" then hotelName else UNKNOWN_HOTEL,
      if userName != "" then userName else UNKNOWN_USER,
      if b.totalPrice != 0 then b.totalPrice else 0,
      b.checkInDate,
      b.checkOutDate,
      if b.personCount != 0 then Count(b.personCount) else Label(UNKNOWN_PERSON_COUNT),
      if b.roomType != "" then b.roomType else UNKNOWN_ROOM_TYPE)
  }

  function Details(bookings: seq<Booking>, hotels: seq<Hotel>, users: seq<Account>): (r: seq<BookingDetail>)
    ensures |r| == |bookings|
    ensures forall i :: 0 <= i < |bookings| ==> r[i] == Detail(bookings[i], hotels, users)
  {
    seq(|bookings|, i requires 0 <= i < |bookings| => Detail(bookings[i], hotels, users))
  }

  /** The list `/api/my-bookings` sends to `user`: one entry per booking of that user, in store order. */
  function MyBookings(bookings: seq<Booking>, hotels: seq<Hotel>, users: seq<Account>, user: Id): seq<BookingDetail> {
    Details(OwnedBy(bookings, user), hotels, users)
  }

  /** A new booking shows up at the end of its own user's list and nowhere else. */
  lemma MyBookingsAfterBooking(bookings: seq<Booking>, b: Booking, hotels: seq<Hotel>, users: seq<Account>, user: Id)
    ensures MyBookings(bookings + [b], hotels, users, user) ==
      MyBookings(bookings, hotels, users, user) + (if b.user == user then [Detail(b, hotels, users)] else [])
  {
    OwnedByAppend(bookings, b, user);
  }

  /** After the hotel at index `k` is deleted, every booking that referenced it is listed with hotel name "Unknown Hotel". */
  lemma DeletedHotelIsUnknown(b: Booking, hotels: seq<Hotel>, k: nat, users: seq<Account>)
    requires DistinctHotelIds(hotels) && k < |hotels| && b.hotel == hotels[k].id
    ensures Detail(b, RemoveAt(hotels, k), users).hotelName == UNKNOWN_HOTEL
  {
  }
}
