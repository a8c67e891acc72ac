/**
 * Hotel listing logic that does not itself touch the store: building a hotel from an
 * upload form, the partial update of `PUT /api/hotels/:id`, fetching by id, and the
 * query that `GET /api/search` builds and runs.
 */
module Catalog {
  import opened Wrappers
  import opened Records
  import Text

  /** The text fields of a multipart hotel form; a missing field is `None`. */
  datatype HotelForm = HotelForm(name: Option<string>, price: Option<string>, city: Option<string>)

  /** `parseFloat` of a price field, restricted to integers. */
  type PriceParser = string -> int

  /** The image stored for an uploaded file. Re-encoding through base64 and back leaves the bytes as they were. */
  function ImageOf(file: UploadedFile): (img: Image)
    ensures img.contentType == file.mimetype && img.data == file.bytes
  {
    Image(file.mimetype, file.bytes)
  }

  /** The upload handler goes on only when all three fields are truthy. */
  predicate FormComplete(form: HotelForm) {
    Truthy(form.name) && Truthy(form.price) && Truthy(form.city)
  }

  /** The document `HotelList.create` stores for a complete form. */
  function NewHotel(id: Id, form: HotelForm, file: UploadedFile, parsePrice: PriceParser): Hotel
    requires FormComplete(form)
  {
    Hotel(id, form.name.value, parsePrice(form.price.value), form.city.value, ImageOf(file))
  }

  /** The in-place field assignments of the update handler: `name || hotel.name`,
      `price ? parseFloat(price) : hotel.price`, `city || hotel.city`, and a new image only with a file. */
  function Patch(h: Hotel, form: HotelForm, file: Option<UploadedFile>, parsePrice: PriceParser): (r: Hotel)
    ensures r.id == h.id
    ensures Truthy(form.name) ==> r.name == form.name.value
    ensures Truthy(form.price) ==> r.price == parsePrice(form.price.value)
    ensures Truthy(form.city) ==> r.city == form.city.value
    ensures file.Some? ==> r.img == ImageOf(file.value)
  {
    Hotel(
      h.id,
      if Truthy(form.name) then form.name.value else h.name,
      if Truthy(form.price) then parsePrice(form.price.value) else h.price,
      if Truthy(form.city) then form.city.value else h.city,
      if file.Some? then ImageOf(file.value) else h.img)
  }

  /** A field that is missing or empty keeps its old value, and the image changes only when a file comes with the request. */
  lemma PatchKeepsUnsupplied(h: Hotel, form: HotelForm, file: Option<UploadedFile>, parsePrice: PriceParser)
    ensures var r := Patch(h, form, file, parsePrice);
      && (!Truthy(form.name) ==> r.name == h.name)
      && (!Truthy(form.price) ==> r.price == h.price)
      && (!Truthy(form.city) ==> r.city == h.city)
      && (file.None? ==> r.img == h.img)
      && (r.img != h.img ==> file.Some? && r.img == ImageOf(file.value))
  {
  }

  /** A request that supplies nothing leaves the hotel as it was. */
  lemma EmptyPatchIsIdentity(h: Hotel, parsePrice: PriceParser)
    ensures Patch(h, HotelForm(None, None, None), None, parsePrice) == h
    ensures Patch(h, HotelForm(Some(""), Some(""), Some("")), None, parsePrice) == h
  {
  }

  /** Sending the same update twice has the effect of sending it once. */
  lemma PatchIdempotent(h: Hotel, form: HotelForm, file: Option<UploadedFile>, parsePrice: PriceParser)
    ensures Patch(Patch(h, form, file, parsePrice), form, file, parsePrice) == Patch(h, form, file, parsePrice)
  {
  }

  /** A complete form with a file replaces everything but the id, exactly as uploading a new hotel would set it. */
  lemma FullPatchIsNewHotel(h: Hotel, form: HotelForm, file: UploadedFile, parsePrice: PriceParser)
    requires FormComplete(form)
    ensures Patch(h, form, Some(file), parsePrice) == NewHotel(h.id, form, file, parsePrice)
  {
  }

  /** `GET /api/hotels/:id`. */
  function GetHotel(hotels: seq<Hotel>, id: Id): (r: Reply)
    ensures (exists j :: 0 <= j < |hotels| && hotels[j].id == id) <==> r.Json?
    ensures r.Json? ==> r.status == 200 && r.body.HotelDoc? && r.body.hotel in hotels && r.body.hotel.id == id
    ensures !r.Json? ==> r == Plain(404, "Hotel not found")
  {
    match HotelIndex(hotels, id)
    case None => Plain(404, "Hotel not found")
    case Some(k) => Json(200, HotelDoc(hotels[k]))
  }

  /** The query object of `GET /api/search`: a pattern per field, or no constraint on it. */
  datatype Filter = Filter(name: Option<string>, city: Option<string>)

  /** A parameter gives a constraint only when it is present and `trim()` leaves something;
      the pattern itself is the parameter as sent, untrimmed. */
  function BuildFilter(name: Option<string>, city: Option<string>): (f: Filter)
    ensures f.name.Some? <==> name.Some? && !Text.AllWhitespace(name.value)
    ensures f.city.Some? <==> city.Some? && !Text.AllWhitespace(city.value)
    ensures f.name.Some? ==> f.name == name
    ensures f.city.Some? ==> f.city == city
  {
    Text.TrimEmptyIff(name.GetOr(""));
    Text.TrimEmptyIff(city.GetOr(""));
    Filter(
      if Truthy(name) && Text.Trim(name.value) != "" then name else None,
      if Truthy(city) && Text.Trim(city.value) != "" then city else None)
  }

  /** A hotel satisfies a constraint when the pattern occurs in the field, ignoring case
      (the pattern is read as a literal, not as a regular expression). */
  predicate FieldMatches(pattern: Option<string>, field: string) {
    pattern.None? || Text.ContainsIgnoringCase(field, pattern.value)
  }

  predicate Matches(f: Filter, h: Hotel) {
    FieldMatches(f.name, h.name) && FieldMatches(f.city, h.city)
  }

  /** `HotelList.find(query)`: the matching hotels, in store order. */
  function Search(hotels: seq<Hotel>, f: Filter): (r: seq<Hotel>)
    ensures |r| <= |hotels|
    ensures forall h :: h in r <==> h in hotels && Matches(f, h)
  {
    Keep(hotels, (h: Hotel) => Matches(f, h))
  }

  /** Searching never reorders: the result of a store followed by one more hotel is the earlier result,
      followed by that hotel when it matches. */
  lemma SearchAppend(hotels: seq<Hotel>, h: Hotel, f: Filter)
    ensures Search(hotels + [h], f) == Search(hotels, f) + (if Matches(f, h) then [h] else [])
  {
    KeepAppend(hotels, h, (h: Hotel) => Matches(f, h));
  }

  /** No usable parameter, no constraint: every hotel is returned, in order. */
  lemma BlankSearchReturnsAll(hotels: seq<Hotel>, name: Option<string>, city: Option<string>)
    requires name.None? || Text.AllWhitespace(name.value)
    requires city.None? || Text.AllWhitespace(city.value)
    ensures Search(hotels, BuildFilter(name, city)) == hotels
  {
    var f := BuildFilter(name, city);
    KeepAll(hotels, (h: Hotel) => Matches(f, h));
  }

  /** An empty name and the city `"pAr"` select exactly the hotels whose city contains "par" in any case. */
  lemma CityOnlySearch(hotels: seq<Hotel>)
    ensures BuildFilter(Some(""), Some("pAr")) == Filter(None, Some("pAr"))
    ensures forall h :: h in Search(hotels, BuildFilter(Some(""), Some("pAr"))) <==>
      h in hotels && Text.ContainsIgnoringCase(h.city, "par")
  {
    assert !Text.AllWhitespace("pAr") by { assert !Text.IsJsWhitespace("pAr"[0]); }
    assert Text.Lower("pAr") == "par";
    assert Text.Lower("par") == "par";
  }
}
