/** The `Hotel` collection's schema: embedded rooms and reviews, enums, defaults, trimming. */
module HotelModel {
  import opened Wrappers
  import opened Text
  import opened Mongo

  datatype RoomType = Single | Double | Suite | Deluxe

  const RoomTypeNames: seq<string> := ["Single", "Double", "Suite", "Deluxe"]

  function RoomTypeOf(s: string): (r: Option<RoomType>)
    ensures r.Some? <==> s in RoomTypeNames
  {
    if s == "Single" then Some(Single)
    else if s == "Double" then Some(Double)
    else if s == "Suite" then Some(Suite)
    else if s == "Deluxe" then Some(Deluxe)
    else None
  }

  datatype Room = Room(
    name: RoomType,
    description: Option<string>,
    pricePerNight: real,
    maxOccupancy: real,
    available: bool,
    images: seq<string>)

  datatype RoomDraft = RoomDraft(
    name: Option<string>,
    description: Option<string>,
    pricePerNight: Option<real>,
    maxOccupancy: Option<real>,
    available: Option<bool>,
    images: Option<seq<string>>)

  /** `location`; its `country` defaults to "Nepal" when the hotel is created. */
  datatype Location = Location(address: Option<string>, city: Option<string>, country: Option<string>)

  datatype Review = Review(user: Id, comment: Option<string>, rating: Option<real>, createdAt: int)

  datatype Hotel = Hotel(
    id: Id,
    name: string,
    description: Option<string>,
    location: Location,
    images: seq<string>,
    amenities: seq<string>,
    rooms: seq<Room>,
    rating: real,
    reviews: seq<Review>,
    createdAt: int)

  datatype Draft = Draft(
    name: Option<string>,
    description: Option<string>,
    location: Option<Location>,
    images: seq<string>,
    amenities: seq<string>,
    rooms: seq<RoomDraft>)

  const DefaultCountry := "Nepal"

  /** An embedded room: `name` required and one of the four types, `pricePerNight` required; defaults 2 and true. */
  function CastRoom(r: RoomDraft): (s: Saved<Room>)
    ensures s.Ok? <==> r.name.Some? && r.name.value in RoomTypeNames && r.pricePerNight.Some?
    ensures s.Ok? ==> && s.doc.maxOccupancy == (if r.maxOccupancy.Some? then r.maxOccupancy.value else 2.0)
                      && s.doc.available == (if r.available.Some? then r.available.value else true)
                      && s.doc.pricePerNight == r.pricePerNight.value
  {
    if r.name.None? || RoomTypeOf(r.name.value).None? then Rejected("name")
    else if r.pricePerNight.None? then Rejected("pricePerNight")
    else Ok(Room(RoomTypeOf(r.name.value).value, r.description, r.pricePerNight.value,
                 r.maxOccupancy.GetOr(2.0), r.available.GetOr(true), r.images.GetOr([])))
  }

  function CastRooms(rs: seq<RoomDraft>): (s: Saved<seq<Room>>)
    ensures s.Ok? <==> forall i :: 0 <= i < |rs| ==> CastRoom(rs[i]).Ok?
    ensures s.Ok? ==> |s.doc| == |rs| && forall i :: 0 <= i < |rs| ==> s.doc[i] == CastRoom(rs[i]).doc
  {
    if rs == [] then Ok([])
    else
      match CastRoom(rs[0])
      case Rejected(p) => Rejected("rooms." + p)
      case Ok(room) =>
        match CastRooms(rs[1..])
        case Rejected(p) => Rejected(p)
        case Ok(more) => Ok([room] + more)
  }

  function WithDefaultCountry(l: Option<Location>): (r: Location)
    ensures l.None? ==> r == Location(None, None, Some(DefaultCountry))
    ensures l.Some? ==> r.address == l.value.address && r.city == l.value.city
    ensures r.country.Some?
  {
    match l
    case None => Location(None, None, Some(DefaultCountry))
    case Some(loc) => if loc.country.None? then loc.(country := Some(DefaultCountry)) else loc
  }

  /** `Hotel.create`: `name` is trimmed and then required; rating 0, no reviews. */
  function Create(d: Draft, id: Id, now: int): (r: Saved<Hotel>)
    ensures r.Ok? <==> d.name.Some? && Trim(d.name.value) != "" && CastRooms(d.rooms).Ok?
    ensures r.Ok? ==> && r.doc.name == Trim(d.name.value) && r.doc.rating == 0.0 && r.doc.reviews == []
                      && r.doc.location == WithDefaultCountry(d.location) && r.doc.id == id
                      && r.doc.rooms == CastRooms(d.rooms).doc
  {
    if d.name.None? || Trim(d.name.value) == "" then Rejected("name")
    else
      match CastRooms(d.rooms)
      case Rejected(p) => Rejected(p)
      case Ok(rooms) =>
        Ok(Hotel(id, Trim(d.name.value), d.description, WithDefaultCountry(d.location),
                 d.images, d.amenities, rooms, 0.0, [], now))
  }

  /** The review sub-schema's `rating: { min: 1, max: 5 }`, checked when the hotel is saved. */
  predicate RatingInRange(r: Review) {
    r.rating.None? || 1.0 <= r.rating.value <= 5.0
  }

  /** `hotel.save()` validates every review. */
  function Save(h: Hotel): (r: Saved<Hotel>)
    ensures r.Ok? <==> forall i :: 0 <= i < |h.reviews| ==> RatingInRange(h.reviews[i])
    ensures r.Ok? ==> r.doc == h
  {
    if forall i :: 0 <= i < |h.reviews| ==> RatingInRange(h.reviews[i]) then Ok(h) else Rejected("reviews.rating")
  }

  /** The paths `findByIdAndUpdate` may `$set` here: every schema path but the id and `createdAt`. */
  datatype Update = Update(
    name: Option<string>,
    description: Option<string>,
    location: Option<Location>,
    images: Option<seq<string>>,
    amenities: Option<seq<string>>,
    rooms: Option<seq<RoomDraft>>,
    rating: Option<real>,
    reviews: Option<seq<Review>>)

  /** The update validators: they look at the updated paths only, not at the stored document. */
  predicate UpdateAccepted(u: Update) {
    && (u.name.None? || Trim(u.name.value) != "")
    && (u.rooms.None? || CastRooms(u.rooms.value).Ok?)
    && (u.reviews.None? || forall i :: 0 <= i < |u.reviews.value| ==> RatingInRange(u.reviews.value[i]))
  }

  /**
   * `findByIdAndUpdate(id, update, { new: true, runValidators: true })`: setters (trim) and the
   * validators of the updated paths run; a set `location` replaces the whole sub-document, and a
   * set `rating` or `reviews` overwrites the stored average or reviews as they are (the average is
   * not recomputed).
   */
  function ApplyUpdate(h: Hotel, u: Update): (r: Saved<Hotel>)
    ensures r.Ok? <==> UpdateAccepted(u)
    ensures r.Ok? ==> && r.doc.id == h.id
                      && r.doc.reviews == (if u.reviews.Some? then u.reviews.value else h.reviews)
                      && r.doc.rating == (if u.rating.Some? then u.rating.value else h.rating)
                      && r.doc.name == (if u.name.Some? then Trim(u.name.value) else h.name)
                      && r.doc.location == (if u.location.Some? then u.location.value else h.location)
                      && r.doc.images == (if u.images.Some? then u.images.value else h.images)
                      && r.doc.description == (if u.description.Some? then u.description else h.description)
                      && r.doc.amenities == (if u.amenities.Some? then u.amenities.value else h.amenities)
                      && r.doc.rooms == (if u.rooms.Some? then CastRooms(u.rooms.value).doc else h.rooms)
                      && r.doc.createdAt == h.createdAt
  {
    if u.name.Some? && Trim(u.name.value) == "" then Rejected("name")
    else if u.rooms.Some? && CastRooms(u.rooms.value).Rejected? then Rejected("rooms")
    else if u.reviews.Some? && !(forall i :: 0 <= i < |u.reviews.value| ==> RatingInRange(u.reviews.value[i])) then Rejected("reviews.rating")
    else
      Ok(h.(name := if u.name.Some? then Trim(u.name.value) else h.name,
            description := if u.description.Some? then u.description else h.description,
            location := u.location.GetOr(h.location),
            images := u.images.GetOr(h.images),
            amenities := u.amenities.GetOr(h.amenities),
            rooms := if u.rooms.Some? then CastRooms(u.rooms.value).doc else h.rooms,
            rating := u.rating.GetOr(h.rating),
            reviews := u.reviews.GetOr(h.reviews)))
  }

  /** An accepted update keeps every review's rating within 1..5: the update validators check the reviews it sets. */
  lemma {:induction false} UpdateKeepsRatingsInRange(h: Hotel, u: Update)
    requires forall i :: 0 <= i < |h.reviews| ==> RatingInRange(h.reviews[i])
    requires ApplyUpdate(h, u).Ok?
    ensures Save(ApplyUpdate(h, u).doc).Ok?
  {
    var g := ApplyUpdate(h, u).doc;
    if u.reviews.Some? {
      assert g.reviews == u.reviews.value;
    } else {
      assert g.reviews == h.reviews;
    }
  }
}
