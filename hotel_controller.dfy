/**
 * The hotel handlers: `createHotel`, the paged and cached `getHotels`, `getHotelById`,
 * `updateHotel` (partial, validated only when a name or address field is given), `deleteHotel`
 * and `addReview` (which recomputes the average rating to one decimal).
 */
module HotelController {
  import opened Wrappers
  import opened Text
  import opened Mongo
  import opened Joi
  import Glob
  import opened Redis
  import Cache
  import opened HotelModel
  import HotelValidation
  import opened Database

  datatype Body =
    | Note(message: string)
    | Saved(message: string, hotel: Hotel)
    | FromCache(value: Value)
    | Listing(page: Page)
    | One(hotel: Hotel)

  datatype Response = Response(status: int, body: Body)

  const ServerError := Response(500, Note("Server error"))
  const NotFound := Response(404, Note("Hotel not found"))
  const ListPattern := "hotels:*"
  const MaxLimit := 100
  const DefaultLimit := 9

  function HotelKey(id: string): string {
    "hotel:" + id
  }

  // ---------------------------------------------------------------- createHotel

  /**
   * `buildLocationFromBody`: a `location` object wins; otherwise the flat fields, with "" read as
   * absent and the country defaulting to "Nepal"; nothing when none of them is given.
   */
  function BuildLocation(location: Option<Location>, address: Option<string>, city: Option<string>, country: Option<string>): (r: Option<Location>)
    ensures location.Some? ==> r == location
    ensures location.None? ==> (r.None? <==> !Given(address) && !Given(city) && !Given(country))
    ensures location.None? && r.Some? ==> r.value.country.Some? && r.value.country.value != ""
  {
    if location.Some? then location
    else if !Given(address) && !Given(city) && !Given(country) then None
    else Some(Location(if Given(address) then address else None,
                       if Given(city) then city else None,
                       Some(if Given(country) then country.value else DefaultCountry)))
  }

  function RoomDraftOf(r: HotelValidation.RoomBody): RoomDraft {
    RoomDraft(r.name, r.description, r.pricePerNight, r.maxOccupancy, r.available, r.images)
  }

  function RoomDrafts(rs: seq<HotelValidation.RoomBody>): (ds: seq<RoomDraft>)
    ensures |ds| == |rs| && forall i :: 0 <= i < |rs| ==> ds[i] == RoomDraftOf(rs[i])
  {
    seq(|rs|, i requires 0 <= i < |rs| => RoomDraftOf(rs[i]))
  }

  /** The `hotelData` handed to `Hotel.create`. */
  function DraftOf(b: HotelValidation.HotelBody): Draft {
    Draft(b.name, b.description, BuildLocation(b.location, b.address, b.city, b.country),
          b.images.GetOr([]), b.amenities.GetOr([]), RoomDrafts(b.rooms.GetOr([])))
  }

  method CreateHotel(db: Db, redis: Client, body: HotelValidation.HotelBody, sx: Syntax, id: Id, now: int)
    returns (r: Response)
    requires db.Valid() && redis.Valid() && StoredId(id) && id !in db.hotels
    modifies db, redis
    ensures db.Valid() && redis.Valid() && redis.up == old(redis.up)
    ensures db.connected == old(db.connected) && db.bookings == old(db.bookings) && db.users == old(db.users)
    ensures db.stores == old(db.stores) && db.leads == old(db.leads)
    ensures HotelValidation.Validate(body, sx).Some? ==>
              r == Response(400, Note(Message(HotelValidation.Validate(body, sx).value)))
              && db.hotels == old(db.hotels) && redis.kv == old(redis.kv) && redis.expiry == old(redis.expiry)
    ensures HotelValidation.Validate(body, sx).None? && (!db.connected || Create(DraftOf(body), id, now).Rejected?) ==>
              r == ServerError && db.hotels == old(db.hotels) && redis.kv == old(redis.kv) && redis.expiry == old(redis.expiry)
    ensures HotelValidation.Validate(body, sx).None? && db.connected && Create(DraftOf(body), id, now).Ok? ==>
              var h := Create(DraftOf(body), id, now).doc;
              && r == Response(201, Saved("Hotel created", h))
              && db.hotels == old(db.hotels)[id := h]
              && redis.kv == Cache.Purged(redis.caps, redis.up, Cache.Stored(redis.caps, redis.up, old(redis.kv), HotelKey(id), HotelDoc(h)), ListPattern)
              && redis.expiry == Cache.Purged(redis.caps, redis.up, Cache.StoredTtl(redis.caps, redis.up, old(redis.expiry), HotelKey(id)), ListPattern)
  {
    var issue := HotelValidation.Validate(body, sx);
    if issue.Some? {
      return Response(400, Note(Message(issue.value)));
    }
    var saved := Create(DraftOf(body), id, now);
    if !db.connected || saved.Rejected? {
      return ServerError;
    }
    var h := saved.doc;
    db.PutHotel(h);
    Cache.Put(redis, HotelKey(id), HotelDoc(h));
    Cache.Purge(redis, ListPattern);
    r := Response(201, Saved("Hotel created", h));
  }

  /** Rooms that pass joi cast into the schema's rooms. */
  lemma {:induction false} AcceptedRoomsCast(rs: seq<HotelValidation.RoomBody>, sx: Syntax)
    requires forall k :: 0 <= k < |rs| ==> HotelValidation.RoomAccepted(rs[k], sx)
    ensures CastRooms(RoomDrafts(rs)).Ok?
  {
    var ds := RoomDrafts(rs);
    forall i | 0 <= i < |ds| ensures CastRoom(ds[i]).Ok? {
      assert ds[i] == RoomDraftOf(rs[i]);
      assert HotelValidation.RoomAccepted(rs[i], sx);
    }
  }

  /**
   * Past joi, `Hotel.create` refuses only a name that trims to nothing (three spaces pass
   * `min(3)`); the hotel's location is the flat address, city and country.
   */
  lemma CreateAfterValidation(body: HotelValidation.HotelBody, sx: Syntax, id: Id, now: int)
    requires HotelValidation.Validate(body, sx).None?
    ensures Create(DraftOf(body), id, now).Ok? <==> Trim(body.name.value) != ""
    ensures Create(DraftOf(body), id, now).Ok? ==>
              Create(DraftOf(body), id, now).doc.location == Location(body.address, body.city, body.country)
  {
    HotelValidation.ValidateIffAccepted(body, sx);
    AcceptedRoomsCast(body.rooms.GetOr([]), sx);
  }

  // ---------------------------------------------------------------- getHotels

  /** `parseInt(x) || d`: NaN and 0 fall back to `d`. */
  function IntOr(raw: Option<string>, d: int): (n: int)
    ensures d != 0 ==> n != 0
  {
    var v := if raw.Some? then ParseInt(raw.value) else None;
    if v.Some? && v.value != 0 then v.value else d
  }

  /** `Math.max(1, parseInt(page) || 1)`. */
  function PageNumber(raw: Option<string>): (p: int)
    ensures p >= 1
  {
    var n := IntOr(raw, 1);
    if n < 1 then 1 else n
  }

  /** `Math.min(100, parseInt(limit) || 9)`: never 0 and never above 100, but it may be negative. */
  function PageLimit(raw: Option<string>): (l: int)
    ensures l != 0 && l <= MaxLimit
  {
    var n := IntOr(raw, DefaultLimit);
    if n > MaxLimit then MaxLimit else n
  }

  function Skip(page: int, limit: int): int {
    (page - 1) * limit
  }

  /** `Math.ceil(total / limit) || 1` (a ceiling of 0, or of -0, becomes 1). */
  function Pages(total: nat, limit: int): int
    requires limit != 0
  {
    var c := if limit > 0 then (total + limit - 1) / limit else -(total / -limit);
    if c == 0 then 1 else c
  }

  /** `hotels:q=<q>:city=<city>:page=<page>:limit=<limit>`. */
  function ListKey(q: Option<string>, city: Option<string>, page: int, limit: int): string {
    "hotels:q=" + OrEmpty(q) + ":city=" + OrEmpty(city) + ":page=" + IntToString(page) + ":limit=" + IntToString(limit)
  }

  /** The `name` filter (a case-insensitive regex) and the `location.city` filter (`^city$`, case-insensitive). */
  predicate Matches(rx: Regex, q: Option<string>, city: Option<string>, h: Hotel) {
    && (!Given(q) || rx.test(q.value, h.name))
    && (!Given(city) || (h.location.city.Some? && rx.test("^" + city.value + "$", h.location.city.value)))
  }

  /** Every regex the filter carries compiles. */
  predicate FilterCompiles(rx: Regex, q: Option<string>, city: Option<string>) {
    (!Given(q) || rx.valid(q.value)) && (!Given(city) || rx.valid("^" + city.value + "$"))
  }

  /** The filter as the predicate handed to the query. */
  function Filter(rx: Regex, q: Option<string>, city: Option<string>): Hotel -> bool {
    h => Matches(rx, q, city, h)
  }

  /** The sort key of `sort({ createdAt: -1 })`. */
  function CreatedAt(h: Hotel): int {
    h.createdAt
  }

  /**
   * The `find(filter).sort({createdAt: -1}).skip(skip).limit(limit)` query and its `countDocuments`:
   * the page is the skip/limit window of the matching hotels, newest first.
   */
  method FindPage(hotels: map<Id, Hotel>, rx: Regex, q: Option<string>, city: Option<string>, page: int, limit: int)
    returns (p: Page)
    requires limit != 0 && Skip(page, limit) >= 0
    ensures p.page == page && p.limit == limit
    ensures p.total == |set k: Id | k in hotels && Matches(rx, q, city, hotels[k])|
    ensures p.pages == Pages(p.total, limit)
    ensures PageOf(hotels, Filter(rx, q, city), CreatedAt, Skip(page, limit), limit, p.hotels)
  {
    var keep := Filter(rx, q, city);
    var ids := Newest(hotels, keep, CreatedAt);
    SelectionCount(hotels, keep, ids, set k: Id | k in hotels && Matches(rx, q, city, hotels[k]));
    var window := Window(ids, Skip(page, limit), limit);
    WindowShift(ids, Skip(page, limit), limit);
    var docs := Docs(hotels, window);
    p := Page(page, limit, |ids|, Pages(|ids|, limit), docs);
  }

  method GetHotels(db: Db, redis: Client, q: Option<string>, city: Option<string>, pageRaw: Option<string>, limitRaw: Option<string>, rx: Regex)
    returns (r: Response)
    requires db.Valid() && redis.Valid()
    modifies redis
    ensures redis.Valid() && redis.up == old(redis.up)
    ensures var key := ListKey(q, city, PageNumber(pageRaw), PageLimit(limitRaw));
            Cache.Lookup(redis.caps, redis.up, old(redis.kv), key).Some? ==>
              r == Response(200, FromCache(Cache.Lookup(redis.caps, redis.up, old(redis.kv), key).value))
              && redis.kv == old(redis.kv) && redis.expiry == old(redis.expiry)
    ensures var page, limit := PageNumber(pageRaw), PageLimit(limitRaw);
            Cache.Lookup(redis.caps, redis.up, old(redis.kv), ListKey(q, city, page, limit)).None?
            && (!db.connected || !FilterCompiles(rx, q, city) || Skip(page, limit) < 0) ==>
              r == ServerError && redis.kv == old(redis.kv) && redis.expiry == old(redis.expiry)
    ensures var page, limit := PageNumber(pageRaw), PageLimit(limitRaw);
            var key := ListKey(q, city, page, limit);
            Cache.Lookup(redis.caps, redis.up, old(redis.kv), key).None?
            && db.connected && FilterCompiles(rx, q, city) && Skip(page, limit) >= 0 ==>
              && r.status == 200 && r.body.Listing?
              && var p := r.body.page;
              && p.page == page && p.limit == limit
              && p.total == |set k | k in db.hotels && Matches(rx, q, city, db.hotels[k])|
              && p.pages == Pages(p.total, limit)
              && PageOf(db.hotels, Filter(rx, q, city), CreatedAt, Skip(page, limit), limit, p.hotels)
              && redis.kv == Cache.Stored(redis.caps, redis.up, old(redis.kv), key, HotelPage(p))
              && redis.expiry == Cache.StoredTtl(redis.caps, redis.up, old(redis.expiry), key)
  {
    var page := PageNumber(pageRaw);
    var limit := PageLimit(limitRaw);
    var skip := Skip(page, limit);
    var key := ListKey(q, city, page, limit);
    var cached := Cache.Get(redis, key);
    if cached.Some? {
      return Response(200, FromCache(cached.value));
    }
    if !db.connected || !FilterCompiles(rx, q, city) || skip < 0 {
      return ServerError;
    }
    var p := FindPage(db.hotels, rx, q, city, page, limit);
    Cache.Put(redis, key, HotelPage(p));
    r := Response(200, Listing(p));
  }

  /**
   * What a page of hotels holds: as many distinct matches as the skip and limit leave, newest
   * first; on the first page, no match left out is newer than one shown.
   */
  lemma PageContents(hotels: map<Id, Hotel>, rx: Regex, q: Option<string>, city: Option<string>, skip: nat, limit: int, docs: seq<Hotel>)
    requires HotelsFiled(hotels) && limit != 0
    requires PageOf(hotels, Filter(rx, q, city), CreatedAt, skip, limit, docs)
    ensures var total := |set k: Id | k in hotels && Matches(rx, q, city, hotels[k])|;
            |docs| == if total <= skip then 0 else Database.Min(total - skip, Abs(limit))
    ensures forall i :: 0 <= i < |docs| ==> docs[i] in hotels.Values && Matches(rx, q, city, docs[i])
    ensures forall i, j :: 0 <= i < j < |docs| ==> docs[i].createdAt >= docs[j].createdAt && docs[i] != docs[j]
    ensures skip == 0 ==>
              forall k :: k in hotels && Matches(rx, q, city, hotels[k]) && hotels[k] !in docs ==>
                forall i :: 0 <= i < |docs| ==> docs[i].createdAt >= hotels[k].createdAt
  {
    var selected := set k: Id | k in hotels && Matches(rx, q, city, hotels[k]);
    PageFacts(hotels, Filter(rx, q, city), CreatedAt, skip, limit, docs, selected);
    PageDistinct(hotels, Filter(rx, q, city), CreatedAt, skip, limit, docs);
  }

  /** With a positive limit the page count is the ceiling: every match fits, and no page is empty. */
  lemma PagesCover(total: nat, limit: int)
    requires limit > 0
    ensures Pages(total, limit) >= 1
    ensures total <= Pages(total, limit) * limit
    ensures total > 0 ==> (Pages(total, limit) - 1) * limit < total
  {
    var c := (total + limit - 1) / limit;
    assert c * limit <= total + limit - 1 < (c + 1) * limit;
    if total > 0 {
      assert c >= 1;
    }
  }

  /**
   * `?limit=-5` is kept (only 0 and NaN fall back to 9, only values above 100 are capped), and the
   * page count then comes out negative: 12 matches give -2 pages.
   */
  lemma NegativeLimit()
    ensures PageLimit(Some("-5")) == -5
    ensures Pages(12, -5) == -2
  {
    ParseIntOfIntToString(-5);
    assert IntToString(-5) == "-5";
  }

  /** Any negative limit with at least as many matches as its size reports a negative page count. */
  lemma NegativeLimitPages(total: nat, limit: int)
    requires limit < 0 && total >= -limit
    ensures Pages(total, limit) < 0
  {
    assert total / -limit >= 1;
  }

  /** Past the first page a negative limit gives a negative skip, which the database refuses (a 500). */
  lemma NegativeLimitLaterPage(page: int, limit: int)
    requires page >= 2 && limit < 0
    ensures Skip(page, limit) < 0
  {
  }

  /**
   * The cache key concatenates the raw query strings, so two different searches share one key:
   * `q = "<a>:city=<c>"` without a city, and `q = "<a>"` with `city = "<c>:city="`.
   */
  lemma ListKeyCollision(a: string, c: string, page: int, limit: int)
    requires a != ""
    ensures ListKey(Some(a + ":city=" + c), None, page, limit) == ListKey(Some(a), Some(c + ":city="), page, limit)
  {
    var tail := ":page=" + IntToString(page) + ":limit=" + IntToString(limit);
    calc {
      ListKey(Some(a + ":city=" + c), None, page, limit);
      "hotels:q=" + (a + ":city=" + c) + ":city=" + "" + ":page=" + IntToString(page) + ":limit=" + IntToString(limit);
      { assert ("hotels:q=" + (a + ":city=" + c) + ":city=" + "") == "hotels:q=" + a + ":city=" + (c + ":city="); }
      "hotels:q=" + a + ":city=" + (c + ":city=") + ":page=" + IntToString(page) + ":limit=" + IntToString(limit);
      ListKey(Some(a), Some(c + ":city="), page, limit);
    }
  }

  // ---------------------------------------------------------------- getHotelById

  method GetHotelById(db: Db, redis: Client, rawId: string) returns (r: Response)
    requires db.Valid() && redis.Valid()
    modifies redis
    ensures redis.Valid() && redis.up == old(redis.up)
    ensures Cache.Lookup(redis.caps, redis.up, old(redis.kv), HotelKey(rawId)).Some? ==>
              r == Response(200, FromCache(Cache.Lookup(redis.caps, redis.up, old(redis.kv), HotelKey(rawId)).value))
              && redis.kv == old(redis.kv) && redis.expiry == old(redis.expiry)
    ensures Cache.Lookup(redis.caps, redis.up, old(redis.kv), HotelKey(rawId)).None? ==>
              if !db.connected || !Castable(rawId) then r == ServerError && redis.kv == old(redis.kv) && redis.expiry == old(redis.expiry)
              else if Key(rawId) !in db.hotels then r == NotFound && redis.kv == old(redis.kv) && redis.expiry == old(redis.expiry)
              else
                && r == Response(200, One(db.hotels[Key(rawId)]))
                && redis.kv == Cache.Stored(redis.caps, redis.up, old(redis.kv), HotelKey(rawId), HotelDoc(db.hotels[Key(rawId)]))
                && redis.expiry == Cache.StoredTtl(redis.caps, redis.up, old(redis.expiry), HotelKey(rawId))
  {
    var cached := Cache.Get(redis, HotelKey(rawId));
    if cached.Some? {
      return Response(200, FromCache(cached.value));
    }
    if !db.connected || !Castable(rawId) {
      return ServerError;
    }
    if Key(rawId) !in db.hotels {
      return NotFound;
    }
    var h := db.hotels[Key(rawId)];
    Cache.Put(redis, HotelKey(rawId), HotelDoc(h));
    r := Response(200, One(h));
  }

  // ---------------------------------------------------------------- updateHotel

  /** The parts of an update request body the handler and the schema look at. */
  datatype UpdateBody = UpdateBody(
    name: Option<string>,
    address: Option<string>,
    city: Option<string>,
    country: Option<string>,
    description: Option<string>,
    location: Option<Location>,
    images: Option<seq<string>>,
    amenities: Option<seq<string>>,
    rooms: Option<seq<RoomDraft>>,
    rating: Option<real>,
    reviews: Option<seq<Review>>)

  /** Validation runs only when one of the name and address fields is truthy. */
  predicate Checked(u: UpdateBody) {
    Given(u.name) || Given(u.address) || Given(u.city) || Given(u.country)
  }

  /** `x || (location && location.x) || ""`. */
  function Fallback(v: Option<string>, nested: Option<string>): string {
    if Given(v) then v.value else if Given(nested) then nested.value else ""
  }

  /** The object handed to `validateHotel`: missing fields become "", which joi refuses. */
  function CheckedBody(u: UpdateBody): HotelValidation.HotelBody {
    var l := u.location;
    HotelValidation.HotelBody(
      Some(if Given(u.name) then u.name.value else ""),
      Some(Fallback(u.address, if l.Some? then l.value.address else None)),
      Some(Fallback(u.city, if l.Some? then l.value.city else None)),
      Some(Fallback(u.country, if l.Some? then l.value.country else None)),
      u.description, None, None, None, None, [])
  }

  /** `{ ...req.body }` with `location` rebuilt; keys the schema lacks (address, city, country) are dropped. */
  function UpdateOf(u: UpdateBody): Update {
    var loc := BuildLocation(u.location, u.address, u.city, u.country);
    Update(u.name, u.description, loc, u.images, u.amenities, u.rooms, u.rating, u.reviews)
  }

  function CheckIssue(u: UpdateBody, sx: Syntax): Option<Issue> {
    if Checked(u) then HotelValidation.Validate(CheckedBody(u), sx) else None
  }

  method UpdateHotel(db: Db, redis: Client, rawId: string, u: UpdateBody, sx: Syntax) returns (r: Response)
    requires db.Valid() && redis.Valid()
    modifies db, redis
    ensures db.Valid() && redis.Valid() && redis.up == old(redis.up)
    ensures db.connected == old(db.connected) && db.bookings == old(db.bookings) && db.users == old(db.users)
    ensures db.stores == old(db.stores) && db.leads == old(db.leads)
    ensures CheckIssue(u, sx).Some? ==>
              r == Response(400, Note(Message(CheckIssue(u, sx).value)))
              && db.hotels == old(db.hotels) && redis.kv == old(redis.kv) && redis.expiry == old(redis.expiry)
    ensures CheckIssue(u, sx).None? && (!db.connected || !Castable(rawId) || !UpdateAccepted(UpdateOf(u))) ==>
              r == ServerError && db.hotels == old(db.hotels) && redis.kv == old(redis.kv) && redis.expiry == old(redis.expiry)
    ensures CheckIssue(u, sx).None? && db.connected && Castable(rawId) && UpdateAccepted(UpdateOf(u)) && Key(rawId) !in old(db.hotels) ==>
              r == NotFound && db.hotels == old(db.hotels) && redis.kv == old(redis.kv) && redis.expiry == old(redis.expiry)
    ensures CheckIssue(u, sx).None? && db.connected && Castable(rawId) && UpdateAccepted(UpdateOf(u)) && Key(rawId) in old(db.hotels) ==>
              var h := ApplyUpdate(old(db.hotels)[Key(rawId)], UpdateOf(u)).doc;
              && r == Response(200, Saved("Hotel updated", h))
              && db.hotels == old(db.hotels)[Key(rawId) := h]
              && redis.kv == Cache.Purged(redis.caps, redis.up, Cache.Stored(redis.caps, redis.up, old(redis.kv), HotelKey(rawId), HotelDoc(h)), ListPattern)
              && redis.expiry == Cache.Purged(redis.caps, redis.up, Cache.StoredTtl(redis.caps, redis.up, old(redis.expiry), HotelKey(rawId)), ListPattern)
  {
    var issue := CheckIssue(u, sx);
    if issue.Some? {
      return Response(400, Note(Message(issue.value)));
    }
    var update := UpdateOf(u);
    if !db.connected || !Castable(rawId) || !UpdateAccepted(update) {
      return ServerError;
    }
    if Key(rawId) !in db.hotels {
      return NotFound;
    }
    var h := ApplyUpdate(db.hotels[Key(rawId)], update).doc;
    db.PutHotel(h);
    Cache.Put(redis, HotelKey(rawId), HotelDoc(h));
    Cache.Purge(redis, ListPattern);
    r := Response(200, Saved("Hotel updated", h));
  }

  /**
   * An update naming only a city is refused: the handler fills the missing name with "", and joi
   * does not allow an empty name.
   */
  lemma CityOnlyUpdateRefused(city: string, sx: Syntax)
    requires city != ""
    ensures CheckIssue(UpdateBody(None, None, Some(city), None, None, None, None, None, None, None, None), sx)
            == Some(Issue("name", Empty))
  {
    var u := UpdateBody(None, None, Some(city), None, None, None, None, None, None, None, None);
    var rules := HotelValidation.LengthBetween(3, 100);
    assert OnlyIssues("name", rules) == [] by {
      assert OnlyIssues("name", rules[1..]) == [];
    }
  }

  /**
   * A body holding only `rating` skips joi and passes the update validators, and the stored average
   * becomes that number whatever the reviews say: the spread body reaches `$set` unfiltered.
   */
  lemma RatingOverwritten(h: Hotel, x: real, sx: Syntax)
    ensures var u := UpdateBody(None, None, None, None, None, None, None, None, None, Some(x), None);
            && CheckIssue(u, sx).None? && UpdateAccepted(UpdateOf(u))
            && ApplyUpdate(h, UpdateOf(u)).doc.rating == x
            && ApplyUpdate(h, UpdateOf(u)).doc.reviews == h.reviews
  {
  }

  /** A name of spaces passes the handler's joi check and then fails the schema's trim-and-require: a 500. */
  lemma BlankNameUpdateFails(u: UpdateBody)
    requires u.name == Some("   ")
    ensures !UpdateAccepted(UpdateOf(u))
  {
    assert Trim("   ") == "";
  }

  // ---------------------------------------------------------------- deleteHotel

  method DeleteHotel(db: Db, redis: Client, rawId: string) returns (r: Response)
    requires db.Valid() && redis.Valid()
    modifies db, redis
    ensures db.Valid() && redis.Valid() && redis.up == old(redis.up)
    ensures db.connected == old(db.connected) && db.bookings == old(db.bookings) && db.users == old(db.users)
    ensures db.stores == old(db.stores) && db.leads == old(db.leads)
    ensures !db.connected || !Castable(rawId) ==>
              r == ServerError && db.hotels == old(db.hotels) && redis.kv == old(redis.kv) && redis.expiry == old(redis.expiry)
    ensures db.connected && Castable(rawId) && Key(rawId) !in old(db.hotels) ==>
              r == NotFound && db.hotels == old(db.hotels) && redis.kv == old(redis.kv) && redis.expiry == old(redis.expiry)
    ensures db.connected && Castable(rawId) && Key(rawId) in old(db.hotels) ==>
              && r == Response(200, Note("Hotel deleted"))
              && db.hotels == Without(old(db.hotels), {Key(rawId)})
              && redis.kv == Cache.Purged(redis.caps, redis.up, Cache.Purged(redis.caps, redis.up, old(redis.kv), HotelKey(rawId)), ListPattern)
              && redis.expiry == Cache.Purged(redis.caps, redis.up, Cache.Purged(redis.caps, redis.up, old(redis.expiry), HotelKey(rawId)), ListPattern)
  {
    if !db.connected || !Castable(rawId) {
      return ServerError;
    }
    if Key(rawId) !in db.hotels {
      return NotFound;
    }
    db.DropHotel(Key(rawId));
    Cache.Purge(redis, HotelKey(rawId));
    Cache.Purge(redis, ListPattern);
    r := Response(200, Note("Hotel deleted"));
  }

  /** A hex id is a pattern without wildcards. */
  lemma HotelKeyLiteral(rawId: string)
    requires Castable(rawId)
    ensures Glob.Literal(HotelKey(rawId))
  {
    var k := HotelKey(rawId);
    forall i | 0 <= i < |k| ensures k[i] != '*' && k[i] != '?' {
      if i >= 6 {
        assert k[i] == rawId[i - 6];
        assert IsHexDigit(rawId[i - 6]);
      }
    }
  }

  /** `hotel:<id>` is never a `hotels:*` key. */
  lemma HotelKeyNotListed(id: string)
    ensures !Glob.Matches(ListPattern, HotelKey(id))
  {
    var k := HotelKey(id);
    assert ListPattern == "hotels:" + "*";
    Glob.PrefixStar("hotels:", k);
    if |k| >= 7 {
      assert k[..7][5] == ':';
    }
  }

  /** Deleting by the lower-case id removes its cache entry, when the client can list and delete keys. */
  lemma DeletePurgesEntry(caps: Caps, up: bool, kv: map<string, Value>, rawId: string)
    requires Castable(rawId) && caps.keys && caps.del && up
    ensures HotelKey(rawId) !in Cache.Purged(caps, up, Cache.Purged(caps, up, kv, HotelKey(rawId)), ListPattern)
  {
    HotelKeyLiteral(rawId);
    Glob.LiteralMatchesItself(HotelKey(rawId), HotelKey(rawId));
  }

  /**
   * Deleting by an id written with upper-case hex digits purges the pattern `hotel:<that spelling>`,
   * which does not match the entry `hotel:<lower-case id>` that `createHotel` cached.
   */
  lemma DeleteByUpperCaseIdKeepsEntry(caps: Caps, up: bool, kv: map<string, Value>, rawId: string)
    requires Castable(rawId) && Key(rawId) != rawId && HotelKey(Key(rawId)) in kv
    ensures HotelKey(Key(rawId)) in Cache.Purged(caps, up, Cache.Purged(caps, up, kv, HotelKey(rawId)), ListPattern)
  {
    var k := HotelKey(Key(rawId));
    HotelKeyLiteral(rawId);
    Glob.LiteralMatchesItself(HotelKey(rawId), k);
    assert k != HotelKey(rawId) by {
      assert k[6..] == Key(rawId);
      assert HotelKey(rawId)[6..] == rawId;
    }
    HotelKeyNotListed(Key(rawId));
  }

  // ---------------------------------------------------------------- addReview

  /** `reviews.reduce((s, r) => s + (r.rating || 0), 0)`. */
  function RatingSum(rs: seq<Review>): real {
    if rs == [] then 0.0 else RatingSum(rs[..|rs| - 1]) + rs[|rs| - 1].rating.GetOr(0.0)
  }

  /** `Math.round(x * 10) / 10`: JavaScript rounds halves up. */
  function Round1(x: real): (r: real)
    ensures x - 0.05 < r <= x + 0.05
    ensures (r * 10.0).Floor as real == r * 10.0
  {
    (x * 10.0 + 0.5).Floor as real / 10.0
  }

  /** The rating `addReview` stores for a hotel whose reviews are `rs` (at least one). */
  function AverageRating(rs: seq<Review>): real
    requires |rs| > 0
  {
    Round1(RatingSum(rs) / |rs| as real)
  }

  predicate RatingsInRange(rs: seq<Review>) {
    forall i :: 0 <= i < |rs| ==> rs[i].rating.Some? && 1.0 <= rs[i].rating.value <= 5.0
  }

  /** Ratings between 1 and 5 sum to between |rs| and 5|rs|. */
  lemma {:induction false} RatingSumBounds(rs: seq<Review>)
    requires RatingsInRange(rs)
    ensures |rs| as real <= RatingSum(rs) <= 5.0 * |rs| as real
  {
    if rs != [] {
      var init := rs[..|rs| - 1];
      assert RatingsInRange(init) by {
        forall i | 0 <= i < |init| ensures init[i].rating.Some? && 1.0 <= init[i].rating.value <= 5.0 {
          assert init[i] == rs[i];
        }
      }
      RatingSumBounds(init);
    }
  }

  /** When every review rates 1 to 5, the stored average does too. */
  lemma AverageInRange(rs: seq<Review>)
    requires |rs| > 0 && RatingsInRange(rs)
    ensures 1.0 <= AverageRating(rs) <= 5.0
  {
    RatingSumBounds(rs);
    var n := |rs| as real;
    assert n >= 1.0;
    var mean := RatingSum(rs) / n;
    MeanBounds(RatingSum(rs), n);
    var x := mean * 10.0 + 0.5;
    assert 10.5 <= x <= 50.5;
    var f := x.Floor;
    assert f as real <= x < f as real + 1.0;
    assert 10 <= f <= 50;
  }

  /** A total between `n` and `5n` over `n` items averages between 1 and 5. */
  lemma MeanBounds(total: real, n: real)
    requires n >= 1.0 && n <= total <= 5.0 * n
    ensures 1.0 <= total / n <= 5.0
  {
    var mean := total / n;
    assert (mean - 1.0) * n == total - n;
    assert (5.0 - mean) * n == 5.0 * n - total;
  }

  /** The hotel after the review is pushed and the average recomputed, before `save` validates it. */
  function Reviewed(h: Hotel, user: Id, comment: Option<string>, rating: real, now: int): (g: Hotel)
    ensures |g.reviews| == |h.reviews| + 1 && g.reviews[..|h.reviews|] == h.reviews
    ensures g.reviews[|h.reviews|] == Review(user, comment, Some(rating), now)
    ensures g.rating == AverageRating(g.reviews)
  {
    var reviews := h.reviews + [Review(user, comment, Some(rating), now)];
    h.(reviews := reviews, rating := AverageRating(reviews))
  }

  method AddReview(db: Db, redis: Client, rawId: string, userId: Option<string>, comment: Option<string>, rating: Option<real>, now: int)
    returns (r: Response)
    requires db.Valid() && redis.Valid()
    modifies db, redis
    ensures db.Valid() && redis.Valid() && redis.up == old(redis.up)
    ensures db.connected == old(db.connected) && db.bookings == old(db.bookings) && db.users == old(db.users)
    ensures db.stores == old(db.stores) && db.leads == old(db.leads)
    ensures !Given(userId) || rating.None? || rating.value == 0.0 ==>
              r == Response(400, Note("userId and rating are required"))
              && db.hotels == old(db.hotels) && redis.kv == old(redis.kv) && redis.expiry == old(redis.expiry)
    ensures Given(userId) && rating.Some? && rating.value != 0.0 ==>
              if !db.connected || !Castable(rawId) then r == ServerError
              else if Key(rawId) !in old(db.hotels) then r == NotFound
              else if !Castable(userId.value) then r == ServerError
              else
                var h := Reviewed(old(db.hotels)[Key(rawId)], Key(userId.value), comment, rating.value, now);
                if Save(h).Rejected? then r == ServerError
                else
                  && r == Response(201, Saved("Review added", h))
                  && db.hotels == old(db.hotels)[Key(rawId) := h]
                  && redis.kv == Cache.Purged(redis.caps, redis.up, Cache.Stored(redis.caps, redis.up, old(redis.kv), HotelKey(rawId), HotelDoc(h)), ListPattern)
                  && redis.expiry == Cache.Purged(redis.caps, redis.up, Cache.StoredTtl(redis.caps, redis.up, old(redis.expiry), HotelKey(rawId)), ListPattern)
    ensures r.status != 201 ==> db.hotels == old(db.hotels) && redis.kv == old(redis.kv) && redis.expiry == old(redis.expiry)
    ensures Given(userId) && rating.Some? && rating.value != 0.0 && db.connected && Castable(rawId) && Key(rawId) in old(db.hotels)
            && Castable(userId.value) && RatingsInRange(old(db.hotels)[Key(rawId)].reviews) ==>
              (r.status == 201 <==> 1.0 <= rating.value <= 5.0)
    ensures r.status in {201, 400, 404, 500}
  {
    if !Given(userId) || rating.None? || rating.value == 0.0 {
      return Response(400, Note("userId and rating are required"));
    }
    if !db.connected || !Castable(rawId) {
      return ServerError;
    }
    if Key(rawId) !in db.hotels {
      return NotFound;
    }
    if !Castable(userId.value) {
      return ServerError;
    }
    var old_h := db.hotels[Key(rawId)];
    var h := Reviewed(old_h, Key(userId.value), comment, rating.value, now);
    var saved := Save(h);
    if saved.Rejected? {
      return ServerError;
    }
    assert RatingInRange(h.reviews[|old_h.reviews|]);
    db.PutHotel(h);
    Cache.Put(redis, HotelKey(rawId), HotelDoc(h));
    Cache.Purge(redis, ListPattern);
    r := Response(201, Saved("Review added", h));
  }
}
