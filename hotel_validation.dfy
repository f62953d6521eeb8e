/** `validateHotel`: the joi schema for a hotel body, embedded rooms included (joi stops at the first issue). */
module HotelValidation {
  import opened Wrappers
  import opened Text
  import opened Joi
  import HotelModel

  datatype RoomBody = RoomBody(
    name: Option<string>,
    description: Option<string>,
    pricePerNight: Option<real>,
    maxOccupancy: Option<real>,
    available: Option<bool>,
    images: Option<seq<string>>,
    unknown: seq<string>)

  /**
   * A hotel request body. `location` is not a key of the schema, so joi refuses it, but
   * the update handler reads it.
   */
  datatype HotelBody = HotelBody(
    name: Option<string>,
    address: Option<string>,
    city: Option<string>,
    country: Option<string>,
    description: Option<string>,
    images: Option<seq<string>>,
    amenities: Option<seq<string>>,
    rooms: Option<seq<RoomBody>>,
    location: Option<HotelModel.Location>,
    unknown: seq<string>)

  function Index(path: string, k: nat): string {
    path + "[" + NatToString(k) + "]"
  }

  /** `joi.array().items(joi.string()...)`: each item is checked under the path `path[k]`. */
  function ItemIssues(path: string, items: seq<string>, from: nat, rules: seq<StringRule>, sx: Syntax): (r: seq<Issue>)
    decreases |items|
    ensures r == [] <==> forall k :: 0 <= k < |items| ==> StringOk(Some(items[k]), true, false, rules, sx)
  {
    if items == [] then []
    else
      var rest := ItemIssues(path, items[1..], from + 1, rules, sx);
      assert forall k :: 1 <= k < |items| ==> items[k] == items[1..][k - 1];
      StringIssues(Index(path, from), Some(items[0]), true, false, rules, sx) + rest
  }

  function ArrayIssues(path: string, items: Option<seq<string>>, rules: seq<StringRule>, sx: Syntax): (r: seq<Issue>)
    ensures r == [] <==> items.None? || forall k :: 0 <= k < |items.value| ==> StringOk(Some(items.value[k]), true, false, rules, sx)
  {
    if items.None? then [] else ItemIssues(path, items.value, 0, rules, sx)
  }

  const NameRules: seq<StringRule> := [ValidRule(HotelModel.RoomTypeNames)]

  function RoomIssues(prefix: string, r: RoomBody, sx: Syntax): (issues: seq<Issue>)
    ensures issues == [] <==> RoomAccepted(r, sx)
  {
    assert r.name.Some? && r.name.value != "" ==> (Holds(NameRules[0], r.name.value, sx) <==> r.name.value in HotelModel.RoomTypeNames);
    var d := [MaxRule(500)];
    assert r.description.Some? && r.description.value != "" ==> (Holds(d[0], r.description.value, sx) <==> |r.description.value| <= 500);
    StringIssues(prefix + "name", r.name, true, false, NameRules, sx)
    + StringIssues(prefix + "description", r.description, false, false, [MaxRule(500)], sx)
    + NumberIssues(prefix + "pricePerNight", r.pricePerNight, true, Some(0), None)
    + NumberIssues(prefix + "maxOccupancy", r.maxOccupancy, true, Some(1), None)
    + ArrayIssues(prefix + "images", r.images, [UriRule], sx)
    + UnknownIssues(prefix, r.unknown)
  }

  predicate UriItems(items: Option<seq<string>>, sx: Syntax) {
    items.None? || forall k :: 0 <= k < |items.value| ==> items.value[k] != "" && sx.isUri(items.value[k])
  }

  /** A room passes: a known type, a price of at least 0, an occupancy of at least 1, URI images. */
  predicate RoomAccepted(r: RoomBody, sx: Syntax) {
    && r.name.Some? && r.name.value in HotelModel.RoomTypeNames
    && (r.description.None? || 1 <= |r.description.value| <= 500)
    && r.pricePerNight.Some? && r.pricePerNight.value >= 0.0
    && r.maxOccupancy.Some? && r.maxOccupancy.value >= 1.0
    && UriItems(r.images, sx)
    && r.unknown == []
  }

  function RoomsIssues(rooms: seq<RoomBody>, from: nat, sx: Syntax): (r: seq<Issue>)
    decreases |rooms|
    ensures r == [] <==> forall k :: 0 <= k < |rooms| ==> RoomAccepted(rooms[k], sx)
  {
    if rooms == [] then []
    else
      assert forall k :: 1 <= k < |rooms| ==> rooms[k] == rooms[1..][k - 1];
      RoomIssues(Index("rooms", from) + ".", rooms[0], sx) + RoomsIssues(rooms[1..], from + 1, sx)
  }

  function LengthBetween(lo: nat, hi: nat): seq<StringRule> {
    [MinRule(lo), MaxRule(hi)]
  }

  /** Every issue in joi's visiting order: declared keys, then `location` and any other unknown key. */
  function Issues(b: HotelBody, sx: Syntax): seq<Issue> {
    StringIssues("name", b.name, true, false, LengthBetween(3, 100), sx)
    + StringIssues("address", b.address, true, false, LengthBetween(10, 200), sx)
    + StringIssues("city", b.city, true, false, LengthBetween(2, 100), sx)
    + StringIssues("country", b.country, true, false, LengthBetween(2, 100), sx)
    + StringIssues("description", b.description, false, false, [MaxRule(500)], sx)
    + ArrayIssues("images", b.images, [UriRule], sx)
    + ArrayIssues("amenities", b.amenities, [], sx)
    + (if b.rooms.None? then [] else RoomsIssues(b.rooms.value, 0, sx))
    + (if b.location.None? then [] else [Issue("location", NotAllowed)])
    + UnknownIssues("", b.unknown)
  }

  /** `validateHotel(body).error`: the first issue. */
  function Validate(b: HotelBody, sx: Syntax): (r: Option<Issue>)
    ensures r.Some? ==> r.value in Issues(b, sx)
  {
    First(Issues(b, sx))
  }

  predicate Between(v: Option<string>, lo: nat, hi: nat) {
    v.Some? && lo <= |v.value| <= hi
  }

  /** What the schema accepts, key by key. */
  predicate Accepted(b: HotelBody, sx: Syntax) {
    && Between(b.name, 3, 100)
    && Between(b.address, 10, 200)
    && Between(b.city, 2, 100)
    && Between(b.country, 2, 100)
    && (b.description.None? || 1 <= |b.description.value| <= 500)
    && UriItems(b.images, sx)
    && (b.amenities.None? || forall k :: 0 <= k < |b.amenities.value| ==> b.amenities.value[k] != "")
    && (b.rooms.None? || forall k :: 0 <= k < |b.rooms.value| ==> RoomAccepted(b.rooms.value[k], sx))
    && b.location.None?
    && b.unknown == []
  }

  lemma BetweenOk(path: string, v: Option<string>, lo: nat, hi: nat, sx: Syntax)
    requires lo >= 1
    ensures StringIssues(path, v, true, false, LengthBetween(lo, hi), sx) == [] <==> Between(v, lo, hi)
  {
    if v.Some? && v.value != "" {
      var rules := LengthBetween(lo, hi);
      assert Holds(rules[0], v.value, sx) <==> |v.value| >= lo;
      assert Holds(rules[1], v.value, sx) <==> |v.value| <= hi;
    }
  }

  lemma OptionalMaxOk(path: string, v: Option<string>, hi: nat, sx: Syntax)
    ensures StringIssues(path, v, false, false, [MaxRule(hi)], sx) == [] <==> v.None? || 1 <= |v.value| <= hi
  {
    var d := [MaxRule(hi)];
    assert v.Some? && v.value != "" ==> (Holds(d[0], v.value, sx) <==> |v.value| <= hi);
  }

  lemma UriItemsOk(path: string, items: Option<seq<string>>, sx: Syntax)
    ensures ArrayIssues(path, items, [UriRule], sx) == [] <==> UriItems(items, sx)
  {
    var u := [UriRule];
    assert forall s :: Holds(u[0], s, sx) <==> sx.isUri(s);
  }

  /** The body passes validation exactly when it meets every key's constraint. */
  lemma ValidateIffAccepted(b: HotelBody, sx: Syntax)
    ensures Validate(b, sx).None? <==> Accepted(b, sx)
  {
    BetweenOk("name", b.name, 3, 100, sx);
    BetweenOk("address", b.address, 10, 200, sx);
    BetweenOk("city", b.city, 2, 100, sx);
    BetweenOk("country", b.country, 2, 100, sx);
    OptionalMaxOk("description", b.description, 500, sx);
    UriItemsOk("images", b.images, sx);
    var amenities := ArrayIssues("amenities", b.amenities, [], sx);
    assert amenities == [] <==> b.amenities.None? || forall k :: 0 <= k < |b.amenities.value| ==> b.amenities.value[k] != "";
  }

  /** A name of three spaces passes joi's `min(3)`, although the schema's `trim` empties it. */
  lemma SpacesNamePasses(sx: Syntax)
    ensures Validate(HotelBody(Some("   "), Some("Lakeside Road"), Some("Pokhara"), Some("Nepal"),
                               None, None, None, None, None, []), sx).None?
    ensures Trim("   ") == ""
  {
    var b := HotelBody(Some("   "), Some("Lakeside Road"), Some("Pokhara"), Some("Nepal"), None, None, None, None, None, []);
    ValidateIffAccepted(b, sx);
  }
}
