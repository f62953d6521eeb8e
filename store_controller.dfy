/**
 * The store handlers: the cached listing (`listStores`, by category, tags, distance or text),
 * `getStore` (which also counts views in Redis), `createStore`, the owner-only `updateStore` and
 * `listLeadsForStore`, and `contactStore`, which records a lead and mails or queues a notice.
 */
module StoreController {
  import opened Wrappers
  import opened Text
  import opened Mongo
  import opened Joi
  import Glob
  import opened Redis
  import Cache
  import Mailer
  import opened StoreModel
  import LeadModel
  import UserModel
  import StoreValidation
  import opened Database

  datatype Body =
    | Note(message: string)
    | FromCache(value: Value)
    | Stores(stores: seq<Store>)
    | One(store: Store)
    | Saved(message: string, store: Store)
    | Leads(leads: seq<LeadModel.Lead>)
    | LeadNoted(message: string, leadId: Id)

  datatype Response = Response(status: int, body: Body)

  const ServerError := Response(500, Note("Server error"))
  const Unauthorized := Response(401, Note("Unauthorized"))
  const NotFound := Response(404, Note("Store not found"))
  const NotOwner := Response(403, Note("Forbidden: not the owner"))
  const ListPattern := "stores:*"
  const ListCap := 200
  const LeadCap := 500
  const DefaultRadiusKm := 10.0

  function StoreKey(id: string): string {
    "store:" + id
  }

  function ViewsKey(id: string): string {
    "store:" + id + ":views"
  }

  // ---------------------------------------------------------------- listStores

  /** The query string of `listStores`; `radiusKm` is what `parseFloat` made of it (None for NaN). */
  datatype Query = Query(category: Option<string>, tags: Option<Tags>, near: Option<string>, q: Option<string>, radiusKm: Option<real>)

  /**
   * The geospatial side of `$geoNear`, as the model takes it: whether `near` ("lng,lat") makes a
   * point the server accepts, and each store's distance in metres from it (none for a store with
   * no usable location).
   */
  datatype Geo = Geo(point: string -> bool, distance: (string, Store) -> Option<nat>)

  /** `(q.tags || "").toString()`: an array is joined with commas. */
  function TagsText(t: Option<Tags>): string {
    match t
    case None => ""
    case Some(TagList(items)) => Join(items, ',')
    case Some(TagText(s)) => s
  }

  /** `q.tags` is truthy: a non-empty string, or any array (an empty one included). */
  predicate TagsGiven(t: Option<Tags>) {
    t.Some? && t.value != TagText("")
  }

  /** The `$in` list: an array as given, a string split at commas. */
  function TagValues(t: Tags): seq<string> {
    match t
    case TagList(items) => items
    case TagText(s) => Split(s, ',')
  }

  function ListKey(qu: Query): string {
    "stores:cat=" + OrEmpty(qu.category) + ":tags=" + TagsText(qu.tags) + ":near=" + OrEmpty(qu.near) + ":q=" + OrEmpty(qu.q)
  }

  /** The `category` and `tags` filter. */
  predicate Keeps(qu: Query, s: Store) {
    && (!Given(qu.category) || s.category == qu.category)
    && (!TagsGiven(qu.tags) || exists t :: t in TagValues(qu.tags.value) && t in s.tags)
  }

  /** `(parseFloat(q.radiusKm) || 10) * 1000`. */
  function RadiusMetres(radiusKm: Option<real>): real {
    (if radiusKm.None? || radiusKm.value == 0.0 then DefaultRadiusKm else radiusKm.value) * 1000.0
  }

  predicate Within(geo: Geo, near: string, radius: real, s: Store) {
    geo.distance(near, s).Some? && geo.distance(near, s).value as real <= radius
  }

  /** The stores `$geoNear` keeps before `$match` runs. */
  function NearFilter(geo: Geo, qu: Query, radius: real): Store -> bool
    requires Given(qu.near)
  {
    s => Keeps(qu, s) && Within(geo, qu.near.value, radius, s)
  }

  /** The distance `$geoNear` reports (0 for a store it would not return). */
  function Distance(geo: Geo, near: string, s: Store): nat {
    if geo.distance(near, s).Some? then geo.distance(near, s).value else 0
  }

  /** Nearer stores first, as `$geoNear` orders them. */
  function Closeness(geo: Geo, near: string): Store -> int {
    s => -(Distance(geo, near, s) as int)
  }

  /**
   * Why the query throws: `$text` needs a text index and the store schema declares none; a
   * `near` that makes no point, or a negative radius, is refused by `$geoNear`.
   */
  predicate QueryFails(connected: bool, geo: Geo, qu: Query) {
    !connected || Given(qu.q) || (Given(qu.near) && (!geo.point(qu.near.value) || RadiusMetres(qu.radiusKm) < 0.0))
  }

  /** Which stores a successful listing may contain. */
  predicate Listed(geo: Geo, qu: Query, s: Store) {
    Keeps(qu, s) && (Given(qu.near) ==> Within(geo, qu.near.value, RadiusMetres(qu.radiusKm), s))
  }

  /** `$geoNear` then `$match` then `$limit: 200`: the nearest matching stores within the radius. */
  method FindNear(stores: map<Id, Store>, geo: Geo, qu: Query) returns (found: seq<Store>)
    requires Given(qu.near)
    ensures PageOf(stores, NearFilter(geo, qu, RadiusMetres(qu.radiusKm)), Closeness(geo, qu.near.value), 0, ListCap, found)
  {
    var keep := NearFilter(geo, qu, RadiusMetres(qu.radiusKm));
    var order := Closeness(geo, qu.near.value);
    var ids := Newest(stores, keep, order);
    WindowShift(ids, 0, ListCap);
    found := Docs(stores, Window(ids, 0, ListCap));
  }

  /** The `$match` of the query tags and category. */
  function MatchFilter(qu: Query): Store -> bool {
    s => Keeps(qu, s)
  }

  /** `find(filter).limit(200)`: matching stores, in an order the database chooses. */
  method FindMatching(stores: map<Id, Store>, qu: Query) returns (found: seq<Store>)
    ensures PageOf(stores, MatchFilter(qu), Unordered, 0, ListCap, found)
  {
    var ids := Select(stores, MatchFilter(qu));
    WindowShift(ids, 0, ListCap);
    found := Docs(stores, Window(ids, 0, ListCap));
    assert NewestFirst(stores, Unordered, ids);
  }

  /** The stores a query answers: the nearest 200 when `near` is given, otherwise any 200 matches. */
  ghost predicate Found(stores: map<Id, Store>, geo: Geo, qu: Query, found: seq<Store>) {
    if Given(qu.near) then PageOf(stores, NearFilter(geo, qu, RadiusMetres(qu.radiusKm)), Closeness(geo, qu.near.value), 0, ListCap, found)
    else PageOf(stores, MatchFilter(qu), Unordered, 0, ListCap, found)
  }

  method ListStores(db: Db, redis: Client, qu: Query, geo: Geo) returns (r: Response)
    requires db.Valid() && redis.Valid()
    modifies redis
    ensures redis.Valid() && redis.up == old(redis.up)
    ensures Cache.Lookup(redis.caps, redis.up, old(redis.kv), ListKey(qu)).Some? ==>
              r == Response(200, FromCache(Cache.Lookup(redis.caps, redis.up, old(redis.kv), ListKey(qu)).value))
              && redis.kv == old(redis.kv) && redis.expiry == old(redis.expiry)
    ensures Cache.Lookup(redis.caps, redis.up, old(redis.kv), ListKey(qu)).None? && QueryFails(db.connected, geo, qu) ==>
              r == ServerError && redis.kv == old(redis.kv) && redis.expiry == old(redis.expiry)
    ensures Cache.Lookup(redis.caps, redis.up, old(redis.kv), ListKey(qu)).None? && !QueryFails(db.connected, geo, qu) ==>
              && r.status == 200 && r.body.Stores?
              && var found := r.body.stores;
              && Found(db.stores, geo, qu, found)
              && redis.kv == Cache.Stored(redis.caps, redis.up, old(redis.kv), ListKey(qu), StoreList(found))
              && redis.expiry == Cache.StoredTtl(redis.caps, redis.up, old(redis.expiry), ListKey(qu))
  {
    var key := ListKey(qu);
    var cached := Cache.Get(redis, key);
    if cached.Some? {
      return Response(200, FromCache(cached.value));
    }
    if QueryFails(db.connected, geo, qu) {
      return ServerError;
    }
    var found;
    if Given(qu.near) {
      found := FindNear(db.stores, geo, qu);
    } else {
      found := FindMatching(db.stores, qu);
    }
    Cache.Put(redis, key, StoreList(found));
    r := Response(200, Stores(found));
  }

  /**
   * What a store listing promises: at most 200 distinct listed stores, nearest first when `near`
   * is given, and no store left out is nearer; every listed store when fewer than 200 come back.
   */
  lemma FoundFacts(stores: map<Id, Store>, geo: Geo, qu: Query, found: seq<Store>)
    requires StoresFiled(stores) && Found(stores, geo, qu, found)
    ensures |found| <= ListCap
    ensures forall i :: 0 <= i < |found| ==> found[i] in stores.Values && Listed(geo, qu, found[i])
    ensures forall i, j :: 0 <= i < j < |found| ==> found[i] != found[j]
    ensures |found| < ListCap ==> forall k :: k in stores && Listed(geo, qu, stores[k]) ==> stores[k] in found
    ensures Given(qu.near) ==>
              && (forall i, j :: 0 <= i < j < |found| ==> Distance(geo, qu.near.value, found[i]) <= Distance(geo, qu.near.value, found[j]))
              && (forall k :: k in stores && Listed(geo, qu, stores[k]) && stores[k] !in found ==>
                    forall i :: 0 <= i < |found| ==> Distance(geo, qu.near.value, found[i]) <= Distance(geo, qu.near.value, stores[k]))
  {
    var selected := set k | k in stores && Listed(geo, qu, stores[k]);
    if Given(qu.near) {
      var keep := NearFilter(geo, qu, RadiusMetres(qu.radiusKm));
      var order := Closeness(geo, qu.near.value);
      PageFacts(stores, keep, order, 0, ListCap, found, selected);
      PageDistinct(stores, keep, order, 0, ListCap, found);
    } else {
      PageFacts(stores, MatchFilter(qu), Unordered, 0, ListCap, found, selected);
      PageDistinct(stores, MatchFilter(qu), Unordered, 0, ListCap, found);
    }
  }

  /**
   * One string tag that contains a comma shares its cache key with the same text given as a
   * string, but the two filters differ: `["a,b"]` looks for the tag "a,b", "a,b" for "a" or "b".
   */
  lemma TagKeyCollision(category: Option<string>, near: Option<string>, q: Option<string>, radiusKm: Option<real>)
    ensures ListKey(Query(category, Some(TagList(["a,b"])), near, q, radiusKm))
            == ListKey(Query(category, Some(TagText("a,b")), near, q, radiusKm))
    ensures TagValues(TagList(["a,b"])) == ["a,b"]
    ensures TagValues(TagText("a,b")) == ["a", "b"]
  {
    assert Join(["a,b"], ',') == "a,b";
    assert Split("", ',') == [""];
    assert "b"[1..] == "";
    assert Split("b", ',') == [['b'] + ""] + [""][1..];
    assert ['b'] + "" == "b";
    assert [""][1..] == [];
    assert Split("b", ',') == ["b"];
    assert ",b"[1..] == "b";
    assert Split(",b", ',') == [""] + ["b"];
    assert "a,b"[1..] == ",b";
    assert Split("a,b", ',') == [['a'] + ""] + ["", "b"][1..];
    assert ['a'] + "" == "a";
    assert ["", "b"][1..] == ["b"];
  }

  /**
   * `?tags[]=` with no items is an empty array, which is truthy: its `$in: []` keeps no store,
   * yet its cache key is the one of a listing without tags.
   */
  lemma EmptyTagListKeepsNothing(qu: Query, s: Store)
    requires qu.tags == Some(TagList([]))
    ensures !Keeps(qu, s)
    ensures ListKey(qu) == ListKey(qu.(tags := None))
  {
  }

  /** A text search (`q`) always fails: the schema declares no text index. */
  lemma TextSearchFails(connected: bool, geo: Geo, qu: Query)
    requires Given(qu.q)
    ensures QueryFails(connected, geo, qu)
  {
  }

  // ---------------------------------------------------------------- getStore

  /** The key space after the guarded `incr` of a view counter (guarded by `set`, errors swallowed). */
  function Viewed(caps: Caps, up: bool, kv: map<string, Value>, key: string): (r: map<string, Value>)
    ensures caps.setCmd && caps.incr && up && (key !in kv || kv[key].Count?) ==>
              key in r && r[key] == Count(if key in kv then kv[key].n + 1 else 1)
    ensures forall k :: k != key ==> (k in r <==> k in kv) && (k in r ==> r[k] == kv[k])
    ensures !(caps.setCmd && caps.incr && up && (key !in kv || kv[key].Count?)) ==> r == kv
  {
    if caps.setCmd && caps.incr && up && (key !in kv || kv[key].Count?) then
      kv[key := Count(if key in kv then kv[key].n + 1 else 1)]
    else kv
  }

  method GetStore(db: Db, redis: Client, rawId: string) returns (r: Response)
    requires db.Valid() && redis.Valid()
    modifies redis
    ensures redis.Valid() && redis.up == old(redis.up)
    ensures Cache.Lookup(redis.caps, redis.up, old(redis.kv), StoreKey(rawId)).Some? ==>
              r == Response(200, FromCache(Cache.Lookup(redis.caps, redis.up, old(redis.kv), StoreKey(rawId)).value))
              && redis.kv == old(redis.kv) && redis.expiry == old(redis.expiry)
    ensures Cache.Lookup(redis.caps, redis.up, old(redis.kv), StoreKey(rawId)).None? ==>
              if !db.connected || !Castable(rawId) then r == ServerError && redis.kv == old(redis.kv) && redis.expiry == old(redis.expiry)
              else if Key(rawId) !in db.stores then r == NotFound && redis.kv == old(redis.kv) && redis.expiry == old(redis.expiry)
              else
                && r == Response(200, One(db.stores[Key(rawId)]))
                && redis.kv == Cache.Stored(redis.caps, redis.up, Viewed(redis.caps, redis.up, old(redis.kv), ViewsKey(rawId)),
                                            StoreKey(rawId), StoreDoc(db.stores[Key(rawId)]))
                && redis.expiry == Cache.StoredTtl(redis.caps, redis.up, old(redis.expiry), StoreKey(rawId))
  {
    var cached := Cache.Get(redis, StoreKey(rawId));
    if cached.Some? {
      return Response(200, FromCache(cached.value));
    }
    if !db.connected || !Castable(rawId) {
      return ServerError;
    }
    if Key(rawId) !in db.stores {
      return NotFound;
    }
    var s := db.stores[Key(rawId)];
    ghost var kv0 := redis.kv;
    if redis.caps.setCmd && redis.caps.incr {
      var ok, n := redis.Incr(ViewsKey(rawId));
    }
    assert redis.kv == Viewed(redis.caps, redis.up, kv0, ViewsKey(rawId));
    Cache.Put(redis, StoreKey(rawId), StoreDoc(s));
    r := Response(200, One(s));
  }

  /**
   * The view counter lives under `store:<id>:views`, which is itself a `store:<id>` key for the
   * id "<id>:views": once a view is counted and nothing is cached under that key, asking for the
   * store "<id>:views" answers with the counter.
   */
  lemma CounterServedAsStore(caps: Caps, up: bool, kv: map<string, Value>, id: string)
    requires caps.get && caps.setCmd && caps.incr && up && ViewsKey(id) !in kv
    ensures var kv1 := Viewed(caps, up, kv, ViewsKey(id));
            Cache.Lookup(caps, up, kv1, StoreKey(id + ":views")) == Some(Count(1))
  {
    assert StoreKey(id + ":views") == ViewsKey(id);
  }

  /** A cached store is answered without counting a view. */
  lemma CachedReadCountsNoView(caps: Caps, up: bool, kv: map<string, Value>, id: string)
    requires Cache.Lookup(caps, up, kv, StoreKey(id)).Some?
    ensures caps.get && up && StoreKey(id) in kv
  {
  }

  // ---------------------------------------------------------------- createStore

  function GeoPointOf(l: StoreValidation.LocationBody): GeoPoint {
    GeoPoint(l.kind.GetOr("Point"), l.coordinates.GetOr([]))
  }

  /** A body's `[lng, lat]` within |lng| <= 180 and |lat| <= 90. */
  predicate InRange(l: StoreValidation.LocationBody) {
    l.coordinates.Some? && |l.coordinates.value| == 2
    && -180.0 <= l.coordinates.value[0] <= 180.0 && -90.0 <= l.coordinates.value[1] <= 90.0
  }

  /**
   * A logged-in owner's body that joi accepts, with the point [200, 100]: the insert is refused, so
   * the reply is 500, no store is added and the caller is not promoted.
   */
  lemma OutOfRangeStoreRefused(owner: Id, id: Id, now: int, sx: Syntax)
    ensures var body := StoreValidation.StoreBody(Some("Ab"), Some("ab"), None, None, None, None, None, None,
                                                  Some(StoreValidation.LocationBody(Some("Point"), Some([200.0, 100.0]), [])), []);
            && StoreValidation.ValidateCreate(body, sx).None?
            && Create(owner, FieldsOf(body), id, now).Rejected?
  {
    var body := StoreValidation.StoreBody(Some("Ab"), Some("ab"), None, None, None, None, None, None,
                                          Some(StoreValidation.LocationBody(Some("Point"), Some([200.0, 100.0]), [])), []);
    StoreValidation.ValidateIffAccepted(body, true, sx);
  }

  /** The schema paths of a request body. */
  function FieldsOf(b: StoreValidation.StoreBody): Fields {
    Fields(b.name, b.slug, b.description, b.category, b.tags, b.phone, b.email, b.website,
           if b.location.Some? then Some(GeoPointOf(b.location.value)) else None)
  }

  /** The unique index on `slug`: another store (not `k`) already has it. */
  predicate SlugClash(stores: map<Id, Store>, k: Id, slug: string) {
    exists j :: j in stores && j != k && stores[j].slug == slug
  }

  /** `findByIdAndUpdate(id, { role: "buisness" })`: the user, if there is one, becomes a business. */
  function Promoted(users: map<Id, UserModel.User>, id: Id): (r: map<Id, UserModel.User>)
    ensures r.Keys == users.Keys
    ensures id in users ==> r[id] == users[id].(role := UserModel.Buisness)
    ensures forall k :: k in users && k != id ==> r[k] == users[k]
  {
    if id in users then users[id := users[id].(role := UserModel.Buisness)] else users
  }

  method CreateStore(db: Db, redis: Client, caller: Option<string>, body: StoreValidation.StoreBody, sx: Syntax, id: Id, now: int)
    returns (r: Response)
    requires db.Valid() && redis.Valid() && StoredId(id) && id !in db.stores
    modifies db, redis
    ensures db.Valid() && redis.Valid() && redis.up == old(redis.up)
    ensures db.connected == old(db.connected) && db.bookings == old(db.bookings) && db.hotels == old(db.hotels)
    ensures db.leads == old(db.leads)
    ensures !Given(caller) ==> r == Unauthorized && unchanged(db) && redis.kv == old(redis.kv) && redis.expiry == old(redis.expiry)
    ensures Given(caller) && StoreValidation.ValidateCreate(body, sx).Some? ==>
              r == Response(400, Note(StoreValidation.ValidateCreate(body, sx).value))
              && unchanged(db) && redis.kv == old(redis.kv) && redis.expiry == old(redis.expiry)
    ensures r.status == 201 <==>
              && Given(caller) && StoreValidation.ValidateCreate(body, sx).None?
              && db.connected && Castable(caller.value)
              && Create(Key(caller.value), FieldsOf(body), id, now).Ok?
              && !SlugClash(old(db.stores), id, body.slug.value)
    ensures r.status == 201 ==>
              var s := Create(Key(caller.value), FieldsOf(body), id, now).doc;
              && r == Response(201, Saved("Store created", s))
              && db.stores == old(db.stores)[id := s]
              && db.users == Promoted(old(db.users), Key(caller.value))
              && redis.kv == Cache.Purged(redis.caps, redis.up, old(redis.kv), ListPattern)
              && redis.expiry == Cache.Purged(redis.caps, redis.up, old(redis.expiry), ListPattern)
    ensures r.status != 201 ==> db.stores == old(db.stores) && db.users == old(db.users)
                                && redis.kv == old(redis.kv) && redis.expiry == old(redis.expiry)
  {
    if !Given(caller) {
      return Unauthorized;
    }
    var issue := StoreValidation.ValidateCreate(body, sx);
    if issue.Some? {
      return Response(400, Note(issue.value));
    }
    if !db.connected || !Castable(caller.value) {
      return ServerError;
    }
    var created := Create(Key(caller.value), FieldsOf(body), id, now);
    if created.Rejected? || SlugClash(db.stores, id, created.doc.slug) {
      return ServerError;
    }
    var s := created.doc;
    db.PutStore(s);
    var owner := Key(caller.value);
    if owner in db.users {
      db.PutUser(db.users[owner].(role := UserModel.Buisness));
    }
    Cache.Purge(redis, ListPattern);
    r := Response(201, Saved("Store created", s));
  }

  /**
   * Past joi, `Store.create` refuses the body only for a point the geo index cannot place: joi's
   * `name` and `slug` rules are stricter than `required`, but joi takes any two numbers.
   */
  lemma CreateAfterValidation(owner: Id, body: StoreValidation.StoreBody, sx: Syntax, id: Id, now: int)
    requires StoreValidation.ValidateCreate(body, sx).None?
    ensures Create(owner, FieldsOf(body), id, now).Ok? <==> body.location.None? || InRange(body.location.value)
    ensures Create(owner, FieldsOf(body), id, now).Ok? ==> Create(owner, FieldsOf(body), id, now).doc.owner == Some(owner)
  {
    StoreValidation.ValidateIffAccepted(body, true, sx);
    assert |body.slug.value| > 0 by {
      assert IsSlug(body.slug.value);
    }
  }

  // ---------------------------------------------------------------- updateStore

  /** `String(store.owner)`: a store without an owner gives "undefined". */
  function OwnerText(s: Store): string {
    if s.owner.Some? then s.owner.value else "undefined"
  }

  method UpdateStore(db: Db, redis: Client, caller: Option<string>, rawId: string, body: StoreValidation.StoreBody, sx: Syntax)
    returns (r: Response)
    requires db.Valid() && redis.Valid()
    modifies db, redis
    ensures db.Valid() && redis.Valid() && redis.up == old(redis.up)
    ensures db.connected == old(db.connected) && db.bookings == old(db.bookings) && db.hotels == old(db.hotels)
    ensures db.users == old(db.users) && db.leads == old(db.leads)
    ensures r.status != 200 ==> db.stores == old(db.stores) && redis.kv == old(redis.kv) && redis.expiry == old(redis.expiry)
    ensures !Given(caller) ==> r == Unauthorized
    ensures Given(caller) && (!db.connected || !Castable(rawId)) ==> r == ServerError
    ensures Given(caller) && db.connected && Castable(rawId) && Key(rawId) !in old(db.stores) ==> r == NotFound
    ensures Given(caller) && db.connected && Castable(rawId) && Key(rawId) in old(db.stores) ==>
              var k := Key(rawId);
              if OwnerText(old(db.stores)[k]) != caller.value then r == NotOwner
              else if StoreValidation.ValidateUpdate(body, sx).Some? then
                r == Response(400, Note(StoreValidation.ValidateUpdate(body, sx).value))
              else if Assign(old(db.stores)[k], FieldsOf(body)).Rejected?
                      || SlugClash(old(db.stores), k, Assign(old(db.stores)[k], FieldsOf(body)).doc.slug) then
                r == ServerError
              else
                var s := Assign(old(db.stores)[k], FieldsOf(body)).doc;
                && r == Response(200, Saved("Store updated", s))
                && db.stores == old(db.stores)[k := s]
                && redis.kv == Cache.Purged(redis.caps, redis.up, Cache.Purged(redis.caps, redis.up, old(redis.kv), ListPattern), StoreKey(k))
                && redis.expiry == Cache.Purged(redis.caps, redis.up, Cache.Purged(redis.caps, redis.up, old(redis.expiry), ListPattern), StoreKey(k))
  {
    if !Given(caller) {
      return Unauthorized;
    }
    if !db.connected || !Castable(rawId) {
      return ServerError;
    }
    var k := Key(rawId);
    if k !in db.stores {
      return NotFound;
    }
    var current := db.stores[k];
    if OwnerText(current) != caller.value {
      return NotOwner;
    }
    var issue := StoreValidation.ValidateUpdate(body, sx);
    if issue.Some? {
      return Response(400, Note(issue.value));
    }
    var saved := Assign(current, FieldsOf(body));
    if saved.Rejected? || SlugClash(db.stores, k, saved.doc.slug) {
      return ServerError;
    }
    var s := saved.doc;
    db.PutStore(s);
    Cache.Purge(redis, ListPattern);
    Cache.Purge(redis, StoreKey(k));
    r := Response(200, Saved("Store updated", s));
  }

  /**
   * Past joi, `save` fails only on a point the geo index cannot place: a given `name` has two
   * characters and a given `slug` one.
   */
  lemma UpdateAfterValidation(s: Store, body: StoreValidation.StoreBody, sx: Syntax)
    requires StoreValidation.ValidateUpdate(body, sx).None?
    ensures Assign(s, FieldsOf(body)).Ok? <==> body.location.None? || InRange(body.location.value)
  {
    StoreValidation.ValidateIffAccepted(body, false, sx);
    if body.slug.Some? {
      assert IsSlug(body.slug.value);
    }
  }

  /** A hex id is a pattern without wildcards. */
  lemma StoreKeyLiteral(id: string)
    requires Castable(id)
    ensures Glob.Literal(StoreKey(id))
  {
    var k := StoreKey(id);
    forall i | 0 <= i < |k| ensures k[i] != '*' && k[i] != '?' {
      if i >= 6 {
        assert k[i] == id[i - 6];
        assert IsHexDigit(id[i - 6]);
      }
    }
  }

  /**
   * The update purges exactly `store:<stored id>`: the view counter survives, and so does an
   * entry `getStore` cached under an upper-case spelling of the id.
   */
  lemma UpdateKeepsOtherSpellings(caps: Caps, up: bool, kv: map<string, Value>, rawId: string)
    requires Castable(rawId) && Key(rawId) != rawId && StoreKey(rawId) in kv && ViewsKey(Key(rawId)) in kv
    ensures var after := Cache.Purged(caps, up, Cache.Purged(caps, up, kv, ListPattern), StoreKey(Key(rawId)));
            StoreKey(rawId) in after && ViewsKey(Key(rawId)) in after
  {
    var k := Key(rawId);
    StoreKeyLiteral(k);
    Glob.LiteralMatchesItself(StoreKey(k), StoreKey(rawId));
    Glob.LiteralMatchesItself(StoreKey(k), ViewsKey(k));
    assert StoreKey(rawId) != StoreKey(k) by {
      assert StoreKey(rawId)[6..] == rawId;
      assert StoreKey(k)[6..] == k;
    }
    assert |ViewsKey(k)| != |StoreKey(k)|;
    NotListKey(StoreKey(rawId));
    NotListKey(ViewsKey(k));
  }

  /** `store:...` keys are not `stores:*` keys (the sixth character is ':' not 's'). */
  lemma NotListKey(key: string)
    requires StartsWith(key, "store:")
    ensures !Glob.Matches(ListPattern, key)
  {
    assert ListPattern == "stores:" + "*";
    Glob.PrefixStar("stores:", key);
    if |key| >= 7 {
      assert key[..7][5] == ':';
      assert key[..6][5] == ':';
    }
  }

  // ---------------------------------------------------------------- listLeadsForStore

  predicate LeadOf(k: Id, l: LeadModel.Lead) {
    l.store == k
  }

  method ListLeadsForStore(db: Db, caller: Option<string>, rawId: string) returns (r: Response)
    requires db.Valid()
    ensures !Given(caller) ==> r == Unauthorized
    ensures Given(caller) && (!db.connected || !Castable(rawId)) ==> r == ServerError
    ensures Given(caller) && db.connected && Castable(rawId) && Key(rawId) !in db.stores ==> r == NotFound
    ensures Given(caller) && db.connected && Castable(rawId) && Key(rawId) in db.stores ==>
              if OwnerText(db.stores[Key(rawId)]) != caller.value then r == NotOwner
              else
                && r.status == 200 && r.body.Leads?
                && PageOf(db.leads, LeadFilter(Key(rawId)), LeadCreatedAt, 0, LeadCap, r.body.leads)
  {
    if !Given(caller) {
      return Unauthorized;
    }
    if !db.connected || !Castable(rawId) {
      return ServerError;
    }
    var k := Key(rawId);
    if k !in db.stores {
      return NotFound;
    }
    if OwnerText(db.stores[k]) != caller.value {
      return NotOwner;
    }
    var ids := Newest(db.leads, LeadFilter(k), LeadCreatedAt);
    WindowShift(ids, 0, LeadCap);
    r := Response(200, Leads(Docs(db.leads, Window(ids, 0, LeadCap))));
  }

  /** The store's leads, as `find({ store })` selects them. */
  function LeadFilter(k: Id): LeadModel.Lead -> bool {
    l => LeadOf(k, l)
  }

  /** The sort key of `sort({ createdAt: -1 })`. */
  function LeadCreatedAt(l: LeadModel.Lead): int {
    l.createdAt
  }

  /**
   * What the owner gets back: at most 500 distinct leads of the store, newest first, and no lead
   * of the store left out is newer than one kept; all of them when fewer than 500 come back.
   */
  lemma LeadPageFacts(leads: map<Id, LeadModel.Lead>, k: Id, page: seq<LeadModel.Lead>)
    requires LeadsFiled(leads) && PageOf(leads, LeadFilter(k), LeadCreatedAt, 0, LeadCap, page)
    ensures |page| <= LeadCap
    ensures forall i :: 0 <= i < |page| ==> page[i] in leads.Values && page[i].store == k
    ensures forall i, j :: 0 <= i < j < |page| ==> page[i].createdAt >= page[j].createdAt && page[i] != page[j]
    ensures forall j :: j in leads && leads[j].store == k && leads[j] !in page ==>
              forall i :: 0 <= i < |page| ==> page[i].createdAt >= leads[j].createdAt
    ensures |page| < LeadCap ==> forall j :: j in leads && leads[j].store == k ==> leads[j] in page
  {
    var selected := set j | j in leads && leads[j].store == k;
    PageFacts(leads, LeadFilter(k), LeadCreatedAt, 0, LeadCap, page, selected);
    PageDistinct(leads, LeadFilter(k), LeadCreatedAt, 0, LeadCap, page);
  }

  // ---------------------------------------------------------------- contactStore

  datatype ContactBody = ContactBody(name: Option<string>, email: Option<string>, phone: Option<string>,
                                     message: Option<string>, source: Option<string>)

  function LeadSubject(s: Store): string {
    "New lead for " + s.name
  }

  /** The lead `contactStore` records for store `s`. */
  function LeadFor(s: Store, b: ContactBody, id: Id, now: int): (l: LeadModel.Lead)
    ensures l.store == s.id && l.id == id && l.clientEmail == b.email && l.status == LeadModel.New
    ensures l.storeSnapshot == LeadModel.Snapshot(Some(s.name), s.email, s.phone)
  {
    LeadModel.Create(LeadModel.Draft(Some(s.id), LeadModel.Snapshot(Some(s.name), s.email, s.phone),
                                     b.name, b.email, b.phone, b.message, b.source), id, now).doc
  }

  /** `$inc: { "analytics.leads": 1 }`. */
  function CountLead(s: Store): (t: Store)
    ensures t.analytics.leads == s.analytics.leads + 1
    ensures t == s.(analytics := t.analytics) && t.analytics.views == s.analytics.views && t.analytics.clicks == s.analytics.clicks
  {
    s.(analytics := s.analytics.(leads := s.analytics.leads + 1))
  }

  method ContactStore(db: Db, redis: Client, rawId: string, body: ContactBody, smtp: Mailer.Smtp, smtpUser: Option<string>,
                      leadId: Id, now: int)
    returns (r: Response)
    requires db.Valid() && redis.Valid() && StoredId(leadId) && leadId !in db.leads
    modifies db, redis
    ensures db.Valid() && redis.Valid() && redis.up == old(redis.up) && redis.expiry == old(redis.expiry)
    ensures db.connected == old(db.connected) && db.bookings == old(db.bookings) && db.hotels == old(db.hotels)
    ensures db.users == old(db.users)
    ensures !Given(body.email) ==>
              r == Response(400, Note("client email required")) && unchanged(db) && redis.kv == old(redis.kv)
    ensures Given(body.email) && (!db.connected || !Castable(rawId)) ==> r == ServerError && unchanged(db) && redis.kv == old(redis.kv)
    ensures Given(body.email) && db.connected && Castable(rawId) && Key(rawId) !in old(db.stores) ==>
              r == NotFound && unchanged(db) && redis.kv == old(redis.kv)
    ensures Given(body.email) && db.connected && Castable(rawId) && Key(rawId) in old(db.stores) ==>
              var s := old(db.stores)[Key(rawId)];
              var job := EmailJob(LeadNotice, s.email, LeadSubject(s), leadId);
              && db.leads == old(db.leads)[leadId := LeadFor(s, body, leadId, now)]
              && db.stores == old(db.stores)[Key(rawId) := CountLead(s)]
              && (Mailer.Outcome(smtp).Delivered? ==>
                    r == Response(201, LeadNoted("Lead created and emailed", leadId)) && redis.kv == old(redis.kv))
              && (Mailer.Outcome(smtp).Threw? ==>
                    r == Response(201, LeadNoted("Lead created (email queued)", leadId))
                    && redis.kv == Cache.Enqueued(redis.caps, redis.up, old(redis.kv), job))
  {
    if !Given(body.email) {
      return Response(400, Note("client email required"));
    }
    if !db.connected || !Castable(rawId) {
      return ServerError;
    }
    var k := Key(rawId);
    if k !in db.stores {
      return NotFound;
    }
    var s := db.stores[k];
    db.PutLead(LeadFor(s, body, leadId, now));
    db.PutStore(CountLead(s));
    var subject := LeadSubject(s);
    var result, attempts := Mailer.SendEmail(Mailer.Mail(smtpUser, s.email, subject), smtp);
    if result.Delivered? {
      return Response(201, LeadNoted("Lead created and emailed", leadId));
    }
    var queued := Cache.Enqueue(redis, EmailJob(LeadNotice, s.email, subject, leadId));
    r := Response(201, LeadNoted("Lead created (email queued)", leadId));
  }
}
