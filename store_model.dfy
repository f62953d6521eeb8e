/** The `Store` collection's schema: business listings with enums, defaults and analytics counters. */
module StoreModel {
  import opened Wrappers
  import opened Mongo

  /** `priceRange`: "$", "$$" or "$$$". */
  datatype PriceRange = Budget | Moderate | Premium

  function PriceRangeName(p: PriceRange): string {
    match p
    case Budget => "$"
    case Moderate => "$$"
    case Premium => "$$$"
  }

  /** `tags` as a request gives it: a list of strings or one string. */
  datatype Tags = TagList(items: seq<string>) | TagText(text: string)

  /** `location`: a GeoJSON point `{ type, coordinates: [lng, lat] }`. */
  datatype GeoPoint = GeoPoint(kind: string, coordinates: seq<real>)

  datatype Analytics = Analytics(views: int, clicks: int, leads: int)

  datatype ContactPreferences = ContactPreferences(contactForm: bool, phone: bool, email: bool)

  datatype Store = Store(
    id: Id,
    owner: Option<Id>,
    name: string,
    slug: string,
    description: Option<string>,
    category: Option<string>,
    tags: seq<string>,
    phone: Option<string>,
    email: Option<string>,
    website: Option<string>,
    priceRange: PriceRange,
    location: GeoPoint,
    isFeatured: bool,
    verified: bool,
    contactPreferences: ContactPreferences,
    analytics: Analytics,
    createdAt: int)

  /** The request-body keys the store validators admit. */
  datatype Fields = Fields(
    name: Option<string>,
    slug: Option<string>,
    description: Option<string>,
    category: Option<string>,
    tags: Option<Tags>,
    phone: Option<string>,
    email: Option<string>,
    website: Option<string>,
    location: Option<GeoPoint>)

  /** mongoose casts a single string given for `[String]` to a one-element array. */
  function CastTags(t: Tags): (r: seq<string>)
    ensures t.TagList? ==> r == t.items
    ensures t.TagText? ==> r == [t.text]
  {
    match t
    case TagList(items) => items
    case TagText(s) => [s]
  }

  const DefaultLocation := GeoPoint("Point", [])

  /**
   * What the `2dsphere` index on `location.coordinates` lets the database store: an empty array,
   * which the (sparse) index skips, or a `[lng, lat]` pair with |lng| <= 180 and |lat| <= 90.
   * Any other array makes the insert or the save fail.
   */
  predicate Placeable(p: GeoPoint) {
    var c := p.coordinates;
    |c| == 0 || (|c| == 2 && -180.0 <= c[0] <= 180.0 && -90.0 <= c[1] <= 90.0)
  }

  /**
   * `Store.create({ ...fields, owner })`: `name` and `slug` are required, everything else has a
   * default, and the geo index refuses a point it cannot place.
   */
  function Create(owner: Id, f: Fields, id: Id, now: int): (r: Saved<Store>)
    ensures r.Ok? <==> && f.name.Some? && Present(f.name.value) && f.slug.Some? && Present(f.slug.value)
                       && Placeable(f.location.GetOr(DefaultLocation))
    ensures r.Ok? ==> r.doc.location == f.location.GetOr(DefaultLocation)
    ensures r.Ok? ==> && r.doc.id == id && r.doc.owner == Some(owner)
                      && r.doc.name == f.name.value && r.doc.slug == f.slug.value
                      && r.doc.priceRange == Budget && r.doc.analytics == Analytics(0, 0, 0)
                      && r.doc.contactPreferences == ContactPreferences(true, true, true)
                      && !r.doc.isFeatured && !r.doc.verified
  {
    if f.name.None? || !Present(f.name.value) then Rejected("name")
    else if f.slug.None? || !Present(f.slug.value) then Rejected("slug")
    else if !Placeable(f.location.GetOr(DefaultLocation)) then Rejected("location.coordinates")
    else
      Ok(Store(id, Some(owner), f.name.value, f.slug.value, f.description, f.category,
               if f.tags.Some? then CastTags(f.tags.value) else [],
               f.phone, f.email, f.website, Budget, f.location.GetOr(DefaultLocation),
               false, false, ContactPreferences(true, true, true), Analytics(0, 0, 0), now))
  }

  /**
   * `Object.assign(store, fields)` followed by `store.save()`: present keys overwrite, the rest
   * stay; a new location must be one the geo index can place.
   */
  function Assign(s: Store, f: Fields): (r: Saved<Store>)
    ensures r.Ok? <==> && (f.name.None? || Present(f.name.value)) && (f.slug.None? || Present(f.slug.value))
                       && (f.location.None? || Placeable(f.location.value))
    ensures r.Ok? ==> && r.doc.id == s.id && r.doc.owner == s.owner && r.doc.analytics == s.analytics
                      && r.doc.name == f.name.GetOr(s.name) && r.doc.slug == f.slug.GetOr(s.slug)
                      && r.doc.location == f.location.GetOr(s.location)
                      && r.doc.createdAt == s.createdAt
  {
    if f.name.Some? && !Present(f.name.value) then Rejected("name")
    else if f.slug.Some? && !Present(f.slug.value) then Rejected("slug")
    else if f.location.Some? && !Placeable(f.location.value) then Rejected("location.coordinates")
    else
      Ok(s.(name := f.name.GetOr(s.name),
            slug := f.slug.GetOr(s.slug),
            description := if f.description.Some? then f.description else s.description,
            category := if f.category.Some? then f.category else s.category,
            tags := if f.tags.Some? then CastTags(f.tags.value) else s.tags,
            phone := if f.phone.Some? then f.phone else s.phone,
            email := if f.email.Some? then f.email else s.email,
            website := if f.website.Some? then f.website else s.website,
            location := f.location.GetOr(s.location)))
  }
}
