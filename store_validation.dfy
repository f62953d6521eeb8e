/**
 * `validateCreateStore` / `validateUpdateStore`: the joi schemas for store bodies. Both run with
 * `abortEarly: false`, so every issue is reported; the update schema is the create schema with
 * `name` and `slug` made optional.
 */
module StoreValidation {
  import opened Wrappers
  import opened Text
  import opened Joi
  import StoreModel

  datatype LocationBody = LocationBody(kind: Option<string>, coordinates: Option<seq<real>>, unknown: seq<string>)

  datatype StoreBody = StoreBody(
    name: Option<string>,
    slug: Option<string>,
    description: Option<string>,
    category: Option<string>,
    tags: Option<StoreModel.Tags>,
    phone: Option<string>,
    email: Option<string>,
    website: Option<string>,
    location: Option<LocationBody>,
    unknown: seq<string>)

  /** Items of a `tags` array, each a non-empty string, checked under `tags[k]`. */
  function TagItemIssues(items: seq<string>, from: nat): (r: seq<Issue>)
    decreases |items|
    ensures r == [] <==> forall k :: 0 <= k < |items| ==> items[k] != ""
    ensures |r| <= |items|
  {
    if items == [] then []
    else
      assert forall k :: 1 <= k < |items| ==> items[k] == items[1..][k - 1];
      (if items[0] == "" then [Issue("tags[" + NatToString(from) + "]", Empty)] else []) + TagItemIssues(items[1..], from + 1)
  }

  /**
   * `alternatives().try(array().items(string()), string())`: the failing alternative's own issue is
   * reported when it is a single one; several failing items make joi report that nothing matched.
   */
  function TagsIssues(t: Option<StoreModel.Tags>): (r: seq<Issue>)
    ensures r == [] <==> TagsAccepted(t)
  {
    match t
    case None => []
    case Some(TagText(s)) => if s == "" then [Issue("tags", Empty)] else []
    case Some(TagList(items)) =>
      var item := TagItemIssues(items, 0);
      if |item| <= 1 then item else [Issue("tags", NoMatch)]
  }

  predicate TagsAccepted(t: Option<StoreModel.Tags>) {
    match t
    case None => true
    case Some(TagText(s)) => s != ""
    case Some(TagList(items)) => forall k :: 0 <= k < |items| ==> items[k] != ""
  }

  const PointRules: seq<StringRule> := [ValidRule(["Point"])]

  function LocationIssues(l: Option<LocationBody>, sx: Syntax): (r: seq<Issue>)
    ensures r == [] <==> l.None? || LocationAccepted(l.value)
  {
    match l
    case None => []
    case Some(lb) =>
      assert lb.kind.Some? && lb.kind.value != "" ==> (Holds(PointRules[0], lb.kind.value, sx) <==> lb.kind.value == "Point");
      StringIssues("location.type", lb.kind, true, false, PointRules, sx)
      + (match lb.coordinates
         case None => [Issue("location.coordinates", Required)]
         case Some(cs) => if |cs| != 2 then [Issue("location.coordinates", ItemCount(2))] else [])
      + UnknownIssues("location.", lb.unknown)
  }

  predicate LocationAccepted(l: LocationBody) {
    l.kind == Some("Point") && l.coordinates.Some? && |l.coordinates.value| == 2 && l.unknown == []
  }

  /** Every issue of the schema; `required` tells the create schema (true) from the update fork (false). */
  function Issues(b: StoreBody, required: bool, sx: Syntax): seq<Issue> {
    StringIssues("name", b.name, required, false, [MinRule(2), MaxRule(200)], sx)
    + StringIssues("slug", b.slug, required, false, [SlugRule], sx)
    + StringIssues("description", b.description, false, true, [MaxRule(2000)], sx)
    + StringIssues("category", b.category, false, false, [], sx)
    + TagsIssues(b.tags)
    + StringIssues("phone", b.phone, false, true, [], sx)
    + StringIssues("email", b.email, false, true, [EmailRule], sx)
    + StringIssues("website", b.website, false, true, [UriRule], sx)
    + LocationIssues(b.location, sx)
    + UnknownIssues("", b.unknown)
  }

  /** `validateCreateStore(body).error`: every issue, rendered and joined with ", ". */
  function ValidateCreate(b: StoreBody, sx: Syntax): (r: Option<string>)
    ensures r.None? <==> Issues(b, true, sx) == []
  {
    var issues := Issues(b, true, sx);
    if issues == [] then None else Some(Messages(issues))
  }

  /** `validateUpdateStore(body).error`. */
  function ValidateUpdate(b: StoreBody, sx: Syntax): (r: Option<string>)
    ensures r.None? <==> Issues(b, false, sx) == []
  {
    var issues := Issues(b, false, sx);
    if issues == [] then None else Some(Messages(issues))
  }

  predicate OptionalOrEmpty(v: Option<string>, ok: string -> bool) {
    v.None? || v.value == "" || ok(v.value)
  }

  /** What the schema accepts, key by key. */
  predicate Accepted(b: StoreBody, required: bool, sx: Syntax) {
    && (if b.name.None? then !required else 2 <= |b.name.value| <= 200)
    && (if b.slug.None? then !required else IsSlug(b.slug.value))
    && (b.description.None? || |b.description.value| <= 2000)
    && (b.category.None? || b.category.value != "")
    && TagsAccepted(b.tags)
    && OptionalOrEmpty(b.email, sx.isEmail)
    && OptionalOrEmpty(b.website, sx.isUri)
    && (b.location.None? || LocationAccepted(b.location.value))
    && b.unknown == []
  }

  /** Both schemas pass a body exactly when it meets every key's constraint. */
  lemma ValidateIffAccepted(b: StoreBody, required: bool, sx: Syntax)
    ensures Issues(b, required, sx) == [] <==> Accepted(b, required, sx)
  {
    var nr := [MinRule(2), MaxRule(200)];
    if b.name.Some? && b.name.value != "" {
      assert Holds(nr[0], b.name.value, sx) <==> |b.name.value| >= 2;
      assert Holds(nr[1], b.name.value, sx) <==> |b.name.value| <= 200;
    }
    var sr := [SlugRule];
    if b.slug.Some? && b.slug.value != "" {
      assert Holds(sr[0], b.slug.value, sx) <==> IsSlug(b.slug.value);
    }
    var dr := [MaxRule(2000)];
    if b.description.Some? && b.description.value != "" {
      assert Holds(dr[0], b.description.value, sx) <==> |b.description.value| <= 2000;
    }
    var er := [EmailRule];
    assert forall s :: Holds(er[0], s, sx) <==> sx.isEmail(s);
    var ur := [UriRule];
    assert forall s :: Holds(ur[0], s, sx) <==> sx.isUri(s);
  }

  /** The fork changes nothing for a body that gives both `name` and `slug`. */
  lemma ForkAgreesWhenKeysGiven(b: StoreBody, sx: Syntax)
    requires b.name.Some? && b.slug.Some?
    ensures Issues(b, false, sx) == Issues(b, true, sx)
    ensures ValidateUpdate(b, sx) == ValidateCreate(b, sx)
  {
  }

  /** Whatever the create schema accepts, the update schema accepts too. */
  lemma CreateAcceptedUpdateAccepted(b: StoreBody, sx: Syntax)
    requires ValidateCreate(b, sx).None?
    ensures ValidateUpdate(b, sx).None?
  {
    ValidateIffAccepted(b, true, sx);
    ValidateIffAccepted(b, false, sx);
  }

  /** An empty update body passes, while the create schema reports both missing keys, in order. */
  lemma EmptyBody(sx: Syntax)
    ensures ValidateUpdate(StoreBody(None, None, None, None, None, None, None, None, None, []), sx).None?
    ensures ValidateCreate(StoreBody(None, None, None, None, None, None, None, None, None, []), sx)
            == Some(Message(Issue("name", Required)) + ", " + Message(Issue("slug", Required)))
  {
    var b := StoreBody(None, None, None, None, None, None, None, None, None, []);
    var issues := [Issue("name", Required), Issue("slug", Required)];
    assert Issues(b, true, sx) == issues;
    assert Map(issues) == [Message(issues[0]), Message(issues[1])];
    assert Map(issues)[1..] == [Message(issues[1])];
  }
}
