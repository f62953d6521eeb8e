/**
 * `googleLogin`: verify a Google ID token, then find the account by its Google id (or, failing
 * that, by e-mail), refresh or link it, or create a password-less account. Every failure after the
 * token check, the server's own included, answers 400.
 */
module GoogleController {
  import opened Wrappers
  import opened Text
  import opened Mongo
  import opened UserModel
  import opened Database

  /** The claims `verifyIdToken` hands back; Google always sets `sub`. */
  datatype Payload = Payload(name: Option<string>, email: Option<string>, picture: Option<string>, sub: string)

  datatype Body = Note(message: string) | LoggedIn(message: string, user: User, tokenId: Id)

  datatype Response = Response(status: int, body: Body)

  const MissingToken := Response(400, Note("Missing token"))
  const MissingEmail := Response(400, Note("Google token missing email"))
  const Failed := Response(400, Note("Google authentication failed"))

  /** The 200 answer: the user as a query returns it (no password), and a token for its id. */
  function LoggedInAs(u: User): (r: Response)
    ensures r.status == 200 && r.body.LoggedIn? && r.body.user.password.None? && r.body.tokenId == u.id
  {
    Response(200, LoggedIn("Login successful", Selected(u, false), u.id))
  }

  /**
   * What the two `findOne` calls may return: an account with this Google id if there is one,
   * otherwise the account with this e-mail, otherwise nothing. Which of several accounts sharing a
   * Google id comes back is the database's choice.
   */
  ghost predicate Lookup(users: map<Id, User>, sub: string, email: string, pick: Option<Id>) {
    if exists k :: k in users && users[k].googleId == Some(sub) then
      pick.Some? && pick.value in users && users[pick.value].googleId == Some(sub)
    else if exists k :: k in users && users[k].email == email then
      pick.Some? && pick.value in users && users[pick.value].email == email
    else pick.None?
  }

  /** The token verified to a payload with an e-mail: the request reaches the database. */
  predicate Reaches(token: Option<string>, verify: string -> Option<Payload>) {
    Given(token) && verify(token.value).Some? && Given(verify(token.value).value.email)
  }

  ghost predicate Picks(users: map<Id, User>, token: Option<string>, verify: string -> Option<Payload>, pick: Option<Id>) {
    if Reaches(token, verify) then
      var p := verify(token.value).value;
      Lookup(users, p.sub, NormalizeEmail(p.email.value), pick)
    else pick.None?
  }

  /** `!user.googleId || user.name !== name || user.avatar !== picture`. */
  predicate NeedsUpdate(u: User, p: Payload) {
    !Given(u.googleId) || Some(u.name) != p.name || Some(u.avatar) != p.picture
  }

  /** The account linked to the Google id, its name and avatar refreshed where the payload has them. */
  function Refreshed(u: User, p: Payload): (r: User)
    ensures r.id == u.id && r.email == u.email && r.password == u.password && r.role == u.role
    ensures r.googleId == Some(p.sub)
    ensures r.name == Trim(if Given(p.name) then p.name.value else u.name)
    ensures r.avatar == (if Given(p.picture) then p.picture.value else u.avatar)
  {
    u.(googleId := Some(p.sub),
       name := Trim(if Given(p.name) then p.name.value else u.name),
       avatar := if Given(p.picture) then p.picture.value else u.avatar)
  }

  /** An account was found: refreshed and saved when its Google id, name or avatar differ. */
  ghost function Relinked(users: map<Id, User>, p: Payload, k: Id): (Response, map<Id, User>)
    requires k in users
  {
    var u := users[k];
    if !NeedsUpdate(u, p) then (LoggedInAs(u), users)
    else match Save(Refreshed(u, p), false, "")
      case Rejected(_) => (Failed, users)
      case Ok(v) => (LoggedInAs(v), users[k := v])
  }

  /** No account was found: a password-less one is created. */
  ghost function Enrolled(users: map<Id, User>, p: Payload, id: Id, now: int): (Response, map<Id, User>) {
    match Create(Draft(p.name, p.email, None, Some(p.sub), p.picture), id, now, "")
    case Rejected(_) => (Failed, users)
    case Ok(u) => (LoggedInAs(u), users[id := u])
  }

  /** Once the account is looked up: refresh it, or create one. */
  ghost function Signed(users: map<Id, User>, p: Payload, pick: Option<Id>, id: Id, now: int): (Response, map<Id, User>)
    requires pick.Some? ==> pick.value in users
  {
    if pick.Some? then Relinked(users, p, pick.value) else Enrolled(users, p, id, now)
  }

  ghost function SignInEffect(connected: bool, users: map<Id, User>, token: Option<string>, verify: string -> Option<Payload>,
                              pick: Option<Id>, id: Id, now: int): (Response, map<Id, User>)
    requires Picks(users, token, verify, pick)
  {
    if !Given(token) then (MissingToken, users)
    else match verify(token.value)
      case None => (Failed, users)
      case Some(p) =>
        if !Given(p.email) then (MissingEmail, users)
        else if !connected then (Failed, users)
        else Signed(users, p, pick, id, now)
  }

  method GoogleLogin(db: Db, token: Option<string>, verify: string -> Option<Payload>, id: Id, now: int)
    returns (r: Response, account: Option<Id>)
    requires db.Valid() && StoredId(id) && id !in db.users
    modifies db
    ensures db.Valid()
    ensures db.connected == old(db.connected) && db.bookings == old(db.bookings) && db.hotels == old(db.hotels)
    ensures db.stores == old(db.stores) && db.leads == old(db.leads)
    ensures Picks(old(db.users), token, verify, account)
    ensures (r, db.users) == SignInEffect(old(db.connected), old(db.users), token, verify, account, id, now)
  {
    account := None;
    if !Given(token) {
      return MissingToken, None;
    }
    var verified := verify(token.value);
    if verified.None? {
      return Failed, None;
    }
    var p := verified.value;
    if !Given(p.email) {
      return MissingEmail, None;
    }
    // when the database is down the lookup is not reached; `account` is what it would have returned
    account := LookupBoth(db.users, p.sub, NormalizeEmail(p.email.value));
    if !db.connected {
      return Failed, account;
    }
    r := SignIn(db, p, account, id, now);
  }

  /** The connected part of `googleLogin`, from the looked-up account on. */
  method SignIn(db: Db, p: Payload, account: Option<Id>, id: Id, now: int) returns (r: Response)
    requires db.Valid() && StoredId(id) && id !in db.users && Given(p.email)
    requires account.Some? ==> account.value in db.users
    requires account.None? ==> forall k :: k in db.users ==> db.users[k].email != NormalizeEmail(p.email.value)
    modifies db
    ensures db.Valid()
    ensures db.connected == old(db.connected) && db.bookings == old(db.bookings) && db.hotels == old(db.hotels)
    ensures db.stores == old(db.stores) && db.leads == old(db.leads)
    ensures (r, db.users) == Signed(old(db.users), p, account, id, now)
  {
    if account.Some? {
      r := Relink(db, p, account.value);
    } else {
      r := Enrol(db, p, id, now);
    }
  }

  /** An account was found: refresh it if its Google id, name or avatar differ. */
  method Relink(db: Db, p: Payload, k: Id) returns (r: Response)
    requires db.Valid() && k in db.users
    modifies db
    ensures db.Valid()
    ensures db.connected == old(db.connected) && db.bookings == old(db.bookings) && db.hotels == old(db.hotels)
    ensures db.stores == old(db.stores) && db.leads == old(db.leads)
    ensures (r, db.users) == Relinked(old(db.users), p, k)
  {
    var u := db.users[k];
    if !NeedsUpdate(u, p) {
      return LoggedInAs(u);
    }
    var saved := Save(Refreshed(u, p), false, "");
    if saved.Rejected? {
      return Failed;
    }
    db.PutUser(saved.doc);
    r := LoggedInAs(saved.doc);
  }

  /** No account was found: create one without a password. */
  method Enrol(db: Db, p: Payload, id: Id, now: int) returns (r: Response)
    requires db.Valid() && StoredId(id) && id !in db.users && Given(p.email)
    requires forall k :: k in db.users ==> db.users[k].email != NormalizeEmail(p.email.value)
    modifies db
    ensures db.Valid()
    ensures db.connected == old(db.connected) && db.bookings == old(db.bookings) && db.hotels == old(db.hotels)
    ensures db.stores == old(db.stores) && db.leads == old(db.leads)
    ensures (r, db.users) == Enrolled(old(db.users), p, id, now)
  {
    var created := Create(Draft(p.name, p.email, None, Some(p.sub), p.picture), id, now, "");
    if created.Rejected? {
      return Failed;
    }
    assert created.doc.id == id && created.doc.email == NormalizeEmail(p.email.value);
    db.PutUser(created.doc);
    r := LoggedInAs(created.doc);
  }

  /** `findOne({ googleId })`, then `findOne({ email })` when the first finds nothing. */
  method LookupBoth(users: map<Id, User>, sub: string, email: string) returns (pick: Option<Id>)
    ensures Lookup(users, sub, email, pick)
  {
    pick := FindOne(users, (u: User) => u.googleId == Some(sub));
    if pick.None? {
      pick := FindOne(users, (u: User) => u.email == email);
    }
  }

  // ---------------------------------------------------------------- properties

  /** Refreshing a found account keeps every account, and every e-mail, password and role. */
  lemma RelinkedKeepsIdentity(users: map<Id, User>, p: Payload, k: Id)
    requires k in users
    ensures var after := Relinked(users, p, k).1;
            && after.Keys == users.Keys
            && forall j :: j in users ==>
                 after[j].email == users[j].email && after[j].password == users[j].password && after[j].role == users[j].role
  {
    var u := users[k];
    if NeedsUpdate(u, p) {
      var saved := Save(Refreshed(u, p), false, "");
      if saved.Ok? {
        assert saved.doc == Refreshed(u, p);
      }
    }
  }

  /** Creating an account adds at most the new id and leaves the others as they were. */
  lemma EnrolledKeepsOthers(users: map<Id, User>, p: Payload, id: Id, now: int)
    requires id !in users
    ensures var after := Enrolled(users, p, id, now).1;
            && users.Keys <= after.Keys && after.Keys <= users.Keys + {id}
            && forall j :: j in users ==> after[j] == users[j]
  {
  }

  /** Signing in with Google never changes an account's e-mail, password or role, nor drops an account. */
  lemma {:induction false} AccountsKeepTheirIdentity(connected: bool, users: map<Id, User>, token: Option<string>, verify: string -> Option<Payload>,
                                  pick: Option<Id>, id: Id, now: int)
    requires Picks(users, token, verify, pick) && id !in users
    ensures var after := SignInEffect(connected, users, token, verify, pick, id, now).1;
            && users.Keys <= after.Keys && after.Keys <= users.Keys + {id}
            && forall k :: k in users ==>
                 after[k].email == users[k].email && after[k].password == users[k].password && after[k].role == users[k].role
  {
    if Reaches(token, verify) && connected {
      var p := verify(token.value).value;
      assert Lookup(users, p.sub, NormalizeEmail(p.email.value), pick);
      if pick.Some? {
        RelinkedKeepsIdentity(users, p, pick.value);
      } else {
        EnrolledKeepsOthers(users, p, id, now);
      }
    }
  }

  /** An e-mail and password account is linked to the Google id the first time its owner signs in with Google. */
  lemma LinksPasswordAccount(users: map<Id, User>, p: Payload, k: Id)
    requires Given(p.email) && k in users && users[k].googleId.None?
    requires forall j :: j in users ==> users[j].googleId != Some(p.sub)
    requires users[k].email == NormalizeEmail(p.email.value)
    requires Present(Trim(users[k].name)) && Present(Trim(p.name.GetOr(users[k].name)))
    ensures Lookup(users, p.sub, NormalizeEmail(p.email.value), Some(k))
    ensures var (r, after) := Relinked(users, p, k);
            && r.status == 200 && after.Keys == users.Keys
            && after[k].googleId == Some(p.sub) && after[k].password == users[k].password
  {
    var v := Refreshed(users[k], p);
    RefreshSaves(users[k], p);
    assert Relinked(users, p, k) == (LoggedInAs(v), users[k := v]);
  }

  /** The refreshed account passes validation when the name it ends up with is not blank. */
  lemma RefreshSaves(u: User, p: Payload)
    requires Present(Trim(p.name.GetOr(u.name)))
    ensures Save(Refreshed(u, p), false, "") == Ok(Refreshed(u, p))
  {
    assert Refreshed(u, p).name == Trim(p.name.GetOr(u.name));
  }

  /** A payload without a name keeps the account's name. */
  lemma NamelessPayloadKeepsName(users: map<Id, User>, p: Payload, k: Id)
    requires k in users && !Given(p.name)
    requires Relinked(users, p, k).0.status == 200
    ensures Relinked(users, p, k).1[k].name == Trim(users[k].name)
  {
    if NeedsUpdate(users[k], p) {
      assert Refreshed(users[k], p).name == Trim(users[k].name);
    } else {
      assert users[k].name == "";
    }
  }

  /** Without a name in the payload a first-time Google user cannot be created, and gets the generic 400. */
  lemma NewNamelessUserFails(users: map<Id, User>, token: Option<string>, verify: string -> Option<Payload>, id: Id, now: int)
    requires Picks(users, token, verify, None) && Reaches(token, verify)
    requires !Given(verify(token.value).value.name) || !Present(Trim(verify(token.value).value.name.value))
    ensures SignInEffect(true, users, token, verify, None, id, now) == (Failed, users)
  {
  }

  /**
   * Signing in again with the same (already trimmed) name and picture finds nothing to update: the
   * second sign-in leaves the accounts as the first one left them.
   */
  lemma SecondSignInChangesNothing(users: map<Id, User>, p: Payload, pick: Option<Id>, k: Id, id: Id, now: int)
    requires Given(p.email) && Lookup(users, p.sub, NormalizeEmail(p.email.value), pick)
    requires Settled(p) && Signed(users, p, pick, id, now).0.status == 200
    requires k == (if pick.Some? then pick.value else id) && k in Signed(users, p, pick, id, now).1
    ensures var after := Signed(users, p, pick, id, now).1;
            Relinked(after, p, k) == (LoggedInAs(after[k]), after)
  {
    var after := Signed(users, p, pick, id, now).1;
    if pick.Some? {
      RelinkedSettles(users, p, k);
    } else {
      EnrolledSettles(users, p, id, now);
    }
    assert !NeedsUpdate(after[k], p);
  }

  /** A payload whose name is trimmed and which carries a picture: once applied, there is nothing left to update. */
  predicate Settled(p: Payload) {
    Given(p.name) && Trim(p.name.value) == p.name.value && Given(p.picture) && p.sub != ""
  }

  lemma RelinkedSettles(users: map<Id, User>, p: Payload, k: Id)
    requires k in users && Settled(p) && Relinked(users, p, k).0.status == 200
    ensures k in Relinked(users, p, k).1 && !NeedsUpdate(Relinked(users, p, k).1[k], p)
  {
    if NeedsUpdate(users[k], p) {
      var v := Refreshed(users[k], p);
      assert Save(v, false, "") == Ok(v);
    }
  }

  lemma EnrolledSettles(users: map<Id, User>, p: Payload, id: Id, now: int)
    requires Enrolled(users, p, id, now).0.status == 200 && Settled(p)
    ensures id in Enrolled(users, p, id, now).1 && !NeedsUpdate(Enrolled(users, p, id, now).1[id], p)
  {
  }

  /** Once the token verifies to a payload with an e-mail and the database is up, the sign-in is `Signed`. */
  lemma SignInIsSigned(users: map<Id, User>, token: Option<string>, verify: string -> Option<Payload>, pick: Option<Id>, id: Id, now: int)
    requires Picks(users, token, verify, pick) && Reaches(token, verify)
    ensures var p := verify(token.value).value;
            && Lookup(users, p.sub, NormalizeEmail(p.email.value), pick)
            && SignInEffect(true, users, token, verify, pick, id, now) == Signed(users, p, pick, id, now)
  {
  }
}
