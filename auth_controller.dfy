/**
 * The e-mail and password account handlers: `register`, `login` and `setPassword`. Each
 * successful call answers through `sendToken`: the user without its password, and a token for
 * the user's id. bcrypt is given as a hash and a compare function.
 */
module AuthController {
  import opened Wrappers
  import opened Text
  import opened Mongo
  import opened UserModel
  import opened Database

  /** `bcrypt.hash` (salting left out) and `bcrypt.compare`. */
  datatype Bcrypt = Bcrypt(hash: string -> string, compare: (string, string) -> bool)

  /** bcrypt accepts a password against its own hash. */
  ghost predicate Sound(b: Bcrypt) {
    forall p :: b.compare(p, b.hash(p))
  }

  datatype Body = Note(message: string) | Session(user: User, tokenId: Id)

  datatype Response = Response(status: int, body: Body)

  const ServerError := Response(500, Note("Server error"))
  const InvalidCredentials := Response(401, Note("Invalid credentials"))
  const ShortPassword := Response(400, Note("New password must be at least 6 characters"))

  /** `sendToken(user, status)`: the user without its password, and a token carrying the id. */
  function SessionFor(status: int, u: User): (r: Response)
    ensures r.status == status && r.body.Session? && r.body.user.password.None? && r.body.tokenId == u.id
  {
    Response(status, Session(u.(password := None), u.id))
  }

  /** `findOne({ email })`: the one user with that (normalised) e-mail, if any. */
  ghost function EmailOwner(users: map<Id, User>, e: string): (r: Option<Id>)
    ensures r.Some? ==> r.value in users && users[r.value].email == e
    ensures r.None? <==> forall k :: k in users ==> users[k].email != e
  {
    if exists k :: k in users && users[k].email == e then
      var k :| k in users && users[k].email == e;
      Some(k)
    else None
  }

  lemma OwnerIsUnique(users: map<Id, User>, e: string, k: Id)
    requires EmailsUnique(users) && k in users && users[k].email == e
    ensures EmailOwner(users, e) == Some(k)
  {
  }

  // ---------------------------------------------------------------- register

  ghost function RegisterEffect(connected: bool, users: map<Id, User>, name: Option<string>, email: Option<string>,
                                password: Option<string>, bcrypt: Bcrypt, id: Id, now: int): (Response, map<Id, User>)
  {
    if !Given(name) || !Given(email) || !Given(password) then
      (Response(400, Note("name, email and password are required")), users)
    else if !connected then (ServerError, users)
    else if EmailOwner(users, NormalizeEmail(email.value)).Some? then
      (Response(409, Note("Email already in use")), users)
    else match Create(Draft(name, email, password, None, None), id, now, bcrypt.hash(password.value))
      case Rejected(_) => (ServerError, users)
      case Ok(u) => (SessionFor(201, u), users[id := u])
  }

  method Register(db: Db, name: Option<string>, email: Option<string>, password: Option<string>, bcrypt: Bcrypt, id: Id, now: int)
    returns (r: Response)
    requires db.Valid() && StoredId(id) && id !in db.users
    modifies db
    ensures db.Valid()
    ensures db.connected == old(db.connected) && db.bookings == old(db.bookings) && db.hotels == old(db.hotels)
    ensures db.stores == old(db.stores) && db.leads == old(db.leads)
    ensures (r, db.users) == RegisterEffect(old(db.connected), old(db.users), name, email, password, bcrypt, id, now)
  {
    if !Given(name) || !Given(email) || !Given(password) {
      return Response(400, Note("name, email and password are required"));
    }
    if !db.connected {
      return ServerError;
    }
    var e := NormalizeEmail(email.value);
    var existing := FindOne(db.users, (u: User) => u.email == e);
    if existing.Some? {
      return Response(409, Note("Email already in use"));
    }
    var created := Create(Draft(name, email, password, None, None), id, now, bcrypt.hash(password.value));
    if created.Rejected? {
      return ServerError;
    }
    db.PutUser(created.doc);
    r := SessionFor(201, created.doc);
  }

  /**
   * The handler checks only that the password is there; a password under six characters passes
   * it and then fails the schema's `minlength`, which answers 500 rather than 400.
   */
  lemma ShortPasswordIsServerError(users: map<Id, User>, name: string, email: string, password: string, bcrypt: Bcrypt, id: Id, now: int)
    requires name != "" && email != "" && password != "" && |password| < MinPasswordLength
    requires EmailOwner(users, NormalizeEmail(email)).None?
    ensures RegisterEffect(true, users, Some(name), Some(email), Some(password), bcrypt, id, now).0 == ServerError
  {
  }

  // ---------------------------------------------------------------- login

  ghost function LoginEffect(connected: bool, users: map<Id, User>, email: Option<string>, password: Option<string>, bcrypt: Bcrypt): Response {
    if !Given(email) || !Given(password) then Response(400, Note("email and password required"))
    else if !connected then ServerError
    else match EmailOwner(users, NormalizeEmail(email.value))
      case None => InvalidCredentials
      case Some(k) =>
        // bcrypt.compare throws on an account that has no password
        if users[k].password.None? then ServerError
        else if !bcrypt.compare(password.value, users[k].password.value) then InvalidCredentials
        else SessionFor(200, users[k])
  }

  method Login(db: Db, email: Option<string>, password: Option<string>, bcrypt: Bcrypt) returns (r: Response)
    requires db.Valid()
    ensures r == LoginEffect(db.connected, db.users, email, password, bcrypt)
  {
    if !Given(email) || !Given(password) {
      return Response(400, Note("email and password required"));
    }
    if !db.connected {
      return ServerError;
    }
    var e := NormalizeEmail(email.value);
    var found := FindOne(db.users, (u: User) => u.email == e);
    if found.None? {
      return InvalidCredentials;
    }
    var u := db.users[found.value];
    OwnerIsUnique(db.users, e, found.value);
    if u.password.None? {
      return ServerError;
    }
    if !bcrypt.compare(password.value, u.password.value) {
      return InvalidCredentials;
    }
    r := SessionFor(200, u);
  }

  /** Whoever registers can log in with the same e-mail and password. */
  lemma RegisterThenLogin(users: map<Id, User>, name: string, email: string, password: string, bcrypt: Bcrypt, id: Id, now: int)
    requires EmailsUnique(users) && id !in users && Sound(bcrypt)
    requires RegisterEffect(true, users, Some(name), Some(email), Some(password), bcrypt, id, now).0.status == 201
    ensures var after := RegisterEffect(true, users, Some(name), Some(email), Some(password), bcrypt, id, now).1;
            id in after && LoginEffect(true, after, Some(email), Some(password), bcrypt) == SessionFor(200, after[id])
  {
    var e := NormalizeEmail(email);
    var created := Create(Draft(Some(name), Some(email), Some(password), None, None), id, now, bcrypt.hash(password));
    assert EmailOwner(users, e).None?;
    assert created.Ok?;
    var u := created.doc;
    assert u.email == e && u.password == Some(bcrypt.hash(password));
    var after := users[id := u];
    assert RegisterEffect(true, users, Some(name), Some(email), Some(password), bcrypt, id, now).1 == after;
    assert EmailsUnique(after) by {
      forall k, k' | k in after && k' in after && k != k' ensures after[k].email != after[k'].email {
        if k == id {
          assert users[k'].email != e;
        } else if k' == id {
          assert users[k].email != e;
        }
      }
    }
    OwnerIsUnique(after, e, id);
    assert bcrypt.compare(password, bcrypt.hash(password));
  }

  /** An unknown e-mail and a wrong password get the same answer. */
  lemma FailuresLookAlike(users: map<Id, User>, unknown: string, known: string, wrong: string, bcrypt: Bcrypt)
    requires unknown != "" && known != "" && wrong != ""
    requires EmailOwner(users, NormalizeEmail(unknown)).None?
    requires EmailOwner(users, NormalizeEmail(known)).Some?
    requires var u := users[EmailOwner(users, NormalizeEmail(known)).value];
             u.password.Some? && !bcrypt.compare(wrong, u.password.value)
    ensures LoginEffect(true, users, Some(unknown), Some(wrong), bcrypt) == LoginEffect(true, users, Some(known), Some(wrong), bcrypt)
  {
  }

  /** An account made through Google has no password; logging into it with one is a server error. */
  lemma PasswordlessLoginFails(users: map<Id, User>, k: Id, password: string, bcrypt: Bcrypt)
    requires EmailsUnique(users) && k in users && users[k].password.None? && users[k].email != "" && password != ""
    requires NormalizeEmail(users[k].email) == users[k].email
    ensures LoginEffect(true, users, Some(users[k].email), Some(password), bcrypt) == ServerError
  {
    OwnerIsUnique(users, users[k].email, k);
  }

  // ---------------------------------------------------------------- setPassword

  ghost function SetPasswordEffect(connected: bool, users: map<Id, User>, caller: Option<string>, current: Option<string>,
                                   newPassword: Option<string>, bcrypt: Bcrypt): (Response, map<Id, User>)
  {
    if !Given(caller) then (Response(401, Note("Unauthorized")), users)
    else if !Given(newPassword) || |newPassword.value| < MinPasswordLength then (ShortPassword, users)
    else if !connected || !Castable(caller.value) then (ServerError, users)
    else if Key(caller.value) !in users then (Response(404, Note("User not found")), users)
    else
      var u := users[Key(caller.value)];
      if Given(u.password) && !Given(current) then (Response(400, Note("Current password required")), users)
      else if Given(u.password) && !bcrypt.compare(current.value, u.password.value) then
        (Response(401, Note("Current password is incorrect")), users)
      else match Save(u.(password := newPassword), true, bcrypt.hash(newPassword.value))
        case Rejected(_) => (ServerError, users)
        case Ok(v) => (SessionFor(200, v), users[Key(caller.value) := v])
  }

  method SetPassword(db: Db, caller: Option<string>, current: Option<string>, newPassword: Option<string>, bcrypt: Bcrypt)
    returns (r: Response)
    requires db.Valid()
    modifies db
    ensures db.Valid()
    ensures db.connected == old(db.connected) && db.bookings == old(db.bookings) && db.hotels == old(db.hotels)
    ensures db.stores == old(db.stores) && db.leads == old(db.leads)
    ensures (r, db.users) == SetPasswordEffect(old(db.connected), old(db.users), caller, current, newPassword, bcrypt)
  {
    if !Given(caller) {
      return Response(401, Note("Unauthorized"));
    }
    if !Given(newPassword) || |newPassword.value| < MinPasswordLength {
      return ShortPassword;
    }
    if !db.connected || !Castable(caller.value) {
      return ServerError;
    }
    var k := Key(caller.value);
    if k !in db.users {
      return Response(404, Note("User not found"));
    }
    var u := db.users[k];
    if Given(u.password) {
      if !Given(current) {
        return Response(400, Note("Current password required"));
      }
      if !bcrypt.compare(current.value, u.password.value) {
        return Response(401, Note("Current password is incorrect"));
      }
    }
    var saved := Save(u.(password := newPassword), true, bcrypt.hash(newPassword.value));
    if saved.Rejected? {
      return ServerError;
    }
    db.PutUser(saved.doc);
    r := SessionFor(200, saved.doc);
  }

  /** After a password is set, logging in with the account's e-mail and that password succeeds. */
  lemma SetPasswordThenLogin(users: map<Id, User>, caller: string, current: Option<string>, newPassword: string, bcrypt: Bcrypt)
    requires EmailsUnique(users) && Sound(bcrypt)
    requires SetPasswordEffect(true, users, Some(caller), current, Some(newPassword), bcrypt).0.status == 200
    ensures var after := SetPasswordEffect(true, users, Some(caller), current, Some(newPassword), bcrypt).1;
            var k := Key(caller);
            && k in after && after[k].email == users[k].email
            && (users[k].email != "" && NormalizeEmail(users[k].email) == users[k].email ==>
                  LoginEffect(true, after, Some(users[k].email), Some(newPassword), bcrypt) == SessionFor(200, after[k]))
  {
    var k := Key(caller);
    var after := SetPasswordEffect(true, users, Some(caller), current, Some(newPassword), bcrypt).1;
    assert after == users[k := after[k]];
    assert EmailsUnique(after) by {
      forall j, j' | j in after && j' in after && j != j' ensures after[j].email != after[j'].email {
        assert after[j].email == users[j].email && after[j'].email == users[j'].email;
      }
    }
    if users[k].email != "" && NormalizeEmail(users[k].email) == users[k].email {
      OwnerIsUnique(after, users[k].email, k);
    }
  }

  /** An account without a password (made through Google) sets its first one without a current password. */
  lemma FirstPasswordNeedsNoCurrent(users: map<Id, User>, caller: string, newPassword: string, bcrypt: Bcrypt)
    requires Castable(caller) && Key(caller) in users && users[Key(caller)].password.None? && Present(users[Key(caller)].name)
    requires |newPassword| >= MinPasswordLength
    ensures SetPasswordEffect(true, users, Some(caller), None, Some(newPassword), bcrypt).0.status == 200
  {
    assert caller != "";
  }
}
