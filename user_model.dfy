/** The `User` collection's schema and its pre-save hook that hashes a changed password. */
module UserModel {
  import opened Wrappers
  import opened Text
  import opened Mongo

  /** `role`: "user" or "buisness" (the schema's own spelling). */
  datatype Role = Customer | Buisness

  function RoleName(r: Role): string {
    match r
    case Customer => "user"
    case Buisness => "buisness"
  }

  const DefaultAvatar := "https://res.cloudinary.com/dvmcocgdu/image/upload/v1730400000/default-avatar.png"

  const MinPasswordLength := 6

  /** A stored user; `password` holds the bcrypt hash, when there is one. */
  datatype User = User(
    id: Id,
    name: string,
    email: string,
    password: Option<string>,
    googleId: Option<string>,
    avatar: string,
    role: Role,
    createdAt: int)

  datatype Draft = Draft(
    name: Option<string>,
    email: Option<string>,
    password: Option<string>,
    googleId: Option<string>,
    avatar: Option<string>)

  /** The `email` path's setters: `lowercase` and `trim`; they also apply to query values. */
  function NormalizeEmail(e: string): string {
    Lower(Trim(e))
  }

  /** `minlength: 6` on a password being written (a stored hash is not re-checked). */
  predicate PasswordLongEnough(p: Option<string>) {
    p.None? || |p.value| >= MinPasswordLength
  }

  /**
   * The pre-save hook: hash the password only when it was modified. `hashed` is what
   * `bcrypt.hash` returned for it.
   */
  function HashOnSave(u: User, passwordModified: bool, hashed: string): (r: User)
    ensures !passwordModified || u.password.None? ==> r == u
    ensures passwordModified && u.password.Some? ==> r == u.(password := Some(hashed))
  {
    if passwordModified && u.password.Some? then u.(password := Some(hashed)) else u
  }

  /**
   * `User.create(draft)`: setters, then validation (`name` and `email` required, password length),
   * then the hook, which hashes any password given.
   */
  function Create(d: Draft, id: Id, now: int, hashed: string): (r: Saved<User>)
    ensures r.Ok? <==> && d.name.Some? && Present(Trim(d.name.value))
                       && d.email.Some? && Present(NormalizeEmail(d.email.value))
                       && PasswordLongEnough(d.password)
    ensures r.Ok? ==> && r.doc.name == Trim(d.name.value) && r.doc.email == NormalizeEmail(d.email.value)
                      && r.doc.role == Customer && r.doc.googleId == d.googleId
                      && r.doc.avatar == d.avatar.GetOr(DefaultAvatar)
                      && r.doc.password == (if d.password.Some? then Some(hashed) else None)
                      && r.doc.id == id
  {
    if d.name.None? || !Present(Trim(d.name.value)) then Rejected("name")
    else if d.email.None? || !Present(NormalizeEmail(d.email.value)) then Rejected("email")
    else if !PasswordLongEnough(d.password) then Rejected("password")
    else
      var u := User(id, Trim(d.name.value), NormalizeEmail(d.email.value), d.password, d.googleId,
                    d.avatar.GetOr(DefaultAvatar), Customer, now);
      Ok(HashOnSave(u, d.password.Some?, hashed))
  }

  /**
   * `user.save()` on a loaded user whose `name` may have been reassigned (through the trim setter)
   * and whose `password` may have been replaced by a plain-text one.
   */
  function Save(u: User, passwordModified: bool, hashed: string): (r: Saved<User>)
    ensures r.Ok? <==> Present(u.name) && (!passwordModified || PasswordLongEnough(u.password))
    ensures r.Ok? ==> r.doc == HashOnSave(u, passwordModified, hashed)
  {
    if !Present(u.name) then Rejected("name")
    else if passwordModified && !PasswordLongEnough(u.password) then Rejected("password")
    else Ok(HashOnSave(u, passwordModified, hashed))
  }

  /** `select: false`: a query returns the password only when asked for with `+password`. */
  function Selected(u: User, withPassword: bool): (r: User)
    ensures withPassword ==> r == u
    ensures !withPassword ==> r.password.None? && r == u.(password := None)
  {
    if withPassword then u else u.(password := None)
  }
}
