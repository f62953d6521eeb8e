/**
 * The booking handlers: `createBooking` (validate, check the database and the hotel, take a
 * Redis lock, persist, cache, e-mail or queue or roll back, release the lock), the cache-first
 * reads `getBookings` and `getBookingById`, and `cancelBooking`.
 *
 * Each handler works on a `Database.Db` and a `Redis.Client`; what it does to both, and the reply
 * it sends, is stated by a function of the old state (`CreateEffect`, `CancelEffect`), and the
 * lemmas at the end state what those functions promise.
 */
module BookingController {
  import opened Wrappers
  import opened Text
  import opened Mongo
  import opened Joi
  import Dates
  import Glob
  import opened Redis
  import Cache
  import Mailer
  import BookingModel
  import HotelModel
  import UserModel
  import BookingValidation
  import opened Database

  /** The JSON body of a reply. */
  datatype Body =
    | Note(message: string)
    | Failed(message: string, error: string)
    | Created(message: string, booking: BookingModel.Booking, emailSent: bool, queued: bool, preview: Option<string>)
    | FromCache(value: Value)
    | Listed(bookings: seq<BookingModel.Booking>)
    | Found(booking: BookingModel.Booking)
    | Cancelled(message: string, booking: BookingModel.Booking, emailStatus: EmailStatus)

  /** `emailStatus` of a cancellation: `queued` and `error` are absent unless set. */
  datatype EmailStatus = EmailStatus(sent: bool, queued: Option<bool>, error: Option<string>)

  datatype Response = Response(status: int, body: Body)

  /** A reply together with the collections and key space it leaves behind. */
  datatype Effect = Effect(reply: Response, bookings: map<Id, BookingModel.Booking>, kv: map<string, Value>, expiry: map<string, int>)

  const ServerError := Response(500, Note("Server error"))
  const LockBusy := Response(409, Note("Another booking is being processed for these dates. Try again."))
  const EmailFailed := "Booking failed: confirmation email could not be sent"
  const LockSeconds := 30
  const ListCap := 200
  const ListPattern := "bookings:*"
  /** The TypeError `booking.hotel.name` raises when the populated hotel is null. */
  const NullHotelName := "Cannot read properties of null (reading 'name')"
  const NoRecipient := "No recipient email available"

  /** `booking:lock:<hotel>:<roomName or "any">:<checkIn ISO>:<checkOut ISO>`. */
  function LockKey(hotel: string, roomName: Option<string>, checkIn: int, checkOut: int): (k: string)
    ensures StartsWith(k, LockPrefix)
  {
    var rest := hotel + ":" + (if Given(roomName) then roomName.value else "any") + ":"
                + Dates.ToIsoString(checkIn) + ":" + Dates.ToIsoString(checkOut);
    PrefixOfConcat(LockPrefix, rest);
    LockPrefix + rest
  }

  const LockPrefix := "booking:lock:"

  /** The cache entry of one booking. */
  function BookingKey(id: string): string {
    "booking:" + id
  }

  /** `bookings:user=<user or "">:hotel=<hotel or "">`. */
  function ListKey(user: Option<string>, hotel: Option<string>): string {
    "bookings:user=" + OrEmpty(user) + ":hotel=" + OrEmpty(hotel)
  }

  // ---------------------------------------------------------------- createBooking

  /** The checks that run before anything is locked or written: 400, then 503, then 404. */
  function Gate(body: BookingValidation.BookingBody, sx: Syntax, connected: bool, hotels: map<Id, HotelModel.Hotel>): (r: Option<Response>)
    ensures BookingValidation.Validate(body, sx).Some? ==>
              r == Some(Response(400, Note(Message(BookingValidation.Validate(body, sx).value))))
    ensures BookingValidation.Validate(body, sx).None? && !connected ==>
              r == Some(Response(503, Note("Service unavailable: database not connected")))
    ensures BookingValidation.Validate(body, sx).None? && connected ==>
              body.hotel.Some? && (r.Some? <==> Key(body.hotel.value) !in hotels)
              && (r.Some? ==> r.value == Response(404, Note("Hotel not found")))
  {
    match BookingValidation.Validate(body, sx)
    case Some(issue) => Some(Response(400, Note(Message(issue))))
    case None =>
      BookingValidation.AcceptedHotelCastable(body, sx);
      if !connected then Some(Response(503, Note("Service unavailable: database not connected")))
      else if Key(body.hotel.value) !in hotels then Some(Response(404, Note("Hotel not found")))
      else None
  }

  /** `(req.user && req.user.id) || data.user || null`. */
  function UserIdOf(authUser: Option<string>, bodyUser: Option<string>): (r: Option<string>)
    ensures r.Some? ==> r.value != ""
    ensures Given(authUser) ==> r == authUser
    ensures !Given(authUser) ==> (r.Some? <==> Given(bodyUser)) && (r.Some? ==> r == bodyUser)
  {
    if Given(authUser) then authUser else if Given(bodyUser) then bodyUser else None
  }

  /** The lock key of an accepted body. */
  function LockKeyOf(body: BookingValidation.BookingBody, sx: Syntax): (k: string)
    requires BookingValidation.Validate(body, sx).None?
    ensures StartsWith(k, LockPrefix)
  {
    BookingValidation.AcceptedHotelCastable(body, sx);
    LockKey(body.hotel.value, body.roomName, sx.isoDate(body.checkIn.value).value, sx.isoDate(body.checkOut.value).value)
  }

  /** `Booking.create(bookingPayload)`: the user id must cast to an ObjectId, then the schema decides. */
  function Persisted(body: BookingValidation.BookingBody, sx: Syntax, authUser: Option<string>, id: Id, now: int): (r: Saved<BookingModel.Booking>)
    requires BookingValidation.Validate(body, sx).None?
    ensures r.Ok? <==> UserIdOf(authUser, body.user).Some? && Castable(UserIdOf(authUser, body.user).value)
    ensures r.Ok? ==> && r.doc.id == id && r.doc.user == Key(UserIdOf(authUser, body.user).value)
                      && r.doc.hotel == Key(body.hotel.value) && r.doc.status == BookingModel.Booked
                      && r.doc.totalPrice == body.totalPrice.value && r.doc.createdAt == now
  {
    BookingValidation.AcceptedHotelCastable(body, sx);
    var user := UserIdOf(authUser, body.user);
    if user.Some? && !Castable(user.value) then Rejected("user")
    else
      var payment := if body.payment.Some? then Some(BookingModel.Payment(body.payment.value.payMethod, body.payment.value.transactionId)) else None;
      var draft := BookingModel.Draft(
        if user.Some? then Some(Key(user.value)) else None,
        Some(Key(body.hotel.value)),
        body.roomName,
        sx.isoDate(body.checkIn.value),
        sx.isoDate(body.checkOut.value),
        body.guests,
        body.totalPrice,
        body.currency,
        payment,
        body.contactEmail);
      BookingModel.Create(draft, id, now)
  }

  /** The subject line of the confirmation e-mail. */
  function ConfirmationSubject(hotel: HotelModel.Hotel): string {
    "Booking confirmation - " + hotel.name
  }

  /**
   * After `Booking.create` stored `b`: cache it, purge the cached lists, send the confirmation;
   * when sending throws, queue it; when queuing is impossible too, delete the booking again.
   */
  function Commit(caps: Caps, up: bool, bookings: map<Id, BookingModel.Booking>, kv: map<string, Value>, expiry: map<string, int>,
                  b: BookingModel.Booking, to: Option<string>, subject: string, smtp: Mailer.Smtp): Effect
  {
    var kv1 := Cache.Purged(caps, up, Cache.Stored(caps, up, kv, BookingKey(b.id), BookingDoc(b)), ListPattern);
    var expiry1 := Cache.Purged(caps, up, Cache.StoredTtl(caps, up, expiry, BookingKey(b.id)), ListPattern);
    match Mailer.Outcome(smtp)
    case Delivered(preview) =>
      Effect(Response(201, Created("Booking created", b, true, false, preview)), bookings[b.id := b], kv1, expiry1)
    case Threw(message) =>
      if Cache.CanQueue(caps, up, kv1) then
        var job := EmailJob(BookingConfirmation, to, subject, b.id);
        Effect(Response(201, Created("Booking created (email queued)", b, false, true, None)), bookings[b.id := b],
               Cache.Enqueued(caps, up, kv1, job), expiry1)
      else
        Effect(Response(502, Failed(EmailFailed, message)), bookings, kv1, expiry1)
  }

  /**
   * Everything after the gate: the lock (a thrown `set` is a 500, a held lock a 409), the create
   * (a refused document is a 500), the commit, and the `finally` that releases the lock.
   */
  function CreateEffect(body: BookingValidation.BookingBody, sx: Syntax, lockKey: string, authUser: Option<string>, hotel: HotelModel.Hotel,
                        smtp: Mailer.Smtp, id: Id, now: int,
                        caps: Caps, up: bool, bookings: map<Id, BookingModel.Booking>, kv: map<string, Value>, expiry: map<string, int>): Effect
    requires BookingValidation.Validate(body, sx).None?
  {
    if caps.setCmd && !up then Effect(ServerError, bookings, kv, expiry)
    else if caps.setCmd && lockKey in kv then Effect(LockBusy, bookings, kv, expiry)
    else
      var acquired := caps.setCmd;
      var kv1 := if acquired then kv[lockKey := Count(1)] else kv;
      var expiry1 := if acquired then expiry[lockKey := LockSeconds] else expiry;
      Unlock(Locked(body, sx, authUser, hotel, smtp, id, now, caps, up, bookings, kv1, expiry1), lockKey, acquired && caps.del)
  }

  /** What happens while the lock is held (or without one, when the client has no `set`). */
  function Locked(body: BookingValidation.BookingBody, sx: Syntax, authUser: Option<string>, hotel: HotelModel.Hotel,
                  smtp: Mailer.Smtp, id: Id, now: int,
                  caps: Caps, up: bool, bookings: map<Id, BookingModel.Booking>, kv: map<string, Value>, expiry: map<string, int>): Effect
    requires BookingValidation.Validate(body, sx).None?
  {
    match Persisted(body, sx, authUser, id, now)
    case Rejected(_) => Effect(ServerError, bookings, kv, expiry)
    case Ok(b) => Commit(caps, up, bookings, kv, expiry, b, body.contactEmail, ConfirmationSubject(hotel), smtp)
  }

  /** The `finally` block: delete the lock key when this request took it and the client has `del`. */
  function Unlock(e: Effect, lockKey: string, release: bool): (r: Effect)
    ensures r.reply == e.reply && r.bookings == e.bookings
    ensures release ==> lockKey !in r.kv && lockKey !in r.expiry
    ensures forall k :: k != lockKey ==> (k in r.kv <==> k in e.kv) && (k in r.kv ==> r.kv[k] == e.kv[k])
    ensures !release ==> r == e
  {
    if release then e.(kv := Without(e.kv, {lockKey}), expiry := Without(e.expiry, {lockKey})) else e
  }

  /** The lock step: `set(lockKey, "1", { NX: true, EX: 30 })` when the client has `set`. */
  method TakeLock(redis: Client, lockKey: string) returns (ok: bool, acquired: bool)
    requires redis.Valid()
    modifies redis
    ensures redis.Valid() && redis.up == old(redis.up)
    ensures ok <==> !(redis.caps.setCmd && !redis.up)
    ensures acquired <==> redis.caps.setCmd && redis.up && lockKey !in old(redis.kv)
    ensures redis.kv == (if acquired then old(redis.kv)[lockKey := Count(1)] else old(redis.kv))
    ensures redis.expiry == (if acquired then old(redis.expiry)[lockKey := LockSeconds] else old(redis.expiry))
  {
    ok, acquired := true, false;
    if redis.caps.setCmd {
      ok, acquired := redis.SetIfAbsent(lockKey, Count(1), LockSeconds);
    }
  }

  /** Cache, mail, queue or roll back, for the booking `b` just stored. */
  method CommitBooking(db: Db, redis: Client, b: BookingModel.Booking, to: Option<string>, subject: string,
                       smtp: Mailer.Smtp, smtpUser: Option<string>)
    returns (r: Response)
    requires db.Valid() && redis.Valid() && StoredId(b.id) && b.id !in db.bookings
    modifies db, redis
    ensures db.Valid() && redis.Valid() && redis.up == old(redis.up)
    ensures db.connected == old(db.connected) && db.hotels == old(db.hotels) && db.users == old(db.users)
    ensures db.stores == old(db.stores) && db.leads == old(db.leads)
    ensures Effect(r, db.bookings, redis.kv, redis.expiry)
            == Commit(redis.caps, old(redis.up), old(db.bookings), old(redis.kv), old(redis.expiry), b, to, subject, smtp)
  {
    ghost var caps, up := redis.caps, redis.up;
    db.PutBooking(b);
    Cache.Put(redis, BookingKey(b.id), BookingDoc(b));
    Cache.Purge(redis, ListPattern);
    ghost var kv1, expiry1 := redis.kv, redis.expiry;
    assert kv1 == Cache.Purged(caps, up, Cache.Stored(caps, up, old(redis.kv), BookingKey(b.id), BookingDoc(b)), ListPattern);
    assert expiry1 == Cache.Purged(caps, up, Cache.StoredTtl(caps, up, old(redis.expiry), BookingKey(b.id)), ListPattern);
    var result, attempts := Mailer.SendEmail(Mailer.Mail(smtpUser, to, subject), smtp);
    if result.Delivered? {
      r := Response(201, Created("Booking created", b, true, false, result.preview));
    } else {
      var queued := Cache.Enqueue(redis, EmailJob(BookingConfirmation, to, subject, b.id));
      if queued {
        r := Response(201, Created("Booking created (email queued)", b, false, true, None));
      } else {
        PutThenDrop(old(db.bookings), b.id, b);
        db.DropBooking(b.id);
        r := Response(502, Failed(EmailFailed, result.message));
      }
    }
  }

  method CreateBooking(db: Db, redis: Client, body: BookingValidation.BookingBody, authUser: Option<string>,
                       sx: Syntax, smtp: Mailer.Smtp, smtpUser: Option<string>, id: Id, now: int)
    returns (r: Response)
    requires db.Valid() && redis.Valid() && StoredId(id) && id !in db.bookings
    modifies db, redis
    ensures db.Valid() && redis.Valid() && redis.up == old(redis.up)
    ensures db.connected == old(db.connected) && db.hotels == old(db.hotels) && db.users == old(db.users)
    ensures db.stores == old(db.stores) && db.leads == old(db.leads)
    ensures Gate(body, sx, old(db.connected), old(db.hotels)).Some? ==>
              r == Gate(body, sx, old(db.connected), old(db.hotels)).value
              && db.bookings == old(db.bookings) && redis.kv == old(redis.kv) && redis.expiry == old(redis.expiry)
    ensures Gate(body, sx, old(db.connected), old(db.hotels)).None? ==>
              BookingValidation.Validate(body, sx).None? && Key(body.hotel.value) in old(db.hotels)
              && Effect(r, db.bookings, redis.kv, redis.expiry)
                 == CreateEffect(body, sx, LockKeyOf(body, sx), authUser, old(db.hotels)[Key(body.hotel.value)], smtp, id, now,
                                 redis.caps, old(redis.up), old(db.bookings), old(redis.kv), old(redis.expiry))
  {
    var gate := Gate(body, sx, db.connected, db.hotels);
    if gate.Some? {
      return gate.value;
    }
    r := CreateLocked(db, redis, body, sx, LockKeyOf(body, sx), authUser, db.hotels[Key(body.hotel.value)], smtp, smtpUser, id, now);
  }

  /** `createBooking` past the gate: take the lock, create, commit, release. */
  method CreateLocked(db: Db, redis: Client, body: BookingValidation.BookingBody, sx: Syntax, lockKey: string, authUser: Option<string>,
                      hotel: HotelModel.Hotel, smtp: Mailer.Smtp, smtpUser: Option<string>, id: Id, now: int)
    returns (r: Response)
    requires BookingValidation.Validate(body, sx).None?
    requires db.Valid() && redis.Valid() && StoredId(id) && id !in db.bookings
    modifies db, redis
    ensures db.Valid() && redis.Valid() && redis.up == old(redis.up)
    ensures db.connected == old(db.connected) && db.hotels == old(db.hotels) && db.users == old(db.users)
    ensures db.stores == old(db.stores) && db.leads == old(db.leads)
    ensures Effect(r, db.bookings, redis.kv, redis.expiry)
            == CreateEffect(body, sx, lockKey, authUser, hotel, smtp, id, now, redis.caps, old(redis.up), old(db.bookings), old(redis.kv), old(redis.expiry))
  {
    var ok, acquired := TakeLock(redis, lockKey);
    if !ok {
      return ServerError;
    }
    if redis.caps.setCmd && !acquired {
      return LockBusy;
    }
    r := RunLocked(db, redis, body, sx, authUser, hotel, smtp, smtpUser, id, now, lockKey, acquired);
  }

  /**
   * The body of the `try` once the lock step has passed: create the booking and commit it; then
   * the `finally` block releases the lock when this request took it.
   */
  method RunLocked(db: Db, redis: Client, body: BookingValidation.BookingBody, sx: Syntax, authUser: Option<string>,
                   hotel: HotelModel.Hotel, smtp: Mailer.Smtp, smtpUser: Option<string>, id: Id, now: int,
                   lockKey: string, acquired: bool)
    returns (r: Response)
    requires BookingValidation.Validate(body, sx).None?
    requires db.Valid() && redis.Valid() && StoredId(id) && id !in db.bookings
    requires acquired ==> redis.up
    modifies db, redis
    ensures db.Valid() && redis.Valid() && redis.up == old(redis.up)
    ensures db.connected == old(db.connected) && db.hotels == old(db.hotels) && db.users == old(db.users)
    ensures db.stores == old(db.stores) && db.leads == old(db.leads)
    ensures Effect(r, db.bookings, redis.kv, redis.expiry)
            == Unlock(Locked(body, sx, authUser, hotel, smtp, id, now, redis.caps, old(redis.up), old(db.bookings), old(redis.kv), old(redis.expiry)),
                      lockKey, acquired && redis.caps.del)
  {
    var saved := Persisted(body, sx, authUser, id, now);
    if saved.Rejected? {
      r := ServerError;
    } else {
      r := CommitBooking(db, redis, saved.doc, body.contactEmail, ConfirmationSubject(hotel), smtp, smtpUser);
    }
    if acquired && redis.caps.del {
      var released := redis.Del({lockKey});
    }
  }

  // ---------------------------------------------------------------- getBookings / getBookingById

  /** The stored form a `user` or `hotel` query filter is compared with. */
  predicate ListFilter(user: Option<string>, hotel: Option<string>, b: BookingModel.Booking) {
    (!Given(user) || b.user == Key(user.value)) && (!Given(hotel) || b.hotel == Key(hotel.value))
  }

  /** `find(filter)` casts each given filter value; one that is not an ObjectId raises a CastError. */
  predicate FilterCastable(user: Option<string>, hotel: Option<string>) {
    (!Given(user) || Castable(user.value)) && (!Given(hotel) || Castable(hotel.value))
  }

  /**
   * `getBookings`: the cached list when there is one; otherwise (connected, castable filters)
   * the matching bookings newest first, at most 200, which are cached under the list key.
   */
  method GetBookings(db: Db, redis: Client, user: Option<string>, hotel: Option<string>) returns (r: Response)
    requires db.Valid() && redis.Valid()
    modifies redis
    ensures redis.Valid() && redis.up == old(redis.up)
    ensures Cache.Lookup(redis.caps, redis.up, old(redis.kv), ListKey(user, hotel)).Some? ==>
              r == Response(200, FromCache(Cache.Lookup(redis.caps, redis.up, old(redis.kv), ListKey(user, hotel)).value))
              && redis.kv == old(redis.kv) && redis.expiry == old(redis.expiry)
    ensures Cache.Lookup(redis.caps, redis.up, old(redis.kv), ListKey(user, hotel)).None? && !(db.connected && FilterCastable(user, hotel)) ==>
              r == ServerError && redis.kv == old(redis.kv) && redis.expiry == old(redis.expiry)
    ensures Cache.Lookup(redis.caps, redis.up, old(redis.kv), ListKey(user, hotel)).None? && db.connected && FilterCastable(user, hotel) ==>
              && r.status == 200 && r.body.Listed? && Listing(db.bookings, user, hotel, r.body.bookings)
              && redis.kv == Cache.Stored(redis.caps, redis.up, old(redis.kv), ListKey(user, hotel), BookingList(r.body.bookings))
              && redis.expiry == Cache.StoredTtl(redis.caps, redis.up, old(redis.expiry), ListKey(user, hotel))
  {
    var key := ListKey(user, hotel);
    var cached := Cache.Get(redis, key);
    if cached.Some? {
      return Response(200, FromCache(cached.value));
    }
    if !db.connected || !FilterCastable(user, hotel) {
      return ServerError;
    }
    var docs := QueryBookings(db.bookings, user, hotel);
    Cache.Put(redis, key, BookingList(docs));
    r := Response(200, Listed(docs));
  }

  /** `Booking.find(filter).sort({ createdAt: -1 }).limit(200)`: the 200 newest matching bookings. */
  ghost predicate Listing(bookings: map<Id, BookingModel.Booking>, user: Option<string>, hotel: Option<string>, docs: seq<BookingModel.Booking>) {
    PageOf(bookings, Filter(user, hotel), CreatedAt, 0, ListCap, docs)
  }

  /** The filter handed to `find`. */
  function Filter(user: Option<string>, hotel: Option<string>): BookingModel.Booking -> bool {
    b => ListFilter(user, hotel, b)
  }

  /** The sort key of `sort({ createdAt: -1 })`. */
  function CreatedAt(b: BookingModel.Booking): int {
    b.createdAt
  }

  method QueryBookings(bookings: map<Id, BookingModel.Booking>, user: Option<string>, hotel: Option<string>)
    returns (docs: seq<BookingModel.Booking>)
    ensures Listing(bookings, user, hotel, docs)
  {
    var ids := Newest(bookings, Filter(user, hotel), CreatedAt);
    WindowShift(ids, 0, ListCap);
    docs := Docs(bookings, Window(ids, 0, ListCap));
  }

  /**
   * What a listing holds: at most 200 distinct matching bookings, newest first; no matching
   * booking left out is newer than one kept, and all of them come back when fewer than 200 match.
   */
  lemma ListingFacts(bookings: map<Id, BookingModel.Booking>, user: Option<string>, hotel: Option<string>, docs: seq<BookingModel.Booking>)
    requires BookingsFiled(bookings) && Listing(bookings, user, hotel, docs)
    ensures |docs| <= ListCap
    ensures forall i :: 0 <= i < |docs| ==> docs[i] in bookings.Values && ListFilter(user, hotel, docs[i])
    ensures forall i, j :: 0 <= i < j < |docs| ==> docs[i].createdAt >= docs[j].createdAt && docs[i].id != docs[j].id
    ensures forall k :: k in bookings && ListFilter(user, hotel, bookings[k]) && bookings[k] !in docs ==>
              forall i :: 0 <= i < |docs| ==> docs[i].createdAt >= bookings[k].createdAt
    ensures |docs| < ListCap ==> forall k :: k in bookings && ListFilter(user, hotel, bookings[k]) ==> bookings[k] in docs
  {
    var selected := set k | k in bookings && ListFilter(user, hotel, bookings[k]);
    PageFacts(bookings, Filter(user, hotel), CreatedAt, 0, ListCap, docs, selected);
    PageDistinct(bookings, Filter(user, hotel), CreatedAt, 0, ListCap, docs);
    forall i, j | 0 <= i < j < |docs| ensures docs[i].id != docs[j].id {
      var a :| a in bookings && bookings[a] == docs[i];
      var b :| b in bookings && bookings[b] == docs[j];
    }
  }

  /** `getBookingById`: the raw id names the cache entry; the database is asked with the cast id. */
  method GetBookingById(db: Db, redis: Client, rawId: string) returns (r: Response)
    requires db.Valid() && redis.Valid()
    modifies redis
    ensures redis.Valid() && redis.up == old(redis.up)
    ensures Cache.Lookup(redis.caps, redis.up, old(redis.kv), BookingKey(rawId)).Some? ==>
              r == Response(200, FromCache(Cache.Lookup(redis.caps, redis.up, old(redis.kv), BookingKey(rawId)).value))
              && redis.kv == old(redis.kv) && redis.expiry == old(redis.expiry)
    ensures Cache.Lookup(redis.caps, redis.up, old(redis.kv), BookingKey(rawId)).None? ==>
              if !db.connected || !Castable(rawId) then r == ServerError && redis.kv == old(redis.kv) && redis.expiry == old(redis.expiry)
              else if Key(rawId) !in db.bookings then
                r == Response(404, Note("Booking not found")) && redis.kv == old(redis.kv) && redis.expiry == old(redis.expiry)
              else
                && r == Response(200, Found(db.bookings[Key(rawId)]))
                && redis.kv == Cache.Stored(redis.caps, redis.up, old(redis.kv), BookingKey(rawId), BookingDoc(db.bookings[Key(rawId)]))
                && redis.expiry == Cache.StoredTtl(redis.caps, redis.up, old(redis.expiry), BookingKey(rawId))
  {
    var cached := Cache.Get(redis, BookingKey(rawId));
    if cached.Some? {
      return Response(200, FromCache(cached.value));
    }
    if !db.connected || !Castable(rawId) {
      return ServerError;
    }
    if Key(rawId) !in db.bookings {
      return Response(404, Note("Booking not found"));
    }
    var b := db.bookings[Key(rawId)];
    Cache.Put(redis, BookingKey(rawId), BookingDoc(b));
    r := Response(200, Found(b));
  }

  // ---------------------------------------------------------------- cancelBooking

  /** The populated `booking.user.email`; the schema keeps no `contactEmail` to fall back on. */
  function Recipient(users: map<Id, UserModel.User>, b: BookingModel.Booking): (to: Option<string>)
    ensures to.Some? <==> b.user in users
  {
    if b.user in users then Some(users[b.user].email) else None
  }

  /**
   * The `emailStatus` and the key space after the cancellation e-mail: a null hotel throws before
   * anything is sent (and again while the queued payload is built); with no recipient nothing is
   * sent; a failed send is queued when the client has `rPush`.
   */
  function CancelMail(caps: Caps, up: bool, kv: map<string, Value>, hotel: Option<HotelModel.Hotel>, to: Option<string>,
                      id: Id, smtp: Mailer.Smtp): (EmailStatus, map<string, Value>)
  {
    if hotel.None? then (EmailStatus(false, if caps.rPush then Some(false) else None, Some(NullHotelName)), kv)
    else if !Given(to) then (EmailStatus(false, None, Some(NoRecipient)), kv)
    else match Mailer.Outcome(smtp)
      case Delivered(_) => (EmailStatus(true, None, None), kv)
      case Threw(message) =>
        if !caps.rPush then (EmailStatus(false, None, Some(message)), kv)
        else
          var job := EmailJob(BookingCancellation, to, "Booking cancelled - " + hotel.value.name, id);
          (EmailStatus(false, Some(Cache.CanQueue(caps, up, kv)), Some(message)), Cache.Enqueued(caps, up, kv, job))
  }

  /** What `cancelBooking` answers and leaves behind. */
  function CancelEffect(rawId: string, smtp: Mailer.Smtp, connected: bool, hotels: map<Id, HotelModel.Hotel>,
                        users: map<Id, UserModel.User>, caps: Caps, up: bool,
                        bookings: map<Id, BookingModel.Booking>, kv: map<string, Value>, expiry: map<string, int>): Effect
  {
    if !connected || !Castable(rawId) then Effect(ServerError, bookings, kv, expiry)
    else if Key(rawId) !in bookings then Effect(Response(404, Note("Booking not found")), bookings, kv, expiry)
    else
      var b := bookings[Key(rawId)].(status := BookingModel.Cancelled);
      var hotel := if b.hotel in hotels then Some(hotels[b.hotel]) else None;
      var (status, kv1) := CancelMail(caps, up, kv, hotel, Recipient(users, b), b.id, smtp);
      Effect(Response(200, Cancelled("Booking cancelled", b, status)), bookings[b.id := b],
             Cache.Purged(caps, up, Cache.Stored(caps, up, kv1, BookingKey(b.id), BookingDoc(b)), ListPattern),
             Cache.Purged(caps, up, Cache.StoredTtl(caps, up, expiry, BookingKey(b.id)), ListPattern))
  }

  /** The e-mail step of `cancelBooking`. */
  method SendCancellation(redis: Client, hotel: Option<HotelModel.Hotel>, to: Option<string>, id: Id,
                          smtp: Mailer.Smtp, smtpUser: Option<string>)
    returns (status: EmailStatus)
    requires redis.Valid()
    modifies redis
    ensures redis.Valid() && redis.up == old(redis.up) && redis.expiry == old(redis.expiry)
    ensures (status, redis.kv) == CancelMail(redis.caps, redis.up, old(redis.kv), hotel, to, id, smtp)
  {
    if hotel.None? {
      status := EmailStatus(false, if redis.caps.rPush then Some(false) else None, Some(NullHotelName));
      return;
    }
    if !Given(to) {
      return EmailStatus(false, None, Some(NoRecipient));
    }
    var subject := "Booking cancelled - " + hotel.value.name;
    var result, attempts := Mailer.SendEmail(Mailer.Mail(smtpUser, to, subject), smtp);
    if result.Delivered? {
      return EmailStatus(true, None, None);
    }
    var queued: Option<bool> := None;
    if redis.caps.rPush {
      var ok := Cache.Enqueue(redis, EmailJob(BookingCancellation, to, subject, id));
      queued := Some(ok);
    }
    status := EmailStatus(false, queued, Some(result.message));
  }

  method CancelBooking(db: Db, redis: Client, rawId: string, smtp: Mailer.Smtp, smtpUser: Option<string>)
    returns (r: Response)
    requires db.Valid() && redis.Valid()
    modifies db, redis
    ensures db.Valid() && redis.Valid() && redis.up == old(redis.up)
    ensures db.connected == old(db.connected) && db.hotels == old(db.hotels) && db.users == old(db.users)
    ensures db.stores == old(db.stores) && db.leads == old(db.leads)
    ensures Effect(r, db.bookings, redis.kv, redis.expiry)
            == CancelEffect(rawId, smtp, db.connected, db.hotels, db.users, redis.caps, old(redis.up),
                            old(db.bookings), old(redis.kv), old(redis.expiry))
  {
    if !db.connected || !Castable(rawId) {
      return ServerError;
    }
    if Key(rawId) !in db.bookings {
      return Response(404, Note("Booking not found"));
    }
    var b := db.bookings[Key(rawId)].(status := BookingModel.Cancelled);
    db.PutBooking(b);
    var hotel := if b.hotel in db.hotels then Some(db.hotels[b.hotel]) else None;
    var status := SendCancellation(redis, hotel, Recipient(db.users, b), b.id, smtp, smtpUser);
    Cache.Put(redis, BookingKey(b.id), BookingDoc(b));
    Cache.Purge(redis, ListPattern);
    r := Response(200, Cancelled("Booking cancelled", b, status));
  }

  // ---------------------------------------------------------------- what the handlers promise

  /** Every list key is one `redisDelPattern("bookings:*")` removes. */
  lemma ListKeyPurged(user: Option<string>, hotel: Option<string>)
    ensures Glob.Matches(ListPattern, ListKey(user, hotel))
  {
    var k := ListKey(user, hotel);
    assert ListPattern == "bookings:" + "*";
    Glob.PrefixStar("bookings:", k);
    assert forall i :: 0 <= i < 9 ==> k[i] == "bookings:user="[i];
    assert k[..9] == "bookings:";
  }

  /** A key whose eighth character is ':' (`booking:...`) is not a list key. */
  lemma {:induction false} NotListKey(k: string)
    requires |k| > 7 && k[7] == ':'
    ensures !Glob.Matches(ListPattern, k)
  {
    assert ListPattern == "bookings:" + "*";
    Glob.PrefixStar("bookings:", k);
    if |k| >= 9 {
      assert k[..9][7] == ':';
    }
  }

  /** The lock a request took is gone when it answers, if the client can `del`. */
  lemma LockReleased(body: BookingValidation.BookingBody, sx: Syntax, lockKey: string, authUser: Option<string>, hotel: HotelModel.Hotel,
                     smtp: Mailer.Smtp, id: Id, now: int,
                     caps: Caps, up: bool, bookings: map<Id, BookingModel.Booking>, kv: map<string, Value>, expiry: map<string, int>)
    requires BookingValidation.Validate(body, sx).None?
    requires caps.setCmd && caps.del && up && lockKey !in kv
    ensures lockKey !in CreateEffect(body, sx, lockKey, authUser, hotel, smtp, id, now, caps, up, bookings, kv, expiry).kv
    ensures lockKey !in CreateEffect(body, sx, lockKey, authUser, hotel, smtp, id, now, caps, up, bookings, kv, expiry).expiry
  {
  }

  /**
   * A booking stays in the database exactly when the reply is a 201, and then it is the new
   * "booked" document; every other reply leaves the bookings as they were.
   */
  lemma StoredIffCreated(body: BookingValidation.BookingBody, sx: Syntax, lockKey: string, authUser: Option<string>, hotel: HotelModel.Hotel,
                         smtp: Mailer.Smtp, id: Id, now: int,
                         caps: Caps, up: bool, bookings: map<Id, BookingModel.Booking>, kv: map<string, Value>, expiry: map<string, int>)
    requires BookingValidation.Validate(body, sx).None? && id !in bookings
    ensures var e := CreateEffect(body, sx, lockKey, authUser, hotel, smtp, id, now, caps, up, bookings, kv, expiry);
            && (id in e.bookings <==> e.reply.status == 201)
            && (e.reply.status == 201 ==>
                  && Persisted(body, sx, authUser, id, now).Ok?
                  && e.bookings == bookings[id := Persisted(body, sx, authUser, id, now).doc]
                  && e.reply.body.Created? && e.reply.body.booking == e.bookings[id]
                  && e.bookings[id].status == BookingModel.Booked)
            && (e.reply.status != 201 ==> e.bookings == bookings)
  {
    var saved := Persisted(body, sx, authUser, id, now);
    var e := CreateEffect(body, sx, lockKey, authUser, hotel, smtp, id, now, caps, up, bookings, kv, expiry);
    if !(caps.setCmd && !up) && !(caps.setCmd && lockKey in kv) {
      var kv1 := if caps.setCmd then kv[lockKey := Count(1)] else kv;
      var expiry1 := if caps.setCmd then expiry[lockKey := LockSeconds] else expiry;
      var l := Locked(body, sx, authUser, hotel, smtp, id, now, caps, up, bookings, kv1, expiry1);
      assert e.reply == l.reply && e.bookings == l.bookings;
      if saved.Ok? {
        CommitStores(caps, up, bookings, kv1, expiry1, saved.doc, body.contactEmail, ConfirmationSubject(hotel), smtp);
        assert l == Commit(caps, up, bookings, kv1, expiry1, saved.doc, body.contactEmail, ConfirmationSubject(hotel), smtp);
      }
    }
  }

  /** `Commit` keeps the booking exactly when it answers 201. */
  lemma CommitStores(caps: Caps, up: bool, bookings: map<Id, BookingModel.Booking>, kv: map<string, Value>, expiry: map<string, int>,
                     b: BookingModel.Booking, to: Option<string>, subject: string, smtp: Mailer.Smtp)
    requires b.id !in bookings
    ensures var c := Commit(caps, up, bookings, kv, expiry, b, to, subject, smtp);
            && (c.reply.status == 201 ==> c.bookings == bookings[b.id := b] && c.reply.body.Created? && c.reply.body.booking == b)
            && (c.reply.status != 201 ==> c.bookings == bookings)
  {
  }

  /**
   * A request that carries no user (no authenticated user and no `user` in the body) never
   * stores a booking: the schema requires `user`, so once the lock step passes the create fails
   * with a 500.
   */
  lemma AnonymousBookingRefused(body: BookingValidation.BookingBody, sx: Syntax, lockKey: string, authUser: Option<string>, hotel: HotelModel.Hotel,
                                smtp: Mailer.Smtp, id: Id, now: int,
                                caps: Caps, up: bool, bookings: map<Id, BookingModel.Booking>, kv: map<string, Value>, expiry: map<string, int>)
    requires BookingValidation.Validate(body, sx).None? && !Given(authUser) && body.user.None?
    ensures var e := CreateEffect(body, sx, lockKey, authUser, hotel, smtp, id, now, caps, up, bookings, kv, expiry);
            e.bookings == bookings && (e.reply == ServerError || e.reply == LockBusy)
  {
    if !(caps.setCmd && !up) && !(caps.setCmd && lockKey in kv) {
      assert Persisted(body, sx, authUser, id, now).Rejected?;
    }
  }

  /**
   * When the e-mail can be neither sent nor queued the booking is deleted again, but the entry
   * `booking:<id>` cached just before stays in Redis.
   */
  lemma RollbackKeepsCachedBooking(body: BookingValidation.BookingBody, sx: Syntax, lockKey: string, authUser: Option<string>, hotel: HotelModel.Hotel,
                                   smtp: Mailer.Smtp, id: Id, now: int,
                                   caps: Caps, up: bool, bookings: map<Id, BookingModel.Booking>, kv: map<string, Value>, expiry: map<string, int>)
    requires BookingValidation.Validate(body, sx).None? && StartsWith(lockKey, LockPrefix) && StoredId(id) && id !in bookings
    requires caps.setCmd && up
    requires CreateEffect(body, sx, lockKey, authUser, hotel, smtp, id, now, caps, up, bookings, kv, expiry).reply.status == 502
    ensures var e := CreateEffect(body, sx, lockKey, authUser, hotel, smtp, id, now, caps, up, bookings, kv, expiry);
            id !in e.bookings && BookingKey(id) in e.kv && e.kv[BookingKey(id)] == BookingDoc(Persisted(body, sx, authUser, id, now).doc)
  {
    var saved := Persisted(body, sx, authUser, id, now);
    var e := CreateEffect(body, sx, lockKey, authUser, hotel, smtp, id, now, caps, up, bookings, kv, expiry);
    assert lockKey !in kv && saved.Ok?;
    var kv1 := kv[lockKey := Count(1)];
    var expiry1 := expiry[lockKey := LockSeconds];
    var c := Commit(caps, up, bookings, kv1, expiry1, saved.doc, body.contactEmail, ConfirmationSubject(hotel), smtp);
    assert e == Unlock(c, lockKey, caps.del);
    CommitKeepsCache(caps, up, bookings, kv1, expiry1, saved.doc, body.contactEmail, ConfirmationSubject(hotel), smtp);
    CommitStores(caps, up, bookings, kv1, expiry1, saved.doc, body.contactEmail, ConfirmationSubject(hotel), smtp);
    LockKeyIsNotBookingKey(lockKey, id);
  }

  /** A lock key never names a booking's cache entry: its ninth character is 'l', not a hex digit. */
  lemma LockKeyIsNotBookingKey(lockKey: string, id: Id)
    requires StartsWith(lockKey, LockPrefix) && StoredId(id)
    ensures lockKey != BookingKey(id)
  {
    var key := BookingKey(id);
    assert lockKey[8] == lockKey[..13][8] == 'l';
    assert key[8] == id[0];
    assert IsHexDigit(id[0]);
  }

  /** `Commit` leaves the booking's own cache entry in place, whatever it answers. */
  lemma CommitKeepsCache(caps: Caps, up: bool, bookings: map<Id, BookingModel.Booking>, kv: map<string, Value>, expiry: map<string, int>,
                         b: BookingModel.Booking, to: Option<string>, subject: string, smtp: Mailer.Smtp)
    requires caps.setCmd && up
    ensures var c := Commit(caps, up, bookings, kv, expiry, b, to, subject, smtp);
            BookingKey(b.id) in c.kv && c.kv[BookingKey(b.id)] == BookingDoc(b)
  {
    var key := BookingKey(b.id);
    NotListKey(key);
    assert key != Cache.QueueKey by {
      assert key[0] == 'b' && Cache.QueueKey[0] == 'e';
    }
  }

  /** Cancelling replaces whatever status the booking had, "completed" included, and nothing else. */
  lemma CancelOverwritesStatus(rawId: string, smtp: Mailer.Smtp, hotels: map<Id, HotelModel.Hotel>, users: map<Id, UserModel.User>,
                               caps: Caps, up: bool, bookings: map<Id, BookingModel.Booking>, kv: map<string, Value>, expiry: map<string, int>)
    requires BookingsFiled(bookings) && Castable(rawId) && Key(rawId) in bookings
    ensures var e := CancelEffect(rawId, smtp, true, hotels, users, caps, up, bookings, kv, expiry);
            && e.reply.status == 200
            && e.bookings == bookings[Key(rawId) := bookings[Key(rawId)].(status := BookingModel.Cancelled)]
  {
  }

  /**
   * The recipient of a cancellation is the booking's user only: with that user gone there is
   * nobody to write to, even though the request that created the booking named a `contactEmail`.
   */
  lemma CancelWithoutUserSendsNothing(rawId: string, smtp: Mailer.Smtp, hotels: map<Id, HotelModel.Hotel>, users: map<Id, UserModel.User>,
                                      caps: Caps, up: bool, bookings: map<Id, BookingModel.Booking>, kv: map<string, Value>, expiry: map<string, int>)
    requires BookingsFiled(bookings) && Castable(rawId) && Key(rawId) in bookings
    requires bookings[Key(rawId)].hotel in hotels && bookings[Key(rawId)].user !in users
    ensures var e := CancelEffect(rawId, smtp, true, hotels, users, caps, up, bookings, kv, expiry);
            e.reply.body.Cancelled? && e.reply.body.emailStatus == EmailStatus(false, None, Some(NoRecipient))
  {
  }

  /**
   * With the booking's hotel deleted the e-mail step throws a TypeError before sending, the
   * queued payload throws again, and nothing reaches the queue; the cancellation still answers 200.
   */
  lemma CancelWithoutHotelQueuesNothing(rawId: string, smtp: Mailer.Smtp, hotels: map<Id, HotelModel.Hotel>, users: map<Id, UserModel.User>,
                                        caps: Caps, up: bool, bookings: map<Id, BookingModel.Booking>, kv: map<string, Value>, expiry: map<string, int>)
    requires BookingsFiled(bookings) && Castable(rawId) && Key(rawId) in bookings && bookings[Key(rawId)].hotel !in hotels
    requires Cache.QueueKey in kv
    ensures var e := CancelEffect(rawId, smtp, true, hotels, users, caps, up, bookings, kv, expiry);
            && e.reply.status == 200
            && e.reply.body.emailStatus == EmailStatus(false, if caps.rPush then Some(false) else None, Some(NullHotelName))
            && Cache.QueueKey in e.kv && e.kv[Cache.QueueKey] == kv[Cache.QueueKey]
  {
    var b := bookings[Key(rawId)].(status := BookingModel.Cancelled);
    var key := BookingKey(b.id);
    assert key != Cache.QueueKey by {
      assert key[0] == 'b' && Cache.QueueKey[0] == 'e';
    }
    assert !Glob.Matches(ListPattern, Cache.QueueKey);
  }
}
