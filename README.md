# Tourism marketplace backend — a Dafny model

This project models the Express backend of a tourism marketplace:

- **Hotels.** Hotels with rooms and reviews, listed in cached pages.
- **Bookings.** Protected by a short Redis lock, confirmed by e-mail (queued or rolled back when mail fails), and cancelled with a notification.
- **Stores.** Business stores with geospatial and tag search, view counters, owner-only updates and customer leads.
- **Accounts.** E-mail/password and Google sign-in.
- **Middleware.** The JWT middleware, the role guard and the global Redis rate limiter.
- **Client state.** The zustand store that holds the client's booking form.

Each handler is a `method` over two mutable stores:

- `Database.Db`: one map per collection, plus whether mongoose is connected.
- `Redis.Client`: the key space, the timeouts, which commands the client object offers, and whether the server answers.

The ensures clause of each handler states its status code, its body and the new state of both stores, branch by branch as the handler takes them. Where a handler has many outcomes, a ghost function gives the whole effect and the method is proved equal to it. The properties are lemmas about that function, for example:

- register then login succeeds
- a second Google sign-in changes nothing
- a burst of `n` requests is refused exactly past the maximum

Schemas are functions from a draft to `Saved<T>` (`Ok(doc)` or `Rejected(path)`). They state defaults, setters (trim, lowercase, on ASCII only; see "## Left out") and required paths. The joi validators are functions returning the issues joi reports, in joi's order. Each validator has a lemma that the body passes exactly when it meets every key's rule.

What the model takes as given (parameters, not code):

- the outcome of SMTP and Ethereal transports (`Mailer.Smtp`)
- joi's e-mail, URI and ISO-date grammars (`Joi.Syntax`)
- MongoDB's regex engine (`Mongo.Regex`)
- `$geoNear`'s point parsing and distances (`StoreController.Geo`)
- `jwt.verify`, Google's `verifyIdToken`, and bcrypt (`AuthController.Bcrypt`)
- fresh ObjectIds and the current time

## Model

| member | source | states |
|---|---|---|
| UserModel.HashOnSave | server/src/model/user.model.js:47-51 | the password is replaced by its hash exactly when it was modified and is present; otherwise the user is unchanged |
| UserModel.Create | server/src/model/user.model.js:5-44 | creation succeeds iff the trimmed name and the normalised e-mail are non-empty and a given password has at least 6 characters; the stored user has role "user", the default avatar unless one is given, and the hashed password |
| UserModel.Save | server/src/model/user.model.js:19-23 | save succeeds iff the name is present and a modified password is at least 6 characters; the saved document is the pre-save hook's result |
| UserModel.Selected | server/src/model/user.model.js:22 | a query without `+password` returns the user with no password, and otherwise the whole user |
| BookingModel.MissingPath | server/src/model/booking.model.js:5-15 | no path is missing iff user, hotel, checkIn, checkOut and totalPrice are all given |
| BookingModel.Create | server/src/model/booking.model.js:3-29 | creation succeeds iff the required paths are given; the defaults are guests 1, currency "USD", status "booked" and createdAt now |
| BookingModel.ContactEmailDropped | server/src/model/booking.model.js:3-29 | the schema has no contactEmail path, so the stored booking does not depend on the contactEmail handed to create |
| HotelModel.RoomTypeOf | server/src/model/hotel.model.js:4 | a room name is accepted iff it is Single, Double, Suite or Deluxe |
| HotelModel.CastRoom | server/src/model/hotel.model.js:3-10 | a room casts iff its name is one of the four types and it has a price; occupancy defaults to 2 and availability to true |
| HotelModel.CastRooms | server/src/model/hotel.model.js:27 | the room list casts iff every room casts, element by element |
| HotelModel.WithDefaultCountry | server/src/model/hotel.model.js:16-24 | a missing location becomes one whose country is "Nepal"; a given location keeps its address and city |
| HotelModel.Create | server/src/model/hotel.model.js:12-40 | creation succeeds iff the trimmed name is non-empty and every room casts; rating 0, no reviews, location with the default country |
| HotelModel.Save | server/src/model/hotel.model.js:33 | save succeeds iff every review's rating lies between 1 and 5, and then stores the hotel unchanged |
| HotelModel.ApplyUpdate | server/src/model/hotel.model.js:12-40 | the update succeeds iff the validators of the updated paths pass; a given name is trimmed and replaces the old one, a given location replaces the whole sub-document, a given description, amenities, rooms (cast), rating or review list overwrites the stored one as it is, and createdAt is kept |
| HotelModel.UpdateKeepsRatingsInRange | server/src/model/hotel.model.js:29-36 | an accepted update leaves every review rating within 1..5, so the hotel still saves |
| StoreModel.CastTags | server/src/model/store.model.js:19 | a list of tags is kept as it is; one string becomes a one-element list |
| StoreModel.Create | server/src/model/store.model.js:13-59 | creation succeeds iff name and slug are non-empty and the `2dsphere` index can place the location (no coordinates, or a pair with lng in -180..180 and lat in -90..90); the owner and the location are set; price range "$", zero analytics, all contact preferences on, not featured and not verified |
| StoreModel.Assign | server/src/model/store.model.js:13-59 | the assign-and-save succeeds iff a given name or slug is non-empty and a given location is one the `2dsphere` index can place; given keys overwrite and id, owner, analytics and createdAt are kept |
| LeadModel.Create | server/src/model/lead.model.js:3-23 | creation succeeds iff a store is given; status "new", createdAt now, and the snapshot and client e-mail as given |
| Joi.First | server/src/validation/booking.validation.js:22 | with abortEarly the error is the first issue, and there is none iff there are no issues |
| Joi.Map | server/src/validation/store.validation.js:30-33 | one message per issue |
| Joi.RuleIssues | server/src/validation/hotel.validation.js:3-7 | no issue iff every chained rule holds |
| Joi.StringIssues | server/src/validation/store.validation.js:4-17 | a string key raises no issue iff it is absent and optional, or "" where allowed, or meets the `.valid` list and every rule |
| Joi.NumberIssues | server/src/validation/booking.validation.js:10-11 | a number key raises no issue iff it is absent and optional, or within its min and max |
| Joi.UnknownIssues | server/src/validation/hotel.validation.js:2-20 | each key the object schema does not declare raises one issue |
| BookingValidation.DateIssues | server/src/validation/booking.validation.js:8 | no issue iff the date is given and parses as ISO 8601 |
| BookingValidation.CheckOutIssues | server/src/validation/booking.validation.js:9 | no issue iff checkOut is given, is ISO and is later than a parsable checkIn |
| BookingValidation.PaymentIssues | server/src/validation/booking.validation.js:14-19 | no issue iff payment is absent or has only string method and transactionId |
| BookingValidation.Validate | server/src/validation/booking.validation.js:3-22 | the reported error is one of the issues the schema finds |
| BookingValidation.IdRulesOk | server/src/validation/booking.validation.js:5-6 | `string().hex().length(24)` passes iff the value is absent and optional, or is a 24-digit hex string |
| BookingValidation.ValidateIffAccepted | server/src/validation/booking.validation.js:3-22 | a body passes iff it meets every key's constraint |
| BookingValidation.AcceptedHotelCastable | server/src/validation/booking.validation.js:6-13 | an accepted body has a castable hotel id, both dates with checkIn before checkOut, a price and a contact e-mail |
| BookingValidation.ContactEmailAlwaysRequired | server/src/validation/booking.validation.js:13 | a body without contactEmail is refused even when it names its user |
| BookingValidation.MissingHotelMessage | server/src/validation/booking.validation.js:6 | without user and hotel the error is `"hotel" is required` |
| HotelValidation.ItemIssues | server/src/validation/hotel.validation.js:8-9 | no issue iff every array item passes the item rules |
| HotelValidation.ArrayIssues | server/src/validation/hotel.validation.js:8-9 | no issue iff the array is absent or every item passes |
| HotelValidation.RoomIssues | server/src/validation/hotel.validation.js:11-18 | no issue iff the room meets the room rules |
| HotelValidation.RoomsIssues | server/src/validation/hotel.validation.js:10-19 | no issue iff every room is accepted |
| HotelValidation.Validate | server/src/validation/hotel.validation.js:21-23 | the reported error is one of the issues the schema finds |
| HotelValidation.BetweenOk | server/src/validation/hotel.validation.js:3-6 | a required `min(lo).max(hi)` string passes iff it is given with a length between lo and hi |
| HotelValidation.OptionalMaxOk | server/src/validation/hotel.validation.js:7 | an optional `max(hi)` string passes iff it is absent or has 1 to hi characters |
| HotelValidation.UriItemsOk | server/src/validation/hotel.validation.js:8 | an image array passes iff every item is a non-empty URI |
| HotelValidation.ValidateIffAccepted | server/src/validation/hotel.validation.js:2-23 | a body passes iff it meets every key's constraint |
| HotelValidation.SpacesNamePasses | server/src/validation/hotel.validation.js:3 | a name of three spaces passes `min(3)` although trimming empties it |
| StoreValidation.TagItemIssues | server/src/validation/store.validation.js:13 | no issue iff every tag is a non-empty string |
| StoreValidation.TagsIssues | server/src/validation/store.validation.js:11-14 | the alternatives raise no issue iff the tags are absent, a list of non-empty strings, or one non-empty string |
| StoreValidation.LocationIssues | server/src/validation/store.validation.js:18-23 | no issue iff the location is absent or is a "Point" with exactly two coordinates |
| StoreValidation.ValidateCreate | server/src/validation/store.validation.js:30-31 | no error iff the create schema finds no issue |
| StoreValidation.ValidateUpdate | server/src/validation/store.validation.js:32-33 | no error iff the forked schema finds no issue |
| StoreValidation.ValidateIffAccepted | server/src/validation/store.validation.js:3-28 | both schemas pass a body iff it meets every key's constraint |
| StoreValidation.ForkAgreesWhenKeysGiven | server/src/validation/store.validation.js:26-28 | for a body giving name and slug, the fork reports exactly what the create schema reports |
| StoreValidation.CreateAcceptedUpdateAccepted | server/src/validation/store.validation.js:26-28 | whatever the create schema accepts, the update schema accepts |
| StoreValidation.EmptyBody | server/src/validation/store.validation.js:3-28 | an empty body passes the update schema, and the create schema reports name and slug as required |
| Glob.StarMatchesAll | server/src/controller/hotel.controller.js:30 | `*` matches every key |
| Glob.PrefixStar | server/src/controller/hotel.controller.js:30 | `prefix*` matches exactly the keys that start with prefix |
| Glob.LiteralMatchesItself | server/src/controller/hotel.controller.js:207 | a pattern without wildcards matches only itself |
| Redis.Matching | server/src/controller/hotel.controller.js:30 | KEYS lists exactly the stored keys the pattern matches |
| Redis.Without | server/src/controller/hotel.controller.js:31 | DEL removes exactly the listed keys and keeps every other value |
| Redis.Client.Get | server/src/controller/hotel.controller.js:10 | GET answers iff the server is up and the key is not a list; the value is the stored one |
| Redis.Client.Set | server/src/controller/hotel.controller.js:21 | SET with EX stores the value and its timeout when the server is up, and nothing otherwise |
| Redis.Client.SetIfAbsent | server/src/controller/booking.controller.js:140-143 | SET NX EX stores iff the server is up and the key is absent |
| Redis.Client.Keys | server/src/controller/hotel.controller.js:30 | KEYS returns the matching keys when the server is up |
| Redis.Client.Del | server/src/controller/hotel.controller.js:31 | DEL removes the keys and their timeouts when the server is up |
| Redis.Client.RPush | server/src/controller/booking.controller.js:212-215 | RPUSH appends the job when the server is up and the key is absent or a list |
| Redis.Client.Incr | server/app.js:49 | INCR succeeds iff the server is up and the key is absent or a counter; the count is the old one plus one, or 1 |
| Redis.Client.Expire | server/app.js:52 | EXPIRE sets a positive timeout on an existing key; a timeout that is not positive deletes the key; a missing key is unchanged |
| Redis.Client.Ttl | server/app.js:58 | TTL is -2 for a missing key, -1 without a timeout, and otherwise the remaining seconds |
| Redis.Client.Elapse | server/src/controller/booking.controller.js:142 | after `s` seconds exactly the keys whose timeout was at most `s` are gone, and the others' timeouts have dropped by `s` |
| Redis.Expired | server/app.js:52 | the keys that expire within `s` seconds are exactly those whose timeout is at most `s` |
| Cache.Lookup | server/src/controller/hotel.controller.js:7-16 | redisGet yields a value iff `get` exists, the server is up and the key holds a value; a failure reads as a miss |
| Cache.Stored | server/src/controller/hotel.controller.js:18-25 | redisSet writes the key when `set` exists and the server is up, and nothing else changes |
| Cache.Purged | server/src/controller/hotel.controller.js:27-35 | redisDelPattern removes only matching keys, removes all of them when `keys` and `del` exist and the server is up, and otherwise changes nothing |
| Cache.Get | server/src/controller/hotel.controller.js:7-16 | the method returns the Lookup value |
| Cache.Put | server/src/controller/hotel.controller.js:18-25 | the key space becomes Stored, and the timeout is the 300-second cache TTL |
| Cache.Purge | server/src/controller/hotel.controller.js:27-35 | the key space and the timeouts become Purged |
| Cache.PurgePrefix | server/src/controller/hotel.controller.js:27-35 | purging `prefix*` keeps a key iff it does not start with the prefix |
| Cache.Enqueued | server/src/controller/booking.controller.js:210-220 | queuing writes only `email_queue`, and only when it can go through |
| Cache.Enqueue | server/src/controller/booking.controller.js:210-220 | `queued` is true iff the push could go through; the key space becomes Enqueued |
| Database.Db.constructor | server/src/controller/booking.controller.js:116 | a new database has empty collections and the given connection state |
| Database.Select | server/src/controller/booking.controller.js:281 | `find(filter)` returns each matching id exactly once |
| Database.FindOne | server/src/controller/auth.controller.js:11 | `findOne` returns a matching id, or none exactly when nothing matches |
| Database.Insert | server/src/controller/booking.controller.js:282 | one id is placed into a newest-first list at the position that keeps it newest first |
| Database.Newest | server/src/controller/booking.controller.js:281-282 | `find(filter).sort({ createdAt: -1 })` lists every matching id exactly once, newest first (ties in any order) |
| Database.SelectionCount | server/src/controller/hotel.controller.js:106 | `countDocuments` equals the number of selected ids |
| Database.Window | server/src/controller/hotel.controller.js:107 | skip and limit give a slice of at most `limit` ids |
| Database.PageFacts | server/src/controller/hotel.controller.js:105-107 | a skip/limit page of a sorted query holds exactly as many matches as the window leaves, each stored and kept, in order; on a first page no match left out comes before a kept one, and a short first page holds every match |
| Database.PageDistinct | server/src/controller/booking.controller.js:281-283 | when distinct keys hold distinct documents, a page repeats no document |
| Database.FirstWindowLeavesOlder | server/src/controller/booking.controller.js:282-283 | the limit on a sorted query keeps the newest: every match it leaves out comes after all it keeps |
| Database.Db.PutUser | server/src/model/user.model.js:15 | saving a user whose e-mail no other account holds keeps e-mails unique and changes only that user |
| Database.Db.PutStore | server/src/model/store.model.js:16 | saving a store whose slug no other store holds keeps slugs unique and changes only that store |
| Database.Db.PutBooking | server/src/controller/booking.controller.js:166 | `Booking.create` stores the document under its id and changes nothing else |
| Database.Db.DropBooking | server/src/controller/booking.controller.js:235 | `findByIdAndDelete` removes exactly that booking |
| Database.Db.PutHotel | server/src/controller/hotel.controller.js:67 | `Hotel.create` stores the document under its id and changes nothing else |
| Database.Db.DropHotel | server/src/controller/hotel.controller.js:203 | `findByIdAndDelete` removes exactly that hotel |
| Database.Db.PutLead | server/src/controller/store.controller.js:220 | `Lead.create` stores the lead under its id and changes nothing else |
| Database.PutThenDrop | server/src/controller/booking.controller.js:166-235 | creating a booking and then deleting it restores the collection it started from |
| Dates.ToIsoString | server/src/controller/booking.controller.js:134-136 | `toISOString` renders a time as a string of at least 24 characters ending in `Z` |
| Dates.CivilRoundTrip | server/src/controller/booking.controller.js:134-136 | every day count since 1970 names a valid proleptic Gregorian date, and counting the days back from that date gives the same day |
| Dates.IsoStringFields | server/src/controller/booking.controller.js:134-136 | the date and time fields `toISOString` prints rebuild the instant exactly; each field has its fixed width, so a year in 0..9999 gives 24 characters |
| Dates.PadWidth | server/src/controller/booking.controller.js:134-136 | a number below 10^w is padded to exactly w digits |
| Mailer.SendEmail | server/src/config/nodemailer.js:21-93 | the result and the sendMail attempts are the Outcome and Attempts of the transport results: the Ethereal send happens only once a test account was created |
| Mailer.PrimaryPath | server/src/config/nodemailer.js:26-27 | when verify and send succeed, exactly one primary send is made and the result has no preview |
| Mailer.ProductionVerifyFailure | server/src/config/nodemailer.js:28-36 | in production a failed verify throws "SMTP verify failed: ..." and sends nothing |
| Mailer.ProductionSendFailure | server/src/config/nodemailer.js:66-70 | in production a failed send throws "sendMail failed: ..." after one attempt |
| Mailer.SingleFallback | server/src/config/nodemailer.js:38-59 | outside production any primary failure leads to exactly one Ethereal send when the test account is created and to none when it is not; it resolves with the preview or throws the first message plus "; Ethereal fallback failed: " and the failing step's message |
| Mailer.PreviewOnlyFromFallback | server/src/config/nodemailer.js:51-52 | a delivered result has a preview iff the last send went through Ethereal |
| Mailer.SameMailEveryAttempt | server/src/config/nodemailer.js:49 | there are at most two attempts, each with the caller's mail unchanged |
| BookingController.LockKey | server/src/controller/booking.controller.js:132-136 | the lock key starts with `booking:lock:` |
| BookingController.Gate | server/src/controller/booking.controller.js:109-125 | a validation error gives 400 with its message; otherwise a disconnected database gives 503; otherwise an unknown hotel gives 404, and a known one passes |
| BookingController.UserIdOf | server/src/controller/booking.controller.js:128 | the authenticated user id wins, then the body's user; an empty id counts as none |
| BookingController.LockKeyOf | server/src/controller/booking.controller.js:132-136 | the key of an accepted body is a lock key |
| BookingController.Persisted | server/src/controller/booking.controller.js:153-166 | create succeeds iff a user id is known and castable; the document has the fresh id and that user |
| BookingController.Unlock | server/src/controller/booking.controller.js:249-261 | the finally block deletes exactly the lock key when this request took it, and changes nothing else |
| BookingController.TakeLock | server/src/controller/booking.controller.js:138-151 | a thrown SET is reported; the lock is taken iff `set` exists, the server is up and the key is free, and then it holds for 30 seconds |
| BookingController.CommitBooking | server/src/controller/booking.controller.js:166-248 | cache the booking, purge the lists, and mail, queue or roll back, leaving the database and Redis as Commit says |
| BookingController.CreateBooking | server/src/controller/booking.controller.js:106-266 | the reply and the new state are Gate's refusal, or else CreateEffect: 409 when the lock is held, 500 on a thrown SET or a refused document, otherwise the commit, with the lock released |
| BookingController.CreateLocked | server/src/controller/booking.controller.js:131-266 | after validation: 409 when the NX lock is held, otherwise create and commit, and the lock is released; the state is CreateEffect's for the lock key it is given (the request's, from its caller) |
| BookingController.RunLocked | server/src/controller/booking.controller.js:153-266 | once the lock step has passed: create and commit the booking, then release the lock if this request took it; the state is Unlock of Locked |
| BookingController.QueryBookings | server/src/controller/booking.controller.js:271-283 | the answer is the first 200 of an ordering of every matching booking, newest first |
| BookingController.ListingFacts | server/src/controller/booking.controller.js:281-283 | a listing holds at most 200 distinct matching bookings, newest first; no matching booking left out is newer than one kept, and every match comes back when fewer than 200 do |
| BookingController.GetBookings | server/src/controller/booking.controller.js:269-291 | a cached list is answered as it is; otherwise 500 when disconnected or a filter does not cast; otherwise the 200 newest matches (QueryBookings' listing), which are cached under the list key |
| BookingController.GetBookingById | server/src/controller/booking.controller.js:294-311 | a cached booking is answered; otherwise 500 on a bad id, 404 when absent, and otherwise the booking, cached under the raw id |
| BookingController.Recipient | server/src/controller/booking.controller.js:327 | a cancellation has a recipient iff the booking's user still exists |
| BookingController.SendCancellation | server/src/controller/booking.controller.js:325-373 | the e-mail status and the key space are CancelMail's |
| BookingController.CancelBooking | server/src/controller/booking.controller.js:314-385 | the reply and the new state are CancelEffect: 404, 500, or status "cancelled" with the e-mail status, the refreshed cache entry and purged lists |
| BookingController.ListKeyPurged | server/src/controller/booking.controller.js:171 | every list key matches `bookings:*` |
| BookingController.NotListKey | server/src/controller/booking.controller.js:170-171 | a `booking:` key is never purged with the lists |
| BookingController.LockReleased | server/src/controller/booking.controller.js:249-261 | when the client can delete, the request's lock is gone whatever the reply |
| BookingController.StoredIffCreated | server/src/controller/booking.controller.js:166-248 | the booking stays stored iff the reply is 201, and then it is the new "booked" document; any other reply leaves the bookings as they were |
| BookingController.CommitStores | server/src/controller/booking.controller.js:188-248 | the commit keeps the booking iff it answers 201 |
| BookingController.AnonymousBookingRefused | server/src/controller/booking.controller.js:128 | a request with no user never stores a booking; past the lock it answers 500 |
| BookingController.RollbackKeepsCachedBooking | server/src/controller/booking.controller.js:233-241 | after a rollback with 502, the entry `booking:<id>` cached earlier remains |
| BookingController.LockKeyIsNotBookingKey | server/src/controller/booking.controller.js:132 | a lock key never names a booking's cache entry |
| BookingController.CommitKeepsCache | server/src/controller/booking.controller.js:169-172 | the commit keeps the booking's cache entry whatever it answers |
| BookingController.CancelOverwritesStatus | server/src/controller/booking.controller.js:321-322 | cancelling sets status "cancelled" whatever it was, "completed" included, and changes nothing else |
| BookingController.CancelWithoutUserSendsNothing | server/src/controller/booking.controller.js:327-345 | with the user gone there is no recipient, and the status says "No recipient email available" |
| BookingController.CancelWithoutHotelQueuesNothing | server/src/controller/booking.controller.js:331-372 | with the hotel gone nothing is queued and the reply is still 200 |
| HotelController.BuildLocation | server/src/controller/hotel.controller.js:38-47 | a location object wins; without one there is a location iff a flat field is given, and its country is never empty |
| HotelController.RoomDrafts | server/src/controller/hotel.controller.js:64 | rooms are passed on one for one |
| HotelController.CreateHotel | server/src/controller/hotel.controller.js:50-79 | 400 with the joi message; 500 when disconnected or refused by the schema; otherwise 201, the hotel stored and cached, and `hotels:*` purged |
| HotelController.AcceptedRoomsCast | server/src/validation/hotel.validation.js:10-19 | rooms that pass joi also cast into the schema |
| HotelController.CreateAfterValidation | server/src/controller/hotel.controller.js:56-67 | past joi, create fails iff the name trims to nothing; the location is the flat address, city and country |
| HotelController.IntOr | server/src/controller/hotel.controller.js:83-84 | `parseInt(x) \|\| d` is never 0 when d is not |
| HotelController.PageNumber | server/src/controller/hotel.controller.js:83 | the page is at least 1 |
| HotelController.PageLimit | server/src/controller/hotel.controller.js:84 | the limit is never 0 and never above 100 |
| HotelController.FindPage | server/src/controller/hotel.controller.js:105-116 | total counts the matches; pages is the ceiling, or 1; the page is the skip/limit window of an ordering of every matching hotel, newest first |
| HotelController.PageContents | server/src/controller/hotel.controller.js:105-107 | a page holds as many distinct matching hotels as skip and limit leave, newest first; on the first page no match left out is newer than one shown |
| HotelController.GetHotels | server/src/controller/hotel.controller.js:81-125 | a cached payload is answered; otherwise 500 when disconnected, on a bad regex or a negative skip; otherwise the page of FindPage (the skip/limit window of the newest-first matches), which is cached |
| HotelController.PagesCover | server/src/controller/hotel.controller.js:114 | with a positive limit, pages cover every match and the last page is not empty |
| HotelController.NegativeLimit | server/src/controller/hotel.controller.js:84 | `?limit=-5` is kept as -5, and 12 matches then report -2 pages |
| HotelController.NegativeLimitPages | server/src/controller/hotel.controller.js:114 | a negative limit with at least that many matches gives a negative page count |
| HotelController.NegativeLimitLaterPage | server/src/controller/hotel.controller.js:85 | a negative limit past page 1 gives a negative skip |
| HotelController.ListKeyCollision | server/src/controller/hotel.controller.js:99-101 | two different searches share one cache key |
| HotelController.GetHotelById | server/src/controller/hotel.controller.js:128-146 | a cached hotel is answered; otherwise 500 on a bad id, 404 when absent, and otherwise the hotel, cached |
| HotelController.UpdateHotel | server/src/controller/hotel.controller.js:149-197 | 400 when the filled-in body fails joi; 500 when disconnected, on a bad id or when the update validators refuse; 404 when absent; otherwise the updated hotel, cached, with the lists purged |
| HotelController.RatingOverwritten | server/src/controller/hotel.controller.js:178-185 | a body of only `rating` skips joi, passes the update validators and overwrites the stored average, keeping the reviews |
| HotelController.CityOnlyUpdateRefused | server/src/controller/hotel.controller.js:160-175 | an update naming only a city is refused with "name" not allowed to be empty |
| HotelController.BlankNameUpdateFails | server/src/controller/hotel.controller.js:182-185 | a name of spaces is refused by the update validators |
| HotelController.DeleteHotel | server/src/controller/hotel.controller.js:200-215 | 500 when disconnected or on a bad id; 404 when absent; otherwise the hotel is removed and `hotel:<raw id>` and `hotels:*` are purged |
| HotelController.HotelKeyLiteral | server/src/controller/hotel.controller.js:207 | the key of a hex id has no wildcards |
| HotelController.HotelKeyNotListed | server/src/controller/hotel.controller.js:208 | `hotel:<id>` never matches `hotels:*` |
| HotelController.DeletePurgesEntry | server/src/controller/hotel.controller.js:206-209 | deleting by the lower-case id removes its cache entry |
| HotelController.DeleteByUpperCaseIdKeepsEntry | server/src/controller/hotel.controller.js:207 | deleting by an upper-case id leaves the entry cached under the lower-case id |
| HotelController.Round1 | server/src/controller/hotel.controller.js:233 | the rounded value is within 0.05 of x and has one decimal |
| HotelController.RatingSumBounds | server/src/controller/hotel.controller.js:232 | ratings from 1 to 5 sum to between n and 5n |
| HotelController.AverageInRange | server/src/controller/hotel.controller.js:232-233 | the stored average of in-range ratings lies between 1 and 5 |
| HotelController.Reviewed | server/src/controller/hotel.controller.js:230-233 | the review is appended, earlier reviews are kept, and the rating is the new average |
| HotelController.AddReview | server/src/controller/hotel.controller.js:218-246 | 400 without a user id or a truthy rating; then 500 on a bad id or disconnected, 404 when absent, 500 for an uncastable user id or a refused save, otherwise 201 with the review stored and cached; 201 iff the rating is in 1..5 once the hotel is found; nothing changes unless 201 |
| StoreController.FindNear | server/src/controller/store.controller.js:61-76 | the answer is the first 200 of an ordering of every store within the radius that passes the match, nearest first |
| StoreController.FindMatching | server/src/controller/store.controller.js:78 | the answer is the first 200 of some listing of every matching store |
| StoreController.ListStores | server/src/controller/store.controller.js:44-87 | a cached list is answered; otherwise 500 when the query fails; otherwise the stores Found by the near or the plain query, which are cached |
| StoreController.FoundFacts | server/src/controller/store.controller.js:61-78 | a listing holds at most 200 distinct listed stores, all of them when fewer come back; with `near`, nearest first and no store left out is nearer than one kept |
| StoreController.TagKeyCollision | server/src/controller/store.controller.js:47-56 | `["a,b"]` and `"a,b"` share a cache key but filter for different tags |
| StoreController.EmptyTagListKeepsNothing | server/src/controller/store.controller.js:55-56 | an empty tag array keeps no store, yet shares the untagged cache key |
| StoreController.TextSearchFails | server/src/controller/store.controller.js:58 | a text search always fails, since there is no text index |
| StoreController.Viewed | server/src/controller/store.controller.js:99-105 | the view counter is incremented only when `set` and `incr` exist and the server is up, and nothing else changes |
| StoreController.GetStore | server/src/controller/store.controller.js:90-113 | a cached store is answered and no view is counted; otherwise 500, or 404, or the store with the view counted and the store cached |
| StoreController.CounterServedAsStore | server/src/controller/store.controller.js:92-103 | once a view is counted, asking for the store `<id>:views` answers with the counter |
| StoreController.CachedReadCountsNoView | server/src/controller/store.controller.js:93-94 | a cached answer means the entry was there |
| StoreController.Promoted | server/src/controller/store.controller.js:133-137 | the owner becomes a "buisness" user, and every other user is kept |
| StoreController.CreateStore | server/src/controller/store.controller.js:116-149 | 401 without a caller; 400 with the joined joi messages; 201 iff the store is created (so 500 for a point out of range), with the owner promoted and `stores:*` purged; otherwise stores and users are unchanged |
| StoreController.CreateAfterValidation | server/src/controller/store.controller.js:129-130 | past joi, create succeeds iff the body has no location or its point has lng in -180..180 and lat in -90..90, and then records the caller as owner |
| StoreController.OutOfRangeStoreRefused | server/src/controller/store.controller.js:125-130 | a body joi accepts with the point [200, 100] is refused by `Store.create`, so the reply is 500 |
| StoreController.UpdateStore | server/src/controller/store.controller.js:152-183 | 401, then 500, 404, 403 "Forbidden: not the owner", 400, 500 when the save is refused (a blank name or slug, a point out of range, a slug clash), then 200 with the fields assigned and `stores:*` and `store:<id>` purged; anything but 200 changes nothing |
| StoreController.UpdateAfterValidation | server/src/controller/store.controller.js:169-170 | past joi, save fails iff a given point is out of range (lng outside -180..180 or lat outside -90..90) |
| StoreController.StoreKeyLiteral | server/src/controller/store.controller.js:175 | the key of a hex id has no wildcards |
| StoreController.UpdateKeepsOtherSpellings | server/src/controller/store.controller.js:174-175 | the view counter and an upper-case cache entry survive the update |
| StoreController.NotListKey | server/src/controller/store.controller.js:174 | `store:` keys never match `stores:*` |
| StoreController.ListLeadsForStore | server/src/controller/store.controller.js:186-206 | 401, 500, 404, 403; otherwise the first 500 of an ordering of every lead of the store, newest first |
| StoreController.LeadPageFacts | server/src/controller/store.controller.js:197-200 | the owner gets at most 500 distinct leads of the store, newest first; no lead left out is newer than one kept, and all of them come back when fewer than 500 do |
| StoreController.LeadFor | server/src/controller/store.controller.js:220-232 | the lead names the store, its snapshot and the client e-mail, with status "new" |
| StoreController.CountLead | server/src/controller/store.controller.js:235-239 | the leads count rises by one and nothing else changes |
| StoreController.ContactStore | server/src/controller/store.controller.js:209-288 | 400 without a client e-mail; 500 or 404; otherwise the lead is stored and counted, and the reply is 201 "Lead created and emailed" or "Lead created (email queued)" |
| RateLimiter.DecimalOr | server/app.js:36-37 | `parseInt(raw, 10) \|\| d` is never 0 unless d is, and is d when nothing is set |
| RateLimiter.ConfigOf | server/app.js:36-37 | window and maximum are never 0, and default to 60 and 60 |
| RateLimiter.HexWindowFallsBack | server/app.js:36 | "0x1e" reads as 0 and falls back to 60 |
| RateLimiter.ClientAddress | server/app.js:42-46 | the address is never empty |
| RateLimiter.CounterKey | server/app.js:47-48 | the counter key starts with `rl:` |
| RateLimiter.Expired | server/app.js:52 | EXPIRE with a positive window sets the timeout, and with a non-positive one deletes the counter |
| RateLimiter.Limit | server/app.js:39-70 | the decision and the key space are Admit's |
| RateLimiter.FailsOpen | server/app.js:39-70 | without INCR or with Redis down every request passes and nothing is stored |
| RateLimiter.BurstCounts | server/app.js:49-64 | within one window the n-th request is refused iff n is above the maximum, with the window as Retry-After |
| RateLimiter.NonPositiveWindowNeverLimits | server/app.js:50-54 | a window that is not positive deletes the counter at once, so nothing is ever refused |
| RateLimiter.WithoutExpireRefusalShowsMinusOne | server/app.js:55-63 | without EXPIRE a refusal shows a ttl of -1 |
| AuthMiddleware.Request.constructor | server/src/middleware/auth.js:9-16 | a request holds its header and cookie and has no user yet |
| AuthMiddleware.HeaderToken | server/src/middleware/auth.js:9-12 | a header token comes from a "Bearer " header and contains no space |
| AuthMiddleware.Token | server/src/middleware/auth.js:9-17 | a non-empty header token wins, then a non-empty cookie |
| AuthMiddleware.Authenticate | server/src/middleware/auth.js:4-27 | 401 without a token; 403 when verification fails; otherwise proceed with `user` set to the payload |
| AuthMiddleware.BearerRoundTrip | server/src/middleware/auth.js:10-11 | "Bearer t" yields t for any t without spaces |
| AuthMiddleware.LowerCaseSchemeIgnored | server/src/middleware/auth.js:10 | "bearer t" yields no header token |
| AuthMiddleware.HeaderBeforeCookie | server/src/middleware/auth.js:15 | the cookie is read only when the header gave none |
| AuthMiddleware.EmptyBearerFallsBack | server/src/middleware/auth.js:11-15 | "Bearer " alone falls back to the cookie |
| Authorize.Normalize | server/src/middleware/authorize.js:1-6 | a role string becomes a one-element list; no argument is the empty list |
| Authorize.Chain | server/src/middleware/authorize.js:7-16 | one guard, allowing the normalised roles |
| Authorize.Check | server/src/middleware/authorize.js:10-13 | proceed iff the user has a non-empty role in the list; otherwise 403 "Forbidden: insufficient role" |
| Authorize.EmptyListRefusesAll | server/src/middleware/authorize.js:1 | the default empty list refuses everyone |
| Authorize.SignedPayloadRefused | server/src/middleware/authorize.js:10-11 | a payload carrying only an id is refused on every guarded route |
| Authorize.OneRoleIsList | server/src/middleware/authorize.js:4-6 | a role string and its one-element list guard alike |
| Authorize.EmptyRoleRefused | server/src/middleware/authorize.js:11 | an empty role is refused even when "" is allowed |
| AuthController.SessionFor | server/src/controller/auth.controller.js:17 | the reply carries the status, the user without its password, and a token for its id |
| AuthController.EmailOwner | server/src/controller/auth.controller.js:11 | the owner of an e-mail, or none exactly when no user has it |
| AuthController.OwnerIsUnique | server/src/model/user.model.js:12-18 | with unique e-mails the owner is the one user that has the e-mail |
| AuthController.Register | server/src/controller/auth.controller.js:5-22 | the reply and the users are RegisterEffect's: 400, 500, 409 "Email already in use", 500 when the schema refuses, otherwise 201 with the new user |
| AuthController.ShortPasswordIsServerError | server/src/controller/auth.controller.js:8-14 | a password under 6 characters passes the handler and fails the schema: 500, not 400 |
| AuthController.Login | server/src/controller/auth.controller.js:25-43 | the reply is LoginEffect's: 400, 500, 401 "Invalid credentials" for an unknown e-mail or a wrong password, otherwise 200 |
| AuthController.RegisterThenLogin | server/src/controller/auth.controller.js:5-43 | whoever registers can log in with the same e-mail and password |
| AuthController.FailuresLookAlike | server/src/controller/auth.controller.js:32-35 | an unknown e-mail and a wrong password get the same reply |
| AuthController.PasswordlessLoginFails | server/src/model/user.model.js:54-56 | logging into an account without a password is a 500 |
| AuthController.SetPassword | server/src/controller/auth.controller.js:46-73 | the reply and the users are SetPasswordEffect's: 401, 400, 500, 404, 400 "Current password required", 401 "Current password is incorrect", otherwise 200 with the hash stored |
| AuthController.SetPasswordThenLogin | server/src/controller/auth.controller.js:46-73 | after a password is set the e-mail is unchanged, and logging in with the new password succeeds |
| AuthController.FirstPasswordNeedsNoCurrent | server/src/controller/auth.controller.js:57-62 | an account without a password sets its first one without a current password |
| GoogleController.LoggedInAs | server/src/controller/google.controller.js:55-65 | 200 with the user without its password and a token for its id |
| GoogleController.Refreshed | server/src/controller/google.controller.js:39-41 | the Google id is linked, name and avatar are refreshed when given, and id, e-mail, password and role are kept |
| GoogleController.GoogleLogin | server/src/controller/google.controller.js:12-72 | the account chosen is a valid lookup (Google id, then e-mail), and the reply and users are SignInEffect's; every failure after the token is 400 |
| GoogleController.LookupBoth | server/src/controller/google.controller.js:29-32 | an account with the Google id if any, else the account with the e-mail, else none |
| GoogleController.SignIn | server/src/controller/google.controller.js:34-65 | an account that was found is refreshed, otherwise a new one is created; the reply and users are Signed's |
| GoogleController.Relink | server/src/controller/google.controller.js:34-43 | an account whose Google id, name or avatar differ is refreshed and saved; otherwise nothing is saved |
| GoogleController.Enrol | server/src/controller/google.controller.js:44-52 | a new account holding the e-mail, name, Google id and avatar is created, or 400 when it does not validate |
| GoogleController.RelinkedKeepsIdentity | server/src/controller/google.controller.js:36-43 | refreshing an account keeps every account, its e-mail, password and role |
| GoogleController.EnrolledKeepsOthers | server/src/controller/google.controller.js:46-51 | creating the Google account adds at most that account and leaves every other account as it was |
| GoogleController.SignInIsSigned | server/src/controller/google.controller.js:12-72 | once the token verifies to a payload with an e-mail, the account chosen is a valid lookup and the sign-in is Signed |
| GoogleController.RelinkedSettles | server/src/controller/google.controller.js:36-43 | after a successful refresh with a trimmed name and a picture, the account no longer needs an update |
| GoogleController.EnrolledSettles | server/src/controller/google.controller.js:36-51 | after a successful creation with a trimmed name and a picture, the new account does not need an update |
| GoogleController.RefreshSaves | server/src/controller/google.controller.js:39-42 | a refreshed account with a non-blank name passes validation on save |
| GoogleController.AccountsKeepTheirIdentity | server/src/controller/google.controller.js:34-52 | Google sign-in never changes an account's e-mail, password or role, and only ever adds the new account |
| GoogleController.LinksPasswordAccount | server/src/controller/google.controller.js:29-43 | when no account has the Google id, the lookup picks the account with the e-mail, and refreshing it answers 200, links the Google id and keeps its password |
| GoogleController.NamelessPayloadKeepsName | server/src/controller/google.controller.js:40 | a successful refresh with a payload without a name keeps the account's (trimmed) name |
| GoogleController.NewNamelessUserFails | server/src/controller/google.controller.js:46-71 | a new user without a name cannot be created and gets 400 |
| GoogleController.SecondSignInChangesNothing | server/src/controller/google.controller.js:36-38 | after a successful sign-in with a trimmed name and a picture, signing in again to the same account saves nothing and answers that account |
| BookingStore.Spread | client/src/store/BookingStore.jsx:23-26 | the merge has every key of both; the update's values win and the other keys keep theirs |
| BookingStore.Store.constructor | client/src/store/BookingStore.jsx:3-20 | the store starts from the initial form |
| BookingStore.Store.SetBookingData | client/src/store/BookingStore.jsx:21-27 | the form becomes the spread of the old form and the update, and every initial field stays |
| BookingStore.Store.ResetBookingData | client/src/store/BookingStore.jsx:28 | the form becomes the initial form |
| BookingStore.EmptyUpdateKeepsState | client/src/store/BookingStore.jsx:21-27 | an empty update changes nothing |
| BookingStore.UpdateIsIdempotent | client/src/store/BookingStore.jsx:21-27 | the same update twice is the update once |
| BookingStore.UpdatesCompose | client/src/store/BookingStore.jsx:21-27 | two updates in a row are one update with the later values winning |
| BookingStore.FullUpdateReplaces | client/src/store/BookingStore.jsx:21-27 | an update naming every field replaces the form |
| BookingStore.ResetAfterUpdates | client/src/store/BookingStore.jsx:24-28 | the form before the reset is every update spread in turn over the initial form, still holding every initial field; the reset yields the initial form |
| BookingStore.AppliedKeepsKeys | client/src/store/BookingStore.jsx:21-27 | a run of updates never removes a field of the form |

## Left out

- **JSON.** Values are typed instead of strings. The JSON.stringify/JSON.parse round trip through Redis is not modelled, nor are the exact keys of JSON bodies.
- **populate.** `populate` of hotel and user names is not modelled; replies carry the stored documents. HTML e-mail bodies are not modelled; a queued job records its type, recipient, subject and ids.
- **Given, not modelled.** Regular expressions, `$geoNear` geometry, joi's e-mail/URI/ISO grammars, JWT signing, `verifyIdToken` and bcrypt are given as parameters. bcrypt is a deterministic hash; salting is left out.
- **Time.** Concurrency is not modelled; requests run one at a time. Time passes only through `Redis.Client.Elapse`. The 30-second lock timeout, the 300-second cache TTL and the rate-limit window are recorded, not raced.
- **Partial failure.** The Redis server is up or down for a whole request. Failures between two commands, and a database that disconnects mid-request, are left out.
- **Documents are values.** A document mutated and saved is modelled as a record replacement in its collection. Aliasing between loaded documents does not arise.
- **Update bodies.** `updateHotel` spreads the whole body into `findByIdAndUpdate`. The model carries every schema path a body can set: name, description, location, images, amenities, rooms, rating and reviews, so a body can overwrite the stored average and the reviews (`HotelController.RatingOverwritten`). The top-level `address`, `city` and `country` are not schema paths; strict mode drops them.
- HotelModel.ApplyUpdate: `createdAt` stays as stored, because the schema's timestamps move a given `createdAt` to `$setOnInsert`; a body holding `_id`, or a value mongoose cannot cast, is not modelled; reviews in the body are taken with their `createdAt` given, so the `Date.now` default of a review sub-document is not modelled.
- HotelController.UpdateHotel: inherits the limits of `HotelModel.ApplyUpdate`.
- StoreModel.Placeable: a coordinate array whose length is neither 0 nor 2 is taken as refused by the `2dsphere` index; joi lets only pairs through, so no handler reaches that case.
- **Degraded booking lock.** The degraded mode for a Redis outage does not exist in the code: with `set` present and Redis down, the lock step throws and `createBooking` answers 500. The model follows the code.
- **Cancellation recipient.** The booking schema has no `contactEmail`. A cancellation therefore never falls back to the e-mail given at booking time. The model follows the code (`BookingModel.ContactEmailDropped`).
- **auth.js 500 branch.** The catch branch of the middleware is left out. Nothing in the model of the header, the cookie or `jwt.verify` throws.
- **jwt.js.** `sendToken`'s cookie options and token expiry are not modelled. A reply carries the user without its password and the id the token is signed for.
- GoogleController.GoogleLogin: the payload's `sub` is taken to be present, as Google always sets it. A `findOne` over several accounts sharing a Google id may return any of them; the method reports the one it chose.
- GoogleController.GoogleLogin: when the database is disconnected, the reported account is the lookup that would have run.
- GoogleController.LinksPasswordAccount, NamelessPayloadKeepsName and SecondSignInChangesNothing are stated over the refresh (`Relinked`) and the connected sign-in (`Signed`), after the token check; `SignInIsSigned` links `Signed` to the whole handler's `SignInEffect`.
- BookingController.StoredIffCreated, LockReleased, AnonymousBookingRefused and RollbackKeepsCachedBooking are stated for any lock key passed to `CreateEffect`; `CreateBooking` passes the key built from the request (`LockKeyOf`).
- **Rate-limiter reply.** The `Retry-After` header and the message are rendered as in `app.js`; `TooMany` stands for the 429 reply, and the JSON wrapping of the message is not modelled.
- Text.Lower: folds only `A`–`Z`; JavaScript's `toLowerCase` folds every Unicode letter, so `"É@x.io"` and `"é@x.io"` are one e-mail in the source and two here.
- Text.Trim: strips only ASCII whitespace; JavaScript's `trim` (and `parseInt`'s leading skip) also strips Unicode spaces such as U+00A0.
- UserModel.NormalizeEmail: inherits the ASCII-only `Lower` and `Trim`.
- AuthController.SetPassword: `newPassword.length < 6` counts UTF-16 units in the source; the model counts code points, so `"😀😀😀"` (six units, three code points) is accepted there and answered 400 here. `SetPasswordEffect` and `SetPasswordThenLogin` share this gap.
- UserModel.Create: the `trim` and `lowercase` setters are ASCII-only, and `minlength: 6` counts code points where JavaScript counts UTF-16 units.
- HotelModel.Create: the name's `trim` setter is ASCII-only, so a name of non-breaking spaces is not refused as empty.
- Joi.RuleIssues: `min`, `max` and `length` count code points where joi counts UTF-16 units.
- **Floating point.** Ratings and prices are reals; `Math.round` is modelled on reals, not on IEEE doubles.
- **Client.** Only `BookingStore.jsx` of the client is modelled. Its React components, routes and styling are outside this model.
