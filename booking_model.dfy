/** The `Booking` collection's schema: fields, the status enum, defaults and required paths. */
module BookingModel {
  import opened Wrappers
  import opened Mongo

  datatype Status = Booked | Cancelled | Completed

  function StatusName(s: Status): string {
    match s
    case Booked => "booked"
    case Cancelled => "cancelled"
    case Completed => "completed"
  }

  /** `payment.method` and `payment.transactionId` (`method` is a Dafny keyword, hence `payMethod`). */
  datatype Payment = Payment(payMethod: Option<string>, transactionId: Option<string>)

  /** A stored booking. The schema has no `contactEmail` path, so a booking carries none. */
  datatype Booking = Booking(
    id: Id,
    user: Id,
    hotel: Id,
    roomName: Option<string>,
    checkIn: int,
    checkOut: int,
    guests: real,
    totalPrice: real,
    currency: string,
    status: Status,
    payment: Payment,
    createdAt: int)

  /** The object handed to `Booking.create`, including keys the schema does not declare. */
  datatype Draft = Draft(
    user: Option<Id>,
    hotel: Option<Id>,
    roomName: Option<string>,
    checkIn: Option<int>,
    checkOut: Option<int>,
    guests: Option<real>,
    totalPrice: Option<real>,
    currency: Option<string>,
    payment: Option<Payment>,
    contactEmail: Option<string>)

  /** The schema's required paths, in declaration order. */
  function MissingPath(d: Draft): (r: Option<string>)
    ensures r.None? <==> d.user.Some? && d.hotel.Some? && d.checkIn.Some? && d.checkOut.Some? && d.totalPrice.Some?
  {
    if d.user.None? then Some("user")
    else if d.hotel.None? then Some("hotel")
    else if d.checkIn.None? then Some("checkIn")
    else if d.checkOut.None? then Some("checkOut")
    else if d.totalPrice.None? then Some("totalPrice")
    else None
  }

  /**
   * `Booking.create(draft)`: refuses a draft that lacks a required path, fills the defaults
   * (guests 1, currency "USD", status "booked", createdAt now) and drops undeclared keys.
   */
  function Create(d: Draft, id: Id, now: int): (r: Saved<Booking>)
    ensures r.Ok? <==> d.user.Some? && d.hotel.Some? && d.checkIn.Some? && d.checkOut.Some? && d.totalPrice.Some?
    ensures r.Ok? ==> && r.doc.id == id && r.doc.user == d.user.value && r.doc.hotel == d.hotel.value
                      && r.doc.roomName == d.roomName
                      && r.doc.checkIn == d.checkIn.value && r.doc.checkOut == d.checkOut.value
                      && r.doc.totalPrice == d.totalPrice.value
                      && r.doc.guests == (if d.guests.Some? then d.guests.value else 1.0)
                      && r.doc.currency == (if d.currency.Some? then d.currency.value else "USD")
                      && r.doc.status == Booked && r.doc.createdAt == now
                      && r.doc.payment == (if d.payment.Some? then d.payment.value else Payment(None, None))
  {
    match MissingPath(d)
    case Some(p) => Rejected(p)
    case None =>
      Ok(Booking(id, d.user.value, d.hotel.value, d.roomName, d.checkIn.value, d.checkOut.value,
                 d.guests.GetOr(1.0), d.totalPrice.value, d.currency.GetOr("USD"), Booked,
                 d.payment.GetOr(Payment(None, None)), now))
  }

  /** Whatever `contactEmail` the handler passes, the stored booking is the same. */
  lemma ContactEmailDropped(d: Draft, email: Option<string>, id: Id, now: int)
    ensures Create(d.(contactEmail := email), id, now) == Create(d, id, now)
  {
  }
}
