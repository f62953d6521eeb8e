/** `validateBooking`: the joi schema a create-booking request body must satisfy (joi stops at the first issue). */
module BookingValidation {
  import opened Wrappers
  import opened Text
  import opened Joi

  /** The `payment` object of a request body; `unknown` lists keys it does not declare. */
  datatype PaymentBody = PaymentBody(payMethod: Option<string>, transactionId: Option<string>, unknown: seq<string>)

  /** A request body as the handler receives it: dates as strings, numbers already numbers. */
  datatype BookingBody = BookingBody(
    user: Option<string>,
    hotel: Option<string>,
    roomName: Option<string>,
    checkIn: Option<string>,
    checkOut: Option<string>,
    guests: Option<real>,
    totalPrice: Option<real>,
    currency: Option<string>,
    contactEmail: Option<string>,
    payment: Option<PaymentBody>,
    unknown: seq<string>)

  const IdRules: seq<StringRule> := [HexRule, LengthRule(24)]

  /** `joi.date().iso()`: a string in ISO 8601 form. */
  function DateIssues(path: string, v: Option<string>, sx: Syntax): (r: seq<Issue>)
    ensures r == [] <==> v.Some? && sx.isoDate(v.value).Some?
  {
    match v
    case None => [Issue(path, Required)]
    case Some(s) => if sx.isoDate(s).None? then [Issue(path, IsoFormat)] else []
  }

  /** `checkOut`: a required ISO date `.greater(joi.ref("checkIn"))`, compared when both dates parse. */
  function CheckOutIssues(b: BookingBody, sx: Syntax): (r: seq<Issue>)
    ensures r == [] <==> && b.checkOut.Some? && sx.isoDate(b.checkOut.value).Some?
                         && (b.checkIn.Some? && sx.isoDate(b.checkIn.value).Some? ==>
                               sx.isoDate(b.checkOut.value).value > sx.isoDate(b.checkIn.value).value)
  {
    var d := DateIssues("checkOut", b.checkOut, sx);
    if d != [] then d
    else if b.checkIn.Some? && sx.isoDate(b.checkIn.value).Some?
            && sx.isoDate(b.checkOut.value).value <= sx.isoDate(b.checkIn.value).value
    then [Issue("checkOut", Greater("checkIn"))]
    else []
  }

  function PaymentIssues(p: Option<PaymentBody>, sx: Syntax): (r: seq<Issue>)
    ensures r == [] <==> p.None? || PaymentAccepted(p.value)
  {
    match p
    case None => []
    case Some(pb) =>
      StringIssues("payment.method", pb.payMethod, false, false, [], sx)
      + StringIssues("payment.transactionId", pb.transactionId, false, false, [], sx)
      + UnknownIssues("payment.", pb.unknown)
  }

  predicate PaymentAccepted(p: PaymentBody) {
    (p.payMethod.None? || p.payMethod.value != "")
    && (p.transactionId.None? || p.transactionId.value != "")
    && p.unknown == []
  }

  /** Every issue the schema finds, in the order joi visits the keys (declared keys, then unknown ones). */
  function Issues(b: BookingBody, sx: Syntax): seq<Issue> {
    StringIssues("user", b.user, false, false, IdRules, sx)
    + StringIssues("hotel", b.hotel, true, false, IdRules, sx)
    + StringIssues("roomName", b.roomName, false, false, [MaxRule(200)], sx)
    + DateIssues("checkIn", b.checkIn, sx)
    + CheckOutIssues(b, sx)
    + NumberIssues("guests", b.guests, false, Some(1), Some(20))
    + NumberIssues("totalPrice", b.totalPrice, true, Some(0), None)
    + StringIssues("currency", b.currency, false, false, [LengthRule(3)], sx)
    + StringIssues("contactEmail", b.contactEmail, true, false, [EmailRule], sx)
    + PaymentIssues(b.payment, sx)
    + UnknownIssues("", b.unknown)
  }

  /** `validateBooking(body).error`: the first issue, whose message the handler answers 400 with. */
  function Validate(b: BookingBody, sx: Syntax): (r: Option<Issue>)
    ensures r.Some? ==> r.value in Issues(b, sx)
  {
    First(Issues(b, sx))
  }

  /** What the schema accepts, stated key by key. */
  predicate Accepted(b: BookingBody, sx: Syntax) {
    && (b.user.None? || IsObjectId(b.user.value))
    && b.hotel.Some? && IsObjectId(b.hotel.value)
    && (b.roomName.None? || 1 <= |b.roomName.value| <= 200)
    && b.checkIn.Some? && sx.isoDate(b.checkIn.value).Some?
    && b.checkOut.Some? && sx.isoDate(b.checkOut.value).Some?
    && sx.isoDate(b.checkOut.value).value > sx.isoDate(b.checkIn.value).value
    && (b.guests.None? || 1.0 <= b.guests.value <= 20.0)
    && b.totalPrice.Some? && b.totalPrice.value >= 0.0
    && (b.currency.None? || |b.currency.value| == 3)
    && b.contactEmail.Some? && b.contactEmail.value != "" && sx.isEmail(b.contactEmail.value)
    && (b.payment.None? || PaymentAccepted(b.payment.value))
    && b.unknown == []
  }

  lemma IdRulesOk(v: Option<string>, required: bool, sx: Syntax)
    ensures StringOk(v, required, false, IdRules, sx) <==> if v.None? then !required else IsObjectId(v.value)
  {
    if v.Some? {
      var s := v.value;
      assert Holds(IdRules[0], s, sx) <==> forall i :: 0 <= i < |s| ==> IsHexDigit(s[i]);
      assert Holds(IdRules[1], s, sx) <==> |s| == 24;
    }
  }

  /** The body passes validation exactly when it meets every key's constraint. */
  lemma ValidateIffAccepted(b: BookingBody, sx: Syntax)
    ensures Validate(b, sx).None? <==> Accepted(b, sx)
  {
    IdRulesOk(b.user, false, sx);
    IdRulesOk(b.hotel, true, sx);
    var room := [MaxRule(200)];
    assert b.roomName.Some? && b.roomName.value != "" ==> (Holds(room[0], b.roomName.value, sx) <==> |b.roomName.value| <= 200);
    var cur := [LengthRule(3)];
    assert b.currency.Some? && b.currency.value != "" ==> (Holds(cur[0], b.currency.value, sx) <==> |b.currency.value| == 3);
    var em := [EmailRule];
    assert b.contactEmail.Some? && b.contactEmail.value != "" ==> (Holds(em[0], b.contactEmail.value, sx) <==> sx.isEmail(b.contactEmail.value));
  }

  /** An accepted body names a hotel id that `findById` can cast, and a stay of positive length. */
  lemma AcceptedHotelCastable(b: BookingBody, sx: Syntax)
    requires Validate(b, sx).None?
    ensures b.hotel.Some? && IsObjectId(b.hotel.value)
    ensures b.checkIn.Some? && sx.isoDate(b.checkIn.value).Some? && b.checkOut.Some? && sx.isoDate(b.checkOut.value).Some?
    ensures sx.isoDate(b.checkIn.value).value < sx.isoDate(b.checkOut.value).value
    ensures b.totalPrice.Some? && b.contactEmail.Some?
  {
    ValidateIffAccepted(b, sx);
  }

  /** `contactEmail` is demanded even of a body that names its user. */
  lemma ContactEmailAlwaysRequired(b: BookingBody, sx: Syntax)
    requires b.contactEmail.None?
    ensures Validate(b, sx).Some?
  {
    ValidateIffAccepted(b, sx);
  }

  /** When the first failing key is `hotel`, the message is joi's `"hotel" ...` text. */
  lemma MissingHotelMessage(b: BookingBody, sx: Syntax)
    requires b.user.None? && b.hotel.None?
    ensures Validate(b, sx) == Some(Issue("hotel", Required))
    ensures Message(Validate(b, sx).value) == "\"hotel\" is required"
  {
    HotelIssueFirst(b, sx);
    HotelRequiredText();
  }

  lemma HotelIssueFirst(b: BookingBody, sx: Syntax)
    requires b.user.None? && b.hotel.None?
    ensures Validate(b, sx) == Some(Issue("hotel", Required))
  {
    var lead := StringIssues("user", b.user, false, false, IdRules, sx) + StringIssues("hotel", b.hotel, true, false, IdRules, sx);
    assert lead == [Issue("hotel", Required)];
    assert Issues(b, sx)[0] == lead[0];
  }

  lemma HotelRequiredText()
    ensures Message(Issue("hotel", Required)) == "\"hotel\" is required"
  {
  }
}
