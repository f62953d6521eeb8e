/**
 * The `auth` middleware: take a bearer token from the `Authorization` header (the scheme of
 * section 2.1 of RFC 6750, with the prefix "Bearer " matched case-sensitively) or else from the
 * `token` cookie, verify it, and hand the decoded payload on as `req.user`.
 */
module AuthMiddleware {
  import opened Wrappers
  import opened Text

  /** A decoded token. The tokens this server signs carry only `id`. */
  datatype Payload = Payload(id: Option<string>, role: Option<string>)

  datatype Decision = Proceed | Refuse(status: int, message: string)

  const NoToken := Refuse(401, "Unauthorized: no token")
  const BadToken := Refuse(403, "Forbidden: invalid token")
  const Scheme := "Bearer "

  /** The request as the middleware sees it; `user` is what it sets for later handlers. */
  class Request {
    const authorization: Option<string>
    /** `req.cookies.token` (absent when there is no cookie parser or no such cookie). */
    const cookieToken: Option<string>
    var user: Option<Payload>

    constructor (authorization: Option<string>, cookieToken: Option<string>)
      ensures this.authorization == authorization && this.cookieToken == cookieToken && user.None?
    {
      this.authorization := authorization;
      this.cookieToken := cookieToken;
      user := None;
    }
  }

  /** `authHeader.split(" ")[1]` for a header that starts with "Bearer "; none otherwise. */
  function HeaderToken(header: Option<string>): (t: Option<string>)
    ensures t.Some? ==> header.Some? && StartsWith(header.value, Scheme) && ' ' !in t.value
  {
    if header.Some? && StartsWith(header.value, Scheme) then
      var parts := Split(header.value, ' ');
      if |parts| >= 2 then Some(parts[1]) else None
    else None
  }

  /** The token used: a non-empty header token, else a non-empty cookie token. */
  function Token(header: Option<string>, cookie: Option<string>): (t: Option<string>)
    ensures t.Some? ==> t.value != ""
    ensures HeaderToken(header).Some? && HeaderToken(header).value != "" ==> t == HeaderToken(header)
    ensures !(HeaderToken(header).Some? && HeaderToken(header).value != "") ==> t == (if Given(cookie) then cookie else None)
  {
    var h := HeaderToken(header);
    if h.Some? && h.value != "" then h
    else if Given(cookie) then cookie
    else None
  }

  /** `jwt.verify` (the outcome is given): the payload, or none when verification fails. */
  method Authenticate(req: Request, verify: string -> Option<Payload>) returns (d: Decision)
    modifies req
    ensures Token(req.authorization, req.cookieToken).None? ==> d == NoToken && req.user == old(req.user)
    ensures Token(req.authorization, req.cookieToken).Some? ==>
              var p := verify(Token(req.authorization, req.cookieToken).value);
              if p.None? then d == BadToken && req.user == old(req.user)
              else d == Proceed && req.user == p
  {
    var token := HeaderToken(req.authorization);
    if !(token.Some? && token.value != "") && Given(req.cookieToken) {
      token := req.cookieToken;
    }
    if !(token.Some? && token.value != "") {
      return NoToken;
    }
    var payload := verify(token.value);
    if payload.None? {
      return BadToken;
    }
    req.user := payload;
    d := Proceed;
  }

  /** "Bearer <t>" yields `t` for any token without spaces: the header round-trips. */
  lemma BearerRoundTrip(t: string)
    requires ' ' !in t
    ensures HeaderToken(Some(Scheme + t)) == Some(t)
  {
    var parts := ["Bearer", t];
    assert Join(parts, ' ') == "Bearer" + [' '] + Join([t], ' ');
    assert Scheme + t == Join(parts, ' ');
    assert ' ' !in parts[0];
    SplitJoin(parts, ' ');
    PrefixOfConcat(Scheme, t);
  }

  /** The scheme name is matched case-sensitively: "bearer <t>" gives no header token. */
  lemma LowerCaseSchemeIgnored(t: string)
    ensures HeaderToken(Some("bearer " + t)).None?
  {
    assert ("bearer " + t)[0] == 'b';
  }

  /** A header token wins: the cookie is consulted only when the header gave none. */
  lemma HeaderBeforeCookie(t: string, cookie: Option<string>)
    requires ' ' !in t && t != ""
    ensures Token(Some(Scheme + t), cookie) == Some(t)
  {
    BearerRoundTrip(t);
  }

  /** "Bearer " followed by nothing (or by a second space) falls back to the cookie. */
  lemma EmptyBearerFallsBack(cookie: Option<string>)
    ensures Token(Some(Scheme), cookie) == (if Given(cookie) then cookie else None)
  {
    BearerRoundTrip("");
  }
}
