/** The login route: exchanges a client ID token for a session cookie and
    creates the user's record on first login. The identity provider's two
    calls are inputs: the session cookie it mints (`None` when minting
    throws) and the identity it verifies from that cookie (`None` when
    verification throws). */
module LoginApi {
  import opened Json
  import opened Users
  import opened Http

  /** Five days, in milliseconds: the lifetime the identity provider gives the session. */
  const SessionLifetimeMs := 60 * 60 * 24 * 5 * 1000

  /** The options the session cookie is serialized with; the serializer reads
      `maxAge` as a number of seconds. */
  datatype Cookie = Cookie(value: string, maxAgeSeconds: int, httpOnly: bool, path: string)

  /** The cookie as the route builds it: the millisecond lifetime is passed
      where seconds are expected, so the cookie's `Max-Age` is a thousand
      times the session's lifetime. */
  function SessionCookieAsWritten(value: string): (c: Cookie)
    ensures c.value == value && c.httpOnly && c.path == "/"
    ensures c.maxAgeSeconds == 1000 * (SessionLifetimeMs / 1000)
  {
    Cookie(value, SessionLifetimeMs, true, "/")
  }

  /** The as-written cookie outlives its five-day session by more than thirteen years. */
  lemma CookieAsWrittenOutlivesSession(value: string)
    ensures SessionCookieAsWritten(value).maxAgeSeconds > 13 * 365 * 86_400
    ensures SessionCookieAsWritten(value).maxAgeSeconds != SessionLifetimeMs / 1000
  {
  }

  /** The cookie as evidently intended: it expires together with the session. */
  function SessionCookie(value: string): (c: Cookie)
    ensures c.value == value && c.httpOnly && c.path == "/"
    ensures c.maxAgeSeconds * 1000 == SessionLifetimeMs
  {
    Cookie(value, SessionLifetimeMs / 1000, true, "/")
  }

  /** The intended cookie lives five days, counted in seconds. */
  lemma CookieExpiresWithSession(value: string)
    ensures SessionCookie(value).maxAgeSeconds == 5 * 86_400
    ensures SessionCookie(value).maxAgeSeconds == SessionCookieAsWritten(value).maxAgeSeconds / 1000
  {
  }

  const MethodNotAllowed := "Method not allowed"
  const TokenRequired := "ID token is required."
  const CannotLogIn := "Unable to log you in"

  /** The record written on a first login: the identity's uid and name, its
      email and picture or `""`, not looking for work, no skills, and every
      other field empty or zero. */
  function DefaultUser(identity: IdToken): (u: UserRecord)
    ensures u.uid == identity.uid && u.name == identity.name
    ensures u.email == (if identity.email.Some? then identity.email.value else "")
    ensures u.picture == (if identity.picture.Some? then identity.picture.value else "")
    ensures !u.lookingForWork && u.skills == [] && u.successRate == 0
    ensures u.title == u.website == u.location == u.timezone == u.about == ""
    ensures u.configId == u.configId60 == u.grantId == ""
  {
    UserRecord(identity.uid, identity.name,
               if identity.email.Some? then identity.email.value else "",
               "",
               if identity.picture.Some? then identity.picture.value else "",
               "", "", "", false, [], 0, "", "", "", "")
  }

  datatype LoginOutcome = LoginOutcome(response: Response, cookie: Option<Cookie>, table: map<string, StoredUser>)

  /** `request.body.idToken`: destructuring an absent or null body throws. */
  function IdTokenOf(body: Option<Json>): (r: Outcome<Option<Json>>)
    ensures r.Threw? <==> body.None? || body.value.JNull?
    ensures r.Done? && r.value.Some? ==> body.value.JObj? && "idToken" in body.value.fields && r.value.value == body.value.fields["idToken"]
  {
    if body.None? then Threw else Member(body.value, "idToken")
  }

  /** What the route does, as a function of the store and the provider's answers. */
  function LoginSpec(table: map<string, StoredUser>, m: Method, body: Option<Json>,
                     sessionCookie: Option<string>, identity: Option<IdToken>): (r: LoginOutcome)
    ensures m != POST ==> r == LoginOutcome(Respond(405, Message(MethodNotAllowed)), None, table)
    ensures m == POST && IdTokenOf(body).Threw? ==> r == LoginOutcome(Uncaught, None, table)
    ensures m == POST && IdTokenOf(body).Done? && Missing(IdTokenOf(body).value) ==>
              r == LoginOutcome(Respond(400, Message(TokenRequired)), None, table)
    // The cookie is set as soon as it is minted, even when verification then fails.
    ensures r.cookie.Some? <==> m == POST && IdTokenOf(body).Done? && !Missing(IdTokenOf(body).value) && sessionCookie.Some?
    ensures r.cookie.Some? ==> r.cookie.value == SessionCookie(sessionCookie.value)
    // Success needs a minted cookie and a verified identity; it answers with the stored record.
    ensures r.response.Reply? && r.response.status == 200 <==> r.cookie.Some? && identity.Some?
    ensures r.cookie.Some? && identity.None? ==> r.response == Respond(403, Message(CannotLogIn))
    ensures r.cookie.Some? && identity.Some? ==> identity.value.uid in r.table
    ensures r.cookie.Some? && identity.Some? ==>
              r.response == Respond(200, LoginSuccess(GetUserData(r.table, identity.value).value))
    // Only a first login writes, and only the identity's own entry.
    ensures r.table != table ==>
              (r.cookie.Some? && identity.Some? && identity.value.uid !in table &&
               r.table == table[identity.value.uid := Encode(DefaultUser(identity.value))])
  {
    if m != POST then LoginOutcome(Respond(405, Message(MethodNotAllowed)), None, table)
    else match IdTokenOf(body)
      case Threw => LoginOutcome(Uncaught, None, table)
      case Done(idToken) =>
        if Missing(idToken) then LoginOutcome(Respond(400, Message(TokenRequired)), None, table)
        else if sessionCookie.None? then LoginOutcome(Respond(403, Message(CannotLogIn)), None, table)
        else
          var cookie := Some(SessionCookie(sessionCookie.value));
          if identity.None? then LoginOutcome(Respond(403, Message(CannotLogIn)), cookie, table)
          else
            var written := if identity.value.uid in table then table
                           else table[identity.value.uid := Encode(DefaultUser(identity.value))];
            LoginOutcome(Respond(200, LoginSuccess(GetUserData(written, identity.value).value)), cookie, written)
  }

  /** `handler`, on the store: the record is created on a first login and
      then read back. */
  method Handler(store: UserStore, m: Method, body: Option<Json>, sessionCookie: Option<string>, identity: Option<IdToken>)
    returns (response: Response, cookie: Option<Cookie>)
    modifies store
    ensures LoginOutcome(response, cookie, store.table) == LoginSpec(old(store.table), m, body, sessionCookie, identity)
  {
    if m != POST {
      return Respond(405, Message(MethodNotAllowed)), None;
    }
    var idToken := IdTokenOf(body);
    if idToken.Threw? {
      return Uncaught, None;
    }
    if Missing(idToken.value) {
      return Respond(400, Message(TokenRequired)), None;
    }
    if sessionCookie.None? {
      return Respond(403, Message(CannotLogIn)), None;
    }
    cookie := Some(SessionCookie(sessionCookie.value));
    if identity.None? {
      return Respond(403, Message(CannotLogIn)), cookie;
    }
    var userData := GetUserData(store.table, identity.value);
    if userData.None? {
      var _ := store.UpdateUser(identity.value, DefaultUser(identity.value));
      userData := GetUserData(store.table, identity.value);
    }
    response := Respond(200, LoginSuccess(userData.value));
  }

  /** The route sets the corrected cookie; the source sends, at the same
      points, the as-written cookie for the same session value, whose
      `Max-Age` is a thousand times larger. */
  lemma RouteCookieAsSent(table: map<string, StoredUser>, m: Method, body: Option<Json>,
                          sessionCookie: Option<string>, identity: Option<IdToken>)
    ensures var r := LoginSpec(table, m, body, sessionCookie, identity);
            r.cookie.Some? ==>
              var sent := SessionCookieAsWritten(sessionCookie.value);
              && sent == r.cookie.value.(maxAgeSeconds := sent.maxAgeSeconds)
              && sent.maxAgeSeconds == 1000 * r.cookie.value.maxAgeSeconds
  {
  }

  /** A first login stores the default record and answers with exactly that record. */
  lemma FirstLoginAnswersDefault(table: map<string, StoredUser>, body: Option<Json>, cookie: string, identity: IdToken)
    requires IdTokenOf(body).Done? && !Missing(IdTokenOf(body).value)
    requires identity.uid !in table
    ensures var r := LoginSpec(table, POST, body, Some(cookie), Some(identity));
            r.table == table[identity.uid := Encode(DefaultUser(identity))] &&
            r.response == Respond(200, LoginSuccess(DefaultUser(identity)))
  {
    ReadAfterUpdate(table, identity, DefaultUser(identity));
  }

  /** A returning user's record is never overwritten: login answers with it as stored. */
  lemma ReturningLoginKeepsRecord(table: map<string, StoredUser>, body: Option<Json>, cookie: string, identity: IdToken)
    requires IdTokenOf(body).Done? && !Missing(IdTokenOf(body).value)
    requires identity.uid in table
    ensures var r := LoginSpec(table, POST, body, Some(cookie), Some(identity));
            r.table == table && r.response == Respond(200, LoginSuccess(Decode(table[identity.uid])))
  {
  }

  /** Logging in twice with the same identity answers the same and writes nothing the second time. */
  lemma LoginIsIdempotent(table: map<string, StoredUser>, body: Option<Json>, cookie: string, identity: IdToken)
    requires IdTokenOf(body).Done? && !Missing(IdTokenOf(body).value)
    ensures var first := LoginSpec(table, POST, body, Some(cookie), Some(identity));
            var second := LoginSpec(first.table, POST, body, Some(cookie), Some(identity));
            second.table == first.table && second.response == first.response
  {
  }
}
