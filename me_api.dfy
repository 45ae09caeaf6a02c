/** The profile route: the signed-in user reads their own record (GET) or
    overwrites it (PUT). */
module MeApi {
  import opened Json
  import opened Users
  import opened Http

  const MissingUserData := "Missing user data"

  /** `getMe`: the caller's record with 200, or `false` when there is none. */
  function GetMe(table: map<string, StoredUser>, token: IdToken): (r: Response)
    ensures r.Reply? && r.status == 200 && r.allow == []
    ensures r.body == NoRecord <==> token.uid !in table
    ensures r.body.Record? ==>
              (SameProfile(r.body.user, table[token.uid]) && r.body.user.skills == SkillsFromText(table[token.uid].skills))
  {
    match GetUserData(table, token)
    case None => Respond(200, NoRecord)
    case Some(user) => Respond(200, Record(user))
  }

  /** The route. `token` is the verified identity (`None` when validation
      fails); `body` is the PUT body taken as a profile, `None` when it is falsy.
      The 405 answer lists only GET in `Allow`, although PUT is served. */
  method Handler(store: UserStore, token: Option<IdToken>, m: Method, body: Option<UserRecord>) returns (response: Response)
    modifies store
    ensures token.None? ==> response == Unauthorized && store.table == old(store.table)
    ensures token.Some? && m == GET ==> response == GetMe(old(store.table), token.value) && store.table == old(store.table)
    ensures token.Some? && m == PUT && body.None? ==>
              response == Respond(400, Message(MissingUserData)) && store.table == old(store.table)
    ensures token.Some? && m == PUT && body.Some? ==>
              response == Respond(200, Record(body.value)) &&
              store.table == old(store.table)[token.value.uid := Encode(body.value)]
    ensures token.Some? && m != GET && m != PUT ==>
              response == NotAllowed(m, ["GET"]) && store.table == old(store.table)
  {
    if token.None? {
      return Unauthorized;
    }
    if m == GET {
      response := GetMe(store.table, token.value);
    } else if m == PUT {
      if body.None? {
        return Respond(400, Message(MissingUserData));
      }
      var _ := store.UpdateUser(token.value, body.value);
      response := Respond(200, Record(body.value));
    } else {
      response := NotAllowed(m, ["GET"]);
    }
  }

  /** A GET after a PUT answers with the record the PUT echoed, except that
      a skills list `[""]` reads back as `[]`. */
  lemma GetAfterPut(table: map<string, StoredUser>, token: IdToken, user: UserRecord)
    requires NoComma(user.skills)
    ensures GetMe(table[token.uid := Encode(user)], token)
         == Respond(200, Record(if user.skills == [""] then user.(skills := []) else user))
  {
    ReadAfterUpdate(table, token, user);
  }
}
