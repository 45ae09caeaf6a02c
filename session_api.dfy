/** The session route: a client asks for a scheduling session with one
    contractor for one meeting length; the route checks the request and the
    contractor, picks the configuration for that length and asks the
    scheduling provider for a short-lived session token. */
module SessionApi {
  import opened Json
  import opened Users
  import opened Http

  datatype SessionRequest = SessionRequest(contractorId: string, duration: int)

  /** `sessionRequestSchema.parse`: an object with a string `contractor_id`
      and a number `duration`; other members are ignored. */
  function ParseSessionRequest(j: Json): (r: Option<SessionRequest>)
    ensures r.Some? <==> j.JObj? && "contractor_id" in j.fields && j.fields["contractor_id"].JStr?
                         && "duration" in j.fields && j.fields["duration"].JNum?
    ensures r.Some? ==> j.fields["contractor_id"] == JStr(r.value.contractorId)
    ensures r.Some? ==> j.fields["duration"] == JNum(r.value.duration)
  {
    if j.JObj? && "contractor_id" in j.fields && j.fields["contractor_id"].JStr?
       && "duration" in j.fields && j.fields["duration"].JNum?
    then Some(SessionRequest(j.fields["contractor_id"].s, j.fields["duration"].n))
    else None
  }

  /** The body of the provider call: the grant it is addressed to, the
      session lifetime and the configuration it is scoped to. */
  datatype TokenRequest = TokenRequest(grantId: string, timeToLive: int, configId: string)

  /** What the route sends the provider (if anything) and what it answers. */
  datatype Exchange = Exchange(request: Option<TokenRequest>, response: Response)

  const MissingSessionData := "Missing session data"
  const InvalidSessionData := "Invalid session data"
  const InvalidContractorId := "Invalid contractor id"
  const NotLookingForWork := "Contractor is not looking for work"
  const Incomplete30 := "Contractor has not completed their profile for 30 minutes"
  const Incomplete60 := "Contractor has not completed their profile for 60 minutes"

  function Refuse(message: string): Exchange
  {
    Exchange(None, Respond(400, Message(message)))
  }

  /** The configuration a session is scoped to: `config_id` for 30 minutes,
      `config_id_60` for any other length. */
  function ChosenConfigId(user: UserRecord, duration: int): (id: string)
    ensures duration == 30 ==> id == user.configId
    ensures duration != 30 ==> id == user.configId60
  {
    if duration == 30 then user.configId else user.configId60
  }

  /** `createSession`. `ttl` is the fixed session lifetime; `reply` is the
      provider's parsed answer to the token request (`Threw` when the call or
      the parse fails). */
  function CreateSession(body: Option<Json>, table: map<string, StoredUser>, ttl: int, reply: Outcome<Json>): (r: Exchange)
    // A missing body is refused before anything is looked up.
    ensures Missing(body) ==> r == Refuse(MissingSessionData)
    // A body without a string contractor id and a numeric duration is refused.
    ensures !Missing(body) && ParseSessionRequest(body.value).None? ==> r == Refuse(InvalidSessionData)
    // A request goes out only for a known contractor who is looking for work
    // and has the configuration the length needs; it carries the grant, the
    // lifetime and the configuration chosen for the length.
    ensures r.request.Some? ==>
      !Missing(body) && ParseSessionRequest(body.value).Some? &&
      ParseSessionRequest(body.value).value.contractorId in table
    ensures r.request.Some? ==>
      var req := ParseSessionRequest(body.value).value;
      var user := table[req.contractorId];
      user.lookingForWork &&
      !(req.duration == 30 && user.configId == "") && !(req.duration == 60 && user.configId60 == "") &&
      r.request.value == TokenRequest(user.grantId, ttl, if req.duration == 30 then user.configId else user.configId60)
    // The provider's answer goes back verbatim with 200; a failed call is "Invalid session data".
    ensures r.request.Some? ==>
      r.response == if reply.Done? then Respond(200, Value(Some(reply.value))) else Respond(400, Message(InvalidSessionData))
    ensures r.request.None? ==> r.response.Reply? && r.response.status == 400
  {
    if Missing(body) then Refuse(MissingSessionData)
    else match ParseSessionRequest(body.value)
      case None => Refuse(InvalidSessionData)
      case Some(req) =>
        match GetUserByUid(table, req.contractorId)
        case None => Refuse(InvalidContractorId)
        case Some(user) =>
          if !user.lookingForWork then Refuse(NotLookingForWork)
          else if req.duration == 30 && user.configId == "" then Refuse(Incomplete30)
          else if req.duration == 60 && user.configId60 == "" then Refuse(Incomplete60)
          else
            var request := TokenRequest(user.grantId, ttl, ChosenConfigId(user, req.duration));
            match reply
            case Done(answer) => Exchange(Some(request), Respond(200, Value(Some(answer))))
            case Threw => Exchange(Some(request), Respond(400, Message(InvalidSessionData)))
  }

  /** The route: POST creates a session; any other method is refused with 405. */
  function Handler(m: Method, body: Option<Json>, table: map<string, StoredUser>, ttl: int, reply: Outcome<Json>): (r: Exchange)
    ensures m != POST ==> r == Exchange(None, NotAllowed(m, ["POST"]))
    ensures m == POST ==> r == CreateSession(body, table, ttl, reply)
  {
    if m == POST then CreateSession(body, table, ttl, reply) else Exchange(None, NotAllowed(m, ["POST"]))
  }

  /** The checks run in a fixed order: unknown contractor, then not looking
      for work, then a missing configuration for the requested length. */
  lemma CheckOrder(contractorId: string, duration: int, table: map<string, StoredUser>, ttl: int, reply: Outcome<Json>)
    ensures var body := Some(JObj(map["contractor_id" := JStr(contractorId), "duration" := JNum(duration)]));
            var r := CreateSession(body, table, ttl, reply);
            && (contractorId !in table ==> r == Refuse(InvalidContractorId))
            && (contractorId in table && !table[contractorId].lookingForWork ==> r == Refuse(NotLookingForWork))
            && (contractorId in table && table[contractorId].lookingForWork ==>
                  ((duration == 30 && table[contractorId].configId == "") <==> r == Refuse(Incomplete30)) &&
                  ((duration == 60 && table[contractorId].configId60 == "") <==> r == Refuse(Incomplete60)))
  {
    var body := JObj(map["contractor_id" := JStr(contractorId), "duration" := JNum(duration)]);
    assert ParseSessionRequest(body) == Some(SessionRequest(contractorId, duration));
  }

  /** A 30-minute session fails exactly when `config_id` is empty, and a
      60-minute one exactly when `config_id_60` is empty; the other length's
      configuration id has no effect at all on the exchange. */
  lemma DurationChecksAreIndependent(body: Option<Json>, table: map<string, StoredUser>, uid: string, duration: int, other: string, ttl: int, reply: Outcome<Json>)
    requires !Missing(body) && ParseSessionRequest(body.value) == Some(SessionRequest(uid, duration))
    requires duration == 30 || duration == 60
    requires uid in table && table[uid].lookingForWork
    ensures CreateSession(body, table, ttl, reply).request.None?
        <==> (if duration == 30 then table[uid].configId else table[uid].configId60) == ""
    ensures var otherChanged := if duration == 30 then table[uid].(configId60 := other) else table[uid].(configId := other);
            CreateSession(body, table[uid := otherChanged], ttl, reply) == CreateSession(body, table, ttl, reply)
  {
  }

  /** Lengths other than 30 and 60 skip both configuration checks and are
      scoped to `config_id_60`, even when it is empty. */
  lemma OtherLengthsUseConfig60(body: Option<Json>, table: map<string, StoredUser>, uid: string, duration: int, ttl: int, reply: Outcome<Json>)
    requires !Missing(body) && ParseSessionRequest(body.value) == Some(SessionRequest(uid, duration))
    requires duration != 30 && duration != 60
    requires uid in table && table[uid].lookingForWork
    ensures CreateSession(body, table, ttl, reply).request == Some(TokenRequest(table[uid].grantId, ttl, table[uid].configId60))
  {
  }
}
