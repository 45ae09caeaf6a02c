/** The calendars route: lists the caller's own calendars at the provider. */
module CalendarsApi {
  import opened Json
  import opened Users
  import opened Http
  import opened Guards

  /** The grant the provider call is addressed to (if a call is made) and the answer. */
  datatype Exchange = Exchange(grant: Option<string>, response: Response)

  /** `getCalendars`'s answer to the provider's reply: an `error` reply goes back
      whole with 500, a `data` reply as just its `data` member with 200, and
      anything else as 500 "Unknown error". */
  function CalendarsReply(reply: Json): (r: Response)
    ensures Classify(reply).NotAnObject? <==> r.Uncaught?
    ensures Classify(reply).ErrorReply? ==> r == Respond(500, Value(Some(reply)))
    ensures Classify(reply).DataReply? ==> r == Respond(200, Value(Some(reply.fields["data"])))
    ensures Classify(reply).NoKnownKey? ==> r == Respond(500, Text(UnknownError))
    ensures r.Reply? ==> r.status == ReplyStatus(Classify(reply))
  {
    match Classify(reply)
    case NotAnObject => Uncaught
    case ErrorReply => Respond(500, Value(Some(reply)))
    case DataReply(data) => Respond(200, Value(Some(data)))
    case NoKnownKey => Respond(500, Text(UnknownError))
  }

  /** The route: the 403 gate, then GET only (405 otherwise, with an `Allow`
      header naming GET, POST and PUT); the call goes to the caller's own grant. */
  function Handler(token: Option<IdToken>, table: map<string, StoredUser>, m: Method, reply: Json): (r: Exchange)
    ensures Gate(token, table).Refuse? ==> r == Exchange(None, Unauthorized)
    ensures Gate(token, table).Pass? && m != GET ==> r == Exchange(None, NotAllowed(m, ["GET", "POST", "PUT"]))
    ensures r.grant.Some? <==> Gate(token, table).Pass? && m == GET
    ensures r.grant.Some? ==> r.grant.value == table[token.value.uid].grantId && r.grant.value != ""
    ensures r.grant.Some? ==> r.response == CalendarsReply(reply)
  {
    match Gate(token, table)
    case Refuse(response) => Exchange(None, response)
    case Pass(_, user) =>
      if m == GET then Exchange(Some(user.grantId), CalendarsReply(reply))
      else Exchange(None, NotAllowed(m, ["GET", "POST", "PUT"]))
  }
}
