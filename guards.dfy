/** Pieces shared by the authenticated API routes: the 403 gate in front of
    the configuration and calendar routes, and the classification of a
    scheduling-provider reply by its `error` and `data` keys. */
module Guards {
  import opened Json
  import opened Users
  import opened Http

  datatype Gated = Pass(token: IdToken, user: UserRecord) | Refuse(response: Response)

  /** `validateRequest` (its verified token, `None` for `false`), then the
      caller's record, then a non-empty `grant_id`; any failure answers 403. */
  function Gate(token: Option<IdToken>, table: map<string, StoredUser>): (r: Gated)
    ensures r.Refuse? ==> r.response == Unauthorized
    ensures r.Pass? <==> token.Some? && token.value.uid in table && table[token.value.uid].grantId != ""
    ensures r.Pass? ==> r.token == token.value && Some(r.user) == GetUserData(table, token.value)
  {
    if token.None? then Refuse(Unauthorized)
    else match GetUserData(table, token.value)
      case None => Refuse(Unauthorized)
      case Some(user) =>
        if user.grantId == "" then Refuse(Unauthorized) else Pass(token.value, user)
  }

  datatype ReplyShape = NotAnObject | ErrorReply | DataReply(data: Json) | NoKnownKey

  /** `"error" in reply`, then `"data" in reply`; `in` on a primitive throws. */
  function Classify(reply: Json): (r: ReplyShape)
    ensures r.NotAnObject? <==> HasKey(reply, "error").Threw?
    ensures r.ErrorReply? <==> HasKey(reply, "error") == Done(true)
    ensures r.DataReply? <==> HasKey(reply, "error") == Done(false) && HasKey(reply, "data") == Done(true)
    ensures r.DataReply? ==> reply.JObj? && r.data == reply.fields["data"]
  {
    match HasKey(reply, "error")
    case Threw => NotAnObject
    case Done(hasError) =>
      if hasError then ErrorReply
      else if reply.JObj? && "data" in reply.fields then DataReply(reply.fields["data"])
      else NoKnownKey
  }

  /** The status every route gives a classified reply: 500 for an error,
      200 for data, 500 ("Unknown error") for neither. */
  function ReplyStatus(shape: ReplyShape): int
    requires !shape.NotAnObject?
  {
    if shape.DataReply? then 200 else 500
  }

  const UnknownError := "Unknown error"
}
