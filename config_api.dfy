/** The configuration route: a contractor reads or saves their scheduling
    configuration. Saving assembles one configuration from the shared
    defaults and the request, then creates or updates it at the provider
    once for 30-minute and once for 60-minute meetings, and records both
    configuration ids on the contractor's user record. */
module ConfigApi {
  import opened Json
  import opened Users
  import opened Http
  import opened Guards
  import opened SchedulerConfig
  import CalendarsApi

  datatype ProviderCall =
    | FetchConfig(grantId: string, configId: string)
    | CreateConfig(grantId: string, payload: ConfigPayload)
    | UpdateConfig(grantId: string, configId: string, payload: ConfigPayload)

  const InvalidRequest := "Invalid request"
  const NotCreated := "Configuration not created"
  const Incomplete := "Configuration incomplete"

  // ---------------------------------------------------------------------------
  // Reading (`getConfig`)

  /** `getConfig`'s answer to the provider's reply: an `error` reply goes back
      whole with 500, a `data` reply as its `data.data` with 200, anything
      else as 500 "Unknown error". */
  function GetConfigReply(reply: Json): (r: Response)
    ensures r.Uncaught? <==> Classify(reply).NotAnObject? || Classify(reply) == DataReply(JNull)
    ensures r.Reply? ==> r.status == ReplyStatus(Classify(reply))
    ensures Classify(reply).ErrorReply? ==> r == Respond(500, Value(Some(reply)))
    ensures Classify(reply).DataReply? && r.Reply? ==> r.body == Value(Member(Classify(reply).data, "data").value)
  {
    match Classify(reply)
    case NotAnObject => Uncaught
    case ErrorReply => Respond(500, Value(Some(reply)))
    case DataReply(data) =>
      (match Member(data, "data")
       case Threw => Uncaught
       case Done(inner) => Respond(200, Value(inner)))
    case NoKnownKey => Respond(500, Text(UnknownError))
  }

  /** `getConfig`: refuses with 403 without a configuration id (or grant);
      otherwise fetches that configuration from the caller's grant. */
  function GetConfig(user: UserRecord, reply: Json): (r: (seq<ProviderCall>, Response))
    ensures user.configId == "" ==> r == ([], Respond(403, Message(NotCreated)))
    ensures user.configId != "" && user.grantId == "" ==> r == ([], Respond(403, Message(Incomplete)))
    ensures r.0 != [] <==> user.configId != "" && user.grantId != ""
    ensures r.0 != [] ==> r.0 == [FetchConfig(user.grantId, user.configId)] && r.1 == GetConfigReply(reply)
  {
    if user.configId == "" then ([], Respond(403, Message(NotCreated)))
    else if user.grantId == "" then ([], Respond(403, Message(Incomplete)))
    else ([FetchConfig(user.grantId, user.configId)], GetConfigReply(reply))
  }

  // ---------------------------------------------------------------------------
  // Creating or updating at the provider (`createOrUpdateConfig`)

  datatype ConfigResult = ConfigResult(status: int, data: Json)

  /** The `{ status, data }` that `createOrUpdateConfig` makes of a reply. */
  function ConfigReply(reply: Json): (r: Outcome<ConfigResult>)
    ensures r.Threw? <==> Classify(reply).NotAnObject?
    ensures r.Done? ==> r.value.status == ReplyStatus(Classify(reply))
    ensures Classify(reply).ErrorReply? ==> r == Done(ConfigResult(500, reply))
    ensures Classify(reply).DataReply? ==> r == Done(ConfigResult(200, Classify(reply).data))
    ensures Classify(reply).NoKnownKey? ==> r == Done(ConfigResult(500, JStr(UnknownError)))
  {
    match Classify(reply)
    case NotAnObject => Threw
    case ErrorReply => Done(ConfigResult(500, reply))
    case DataReply(data) => Done(ConfigResult(200, data))
    case NoKnownKey => Done(ConfigResult(500, JStr(UnknownError)))
  }

  /** The three routes that relay a provider reply give it the same status:
      500 for `error`, 200 for `data`, 500 for neither. */
  lemma UniformReplyMapping(reply: Json)
    requires !Classify(reply).NotAnObject?
    ensures ConfigReply(reply).Done? && CalendarsApi.CalendarsReply(reply).Reply?
    ensures ConfigReply(reply).value.status == CalendarsApi.CalendarsReply(reply).status == ReplyStatus(Classify(reply))
    ensures GetConfigReply(reply).Reply? ==> GetConfigReply(reply).status == ReplyStatus(Classify(reply))
    ensures ReplyStatus(Classify(reply)) == 200 <==> reply.JObj? && "data" in reply.fields && "error" !in reply.fields
  {
  }

  /** A create when there is no configuration id yet, an update of that id otherwise. */
  function ConfigCall(grantId: string, configId: string, payload: ConfigPayload): (c: ProviderCall)
    ensures c.CreateConfig? <==> configId == ""
    ensures c.grantId == grantId && !c.FetchConfig? && c.payload == payload
    ensures c.UpdateConfig? ==> c.configId == configId
  {
    if configId == "" then CreateConfig(grantId, payload) else UpdateConfig(grantId, configId, payload)
  }

  /** `createOrUpdateConfig`: stamps the requested length on the configuration
      in place, then creates or updates it at the provider. */
  method CreateOrUpdateConfig(config: SchedulingConfig, duration: int, grantId: string, configId: string, reply: Json)
    returns (call: ProviderCall, result: Outcome<ConfigResult>)
    modifies config.availability
    ensures config.availability.durationMinutes == duration
    ensures config.availability.intervalMinutes == old(config.availability.intervalMinutes)
    ensures config.availability.roundTo30Minutes == old(config.availability.roundTo30Minutes)
    ensures config.availability.participants == old(config.availability.participants)
    ensures call == ConfigCall(grantId, configId, config.Payload())
    ensures result == ConfigReply(reply)
  {
    config.availability.durationMinutes := duration;
    call := ConfigCall(grantId, configId, config.Payload());
    result := ConfigReply(reply);
  }

  // ---------------------------------------------------------------------------
  // Assembling the configuration (`setConfig`, before the provider calls)

  /** A requested title or description replaces the default only when it is non-empty. */
  function Override(default: string, requested: Option<string>): (r: string)
    ensures requested.Some? && requested.value != "" ==> r == requested.value
    ensures requested.None? || requested.value == "" ==> r == default
  {
    if requested.Some? && requested.value != "" then requested.value else default
  }

  /** What is sent for one meeting length: the defaults, one participant (the
      user with the requested calendars and open hours), the user's email as
      organizer on the requested booking calendar, and the overridden texts. */
  function AssembledPayload(defaults: ConfigPayload, user: UserRecord, req: UpdateConfigData, duration: int): (p: ConfigPayload)
    ensures p.version == defaults.version && p.durationMinutes == duration
    ensures p.intervalMinutes == defaults.intervalMinutes && p.roundTo30Minutes == defaults.roundTo30Minutes
    ensures |p.participants| == 1
    ensures p.participants[0] == Participant(user.name, user.email, req.calendarIds, req.openHours)
    ensures p.eventBooking.organizer == Some(Organizer(user.email, req.bookingCalendarId))
    ensures p.eventBooking.eventType == defaults.eventBooking.eventType
    ensures p.eventBooking.title == Override(defaults.eventBooking.title, req.eventTitle)
    ensures p.eventBooking.description == Override(defaults.eventBooking.description, req.eventDescription)
  {
    ConfigPayload(
      defaults.version, duration, defaults.intervalMinutes, defaults.roundTo30Minutes,
      [Participant(user.name, user.email, req.calendarIds, req.openHours)],
      EventBooking(Override(defaults.eventBooking.title, req.eventTitle),
                   Override(defaults.eventBooking.description, req.eventDescription),
                   defaults.eventBooking.eventType,
                   Some(Organizer(user.email, req.bookingCalendarId))))
  }

  /** The configuration object `setConfig` builds: fresh top-level,
      `availability` and `event_booking` objects over the defaults' values. */
  method Assemble(defaults: SchedulingConfig, user: UserRecord, req: UpdateConfigData) returns (config: SchedulingConfig)
    ensures fresh(config) && fresh(config.availability)
    ensures config.Payload() == AssembledPayload(defaults.Payload(), user, req, defaults.availability.durationMinutes)
  {
    var availability := new Availability(
      defaults.availability.durationMinutes, defaults.availability.intervalMinutes,
      defaults.availability.roundTo30Minutes,
      [Participant(user.name, user.email, req.calendarIds, req.openHours)]);
    var booking := EventBooking(
      Override(defaults.eventBooking.title, req.eventTitle),
      Override(defaults.eventBooking.description, req.eventDescription),
      defaults.eventBooking.eventType,
      Some(Organizer(user.email, req.bookingCalendarId)));
    config := new SchedulingConfig.Assembled(defaults.version, availability, booking);
  }

  // ---------------------------------------------------------------------------
  // Saving (`setConfig`)

  /** `data.id` as it reaches the store. Reading a member of `null` throws,
      and so does writing the record when the member is absent: the store
      refuses a property whose value is `undefined`. A present id that is not
      a string is recorded as the empty string, which every reader of the
      record treats as "no configuration". */
  function IdOf(data: Json): (r: Outcome<string>)
    ensures r.Threw? <==> !(data.JObj? && "id" in data.fields)
    ensures r.Done? && data.fields["id"].JStr? ==> r.value == data.fields["id"].s
    ensures r.Done? && r.value != "" ==> data.fields["id"] == JStr(r.value)
  {
    match Member(data, "id")
    case Threw => Threw
    case Done(id) =>
      if id.None? then Threw else Done(if id.value.JStr? then id.value.s else "")
  }

  /** The answer once both ids are recorded: the 30-minute failure if there
      is one, else the 60-minute failure, else 200 with the 30-minute data. */
  function SaveResponse(result30: ConfigResult, result60: ConfigResult): (r: Response)
    ensures r.Reply? && r.allow == []
    ensures result30.status != 200 ==> r == Respond(result30.status, Value(Some(result30.data)))
    ensures result30.status == 200 && result60.status != 200 ==> r == Respond(result60.status, Value(Some(result60.data)))
    ensures r.status == 200 <==> result30.status == 200 && result60.status == 200
    ensures r.status == 200 ==> r.body == Value(Some(result30.data))
  {
    if result30.status != 200 then Respond(result30.status, Value(Some(result30.data)))
    else if result60.status != 200 then Respond(result60.status, Value(Some(result60.data)))
    else Respond(200, Value(Some(result30.data)))
  }

  datatype SetConfigOutcome = SetConfigOutcome(response: Response, calls: seq<ProviderCall>, table: map<string, StoredUser>)

  /** What `setConfig` does, as a function of the store, the defaults and the
      two provider replies (`reply30` answers the first call, `reply60` the second). */
  function SetConfigSpec(table: map<string, StoredUser>, defaults: ConfigPayload, token: IdToken, user: UserRecord,
                         body: Option<Json>, reply30: Json, reply60: Json): (r: SetConfigOutcome)
    // A missing body or a body the schema refuses: 400, no call, nothing written.
    ensures Missing(body) || ParseUpdateConfig(body.value).None? ==>
              r == SetConfigOutcome(Respond(400, Message(InvalidRequest)), [], table)
    // Anything else goes on to call the provider for 30 minutes first.
    ensures !Missing(body) && ParseUpdateConfig(body.value).Some? ==>
              1 <= |r.calls| <= 2 &&
              r.calls[0] == ConfigCall(user.grantId, user.configId, AssembledPayload(defaults, user, ParseUpdateConfig(body.value).value, 30))
    ensures |r.calls| == 2 ==>
              r.calls[1] == ConfigCall(user.grantId, user.configId60, AssembledPayload(defaults, user, ParseUpdateConfig(body.value).value, 60))
    // A reply whose data has no `id` makes the write throw: 400, nothing written.
    ensures && !Missing(body) && ParseUpdateConfig(body.value).Some?
            && ConfigReply(reply30).Done? && ConfigReply(reply60).Done?
            && (IdOf(ConfigReply(reply30).value.data).Threw? || IdOf(ConfigReply(reply60).value.data).Threw?) ==>
              r.response == Respond(400, Message(InvalidRequest)) && r.table == table
    // The store changes at most in the caller's entry.
    ensures r.table == table || (r.table.Keys == table.Keys + {token.uid} &&
              forall k :: k in table && k != token.uid ==> r.table[k] == table[k])
  {
    var refused := SetConfigOutcome(Respond(400, Message(InvalidRequest)), [], table);
    if Missing(body) then refused
    else match ParseUpdateConfig(body.value)
      case None => refused
      case Some(req) =>
        var call30 := ConfigCall(user.grantId, user.configId, AssembledPayload(defaults, user, req, 30));
        match ConfigReply(reply30)
        case Threw => refused.(calls := [call30])
        case Done(result30) =>
          var call60 := ConfigCall(user.grantId, user.configId60, AssembledPayload(defaults, user, req, 60));
          match ConfigReply(reply60)
          case Threw => refused.(calls := [call30, call60])
          case Done(result60) =>
            match (IdOf(result30.data), IdOf(result60.data))
            case (Done(id30), Done(id60)) =>
              var written := table[token.uid := Encode(user.(configId := id30, configId60 := id60))];
              SetConfigOutcome(SaveResponse(result30, result60), [call30, call60], written)
            case _ => refused.(calls := [call30, call60])
  }

  /** When both replies carry an id, both ids are written to the user record
      before either status is looked at: a failed provider call whose reply
      has an id still overwrites the stored ids. The 30-minute failure is the
      one reported when both fail. */
  lemma WritesBeforeStatus(table: map<string, StoredUser>, defaults: ConfigPayload, token: IdToken, user: UserRecord,
                           body: Option<Json>, reply30: Json, reply60: Json)
    requires !Missing(body) && ParseUpdateConfig(body.value).Some?
    requires ConfigReply(reply30).Done? && ConfigReply(reply60).Done?
    requires IdOf(ConfigReply(reply30).value.data).Done? && IdOf(ConfigReply(reply60).value.data).Done?
    ensures var r := SetConfigSpec(table, defaults, token, user, body, reply30, reply60);
            var id30 := IdOf(ConfigReply(reply30).value.data).value;
            var id60 := IdOf(ConfigReply(reply60).value.data).value;
            && r.table == table[token.uid := Encode(user.(configId := id30, configId60 := id60))]
            && |r.calls| == 2
            && r.response.Reply?
            && (ConfigReply(reply30).value.status != 200 ==> r.response.status == ConfigReply(reply30).value.status)
            && (ConfigReply(reply30).value.status == 200 ==> r.response.status == ConfigReply(reply60).value.status)
  {
  }

  /** A reply without an id stops the save at the write: the answer is 400
      "Invalid request" and the record is left as it was, whatever the statuses. */
  lemma MissingIdWritesNothing(table: map<string, StoredUser>, defaults: ConfigPayload, token: IdToken, user: UserRecord,
                               body: Option<Json>, reply30: Json, reply60: Json)
    requires !Missing(body) && ParseUpdateConfig(body.value).Some?
    requires ConfigReply(reply30).Done? && ConfigReply(reply60).Done?
    requires IdOf(ConfigReply(reply30).value.data).Threw? || IdOf(ConfigReply(reply60).value.data).Threw?
    ensures var r := SetConfigSpec(table, defaults, token, user, body, reply30, reply60);
            r.response == Respond(400, Message(InvalidRequest)) && r.table == table && |r.calls| == 2
  {
  }

  /** A provider error on the 30-minute call, carrying no id, is answered 400
      and never reaches the store: the 500 branch needs an id to be written first. */
  lemma ProviderErrorAnswers400(table: map<string, StoredUser>, defaults: ConfigPayload, token: IdToken, user: UserRecord,
                                body: Option<Json>, error: Json, reply60: Json)
    requires !Missing(body) && ParseUpdateConfig(body.value).Some?
    ensures var r := SetConfigSpec(table, defaults, token, user, body, JObj(map["error" := error]), reply60);
            r.response == Respond(400, Message(InvalidRequest)) && r.table == table
  {
    var reply30 := JObj(map["error" := error]);
    assert Classify(reply30).ErrorReply?;
    assert ConfigReply(reply30) == Done(ConfigResult(500, reply30));
    assert IdOf(reply30).Threw?;
    if ConfigReply(reply60).Done? {
      MissingIdWritesNothing(table, defaults, token, user, body, reply30, reply60);
    }
  }

  /** After a save in which both calls return data with string ids, reading
      the record back shows those ids; the other stored fields are kept. */
  lemma SavedIdsReadBack(table: map<string, StoredUser>, defaults: ConfigPayload, token: IdToken, user: UserRecord,
                         body: Option<Json>, id30: string, id60: string)
    requires !Missing(body) && ParseUpdateConfig(body.value).Some?
    requires NoComma(user.skills) && user.skills != [""]
    ensures var reply30 := JObj(map["data" := JObj(map["id" := JStr(id30)])]);
            var reply60 := JObj(map["data" := JObj(map["id" := JStr(id60)])]);
            var r := SetConfigSpec(table, defaults, token, user, body, reply30, reply60);
            && r.response.Reply? && r.response.status == 200
            && GetUserData(r.table, token) == Some(user.(configId := id30, configId60 := id60))
  {
    var reply30 := JObj(map["data" := JObj(map["id" := JStr(id30)])]);
    var reply60 := JObj(map["data" := JObj(map["id" := JStr(id60)])]);
    assert Classify(reply30) == DataReply(JObj(map["id" := JStr(id30)]));
    assert Classify(reply60) == DataReply(JObj(map["id" := JStr(id60)]));
    assert IdOf(ConfigReply(reply30).value.data) == Done(id30);
    assert IdOf(ConfigReply(reply60).value.data) == Done(id60);
    WritesBeforeStatus(table, defaults, token, user, body, reply30, reply60);
    ReadAfterUpdate(table, token, user.(configId := id30, configId60 := id60));
  }

  /** The two provider calls of `setConfig`: the configuration is assembled
      once, stamped with 30 and sent, then stamped with 60 and sent again; the
      second call is made only when the first one's reply did not throw. */
  method SendConfigs(defaults: SchedulingConfig, user: UserRecord, req: UpdateConfigData, reply30: Json, reply60: Json)
    returns (calls: seq<ProviderCall>, result30: Outcome<ConfigResult>, result60: Outcome<ConfigResult>)
    ensures result30 == ConfigReply(reply30)
    ensures result30.Threw? ==> calls == [ConfigCall(user.grantId, user.configId, AssembledPayload(defaults.Payload(), user, req, 30))]
    ensures result30.Done? ==>
              calls == [ConfigCall(user.grantId, user.configId, AssembledPayload(defaults.Payload(), user, req, 30)),
                        ConfigCall(user.grantId, user.configId60, AssembledPayload(defaults.Payload(), user, req, 60))] &&
              result60 == ConfigReply(reply60)
  {
    var config := Assemble(defaults, user, req);
    var call30;
    call30, result30 := CreateOrUpdateConfig(config, 30, user.grantId, user.configId, reply30);
    assert config.Payload() == AssembledPayload(defaults.Payload(), user, req, 30);
    if result30.Threw? {
      return [call30], result30, Threw;
    }
    var call60;
    call60, result60 := CreateOrUpdateConfig(config, 60, user.grantId, user.configId60, reply60);
    assert config.Payload() == AssembledPayload(defaults.Payload(), user, req, 60);
    calls := [call30, call60];
  }

  /** `setConfig`, on the store: the shared defaults object is never written. */
  method SetConfig(store: UserStore, defaults: SchedulingConfig, token: IdToken, user: UserRecord,
                   body: Option<Json>, reply30: Json, reply60: Json)
    returns (response: Response, calls: seq<ProviderCall>)
    modifies store
    ensures unchanged(defaults) && unchanged(defaults.availability)
    ensures SetConfigOutcome(response, calls, store.table)
         == SetConfigSpec(old(store.table), defaults.Payload(), token, user, body, reply30, reply60)
  {
    if Missing(body) || ParseUpdateConfig(body.value).None? {
      return Respond(400, Message(InvalidRequest)), [];
    }
    var req := ParseUpdateConfig(body.value).value;
    var result30, result60;
    calls, result30, result60 := SendConfigs(defaults, user, req, reply30, reply60);
    if result30.Threw? || result60.Threw? {
      return Respond(400, Message(InvalidRequest)), calls;
    }
    var id30 := IdOf(result30.value.data);
    var id60 := IdOf(result60.value.data);
    if id30.Threw? || id60.Threw? {
      return Respond(400, Message(InvalidRequest)), calls;
    }
    var _ := store.UpdateUser(token, user.(configId := id30.value, configId60 := id60.value));
    response := SaveResponse(result30.value, result60.value);
  }

  /** The route: the 403 gate before any dispatch; GET reads, PUT and POST
      save, any other method is refused with 405. */
  method Handler(store: UserStore, defaults: SchedulingConfig, token: Option<IdToken>, m: Method,
                 body: Option<Json>, getReply: Json, reply30: Json, reply60: Json)
    returns (response: Response, calls: seq<ProviderCall>)
    modifies store
    ensures unchanged(defaults) && unchanged(defaults.availability)
    ensures Gate(token, old(store.table)).Refuse? ==>
              response == Unauthorized && calls == [] && store.table == old(store.table)
    ensures Gate(token, old(store.table)).Pass? && m == GET ==>
              (calls, response) == GetConfig(Gate(token, old(store.table)).user, getReply) &&
              store.table == old(store.table)
    ensures Gate(token, old(store.table)).Pass? && (m == PUT || m == POST) ==>
              SetConfigOutcome(response, calls, store.table)
              == SetConfigSpec(old(store.table), defaults.Payload(), token.value, Gate(token, old(store.table)).user,
                               body, reply30, reply60)
    ensures Gate(token, old(store.table)).Pass? && m !in {GET, PUT, POST} ==>
              response == NotAllowed(m, ["GET", "POST", "PUT"]) && calls == [] && store.table == old(store.table)
  {
    var gate := Gate(token, store.table);
    if gate.Refuse? {
      return gate.response, [];
    }
    if m == GET {
      var got := GetConfig(gate.user, getReply);
      return got.1, got.0;
    } else if m == PUT || m == POST {
      response, calls := SetConfig(store, defaults, gate.token, gate.user, body, reply30, reply60);
    } else {
      return NotAllowed(m, ["GET", "POST", "PUT"]), [];
    }
  }
}
