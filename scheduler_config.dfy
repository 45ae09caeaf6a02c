/** Scheduling configuration: the request shape a configuration update must
    have, the enumerations of the full configuration schema, and the shared
    default configuration object every assembled configuration starts from. */
module SchedulerConfig {
  import opened Json
  import opened Text

  datatype OpenHours = OpenHours(days: seq<int>, start: string, end: string, timezone: string)

  /** A validated configuration update (`UpdateConfigData`). */
  datatype UpdateConfigData = UpdateConfigData(
    calendarIds: seq<string>,
    openHours: seq<OpenHours>,
    bookingCalendarId: string,
    eventTitle: Option<string>,
    eventDescription: Option<string>)

  // ---------------------------------------------------------------------------
  // The update validator (`updateConfigSchema.parse`)

  function ParseStrings(items: seq<Json>): (r: Option<seq<string>>)
    ensures r.Some? <==> forall i :: 0 <= i < |items| ==> items[i].JStr?
    ensures r.Some? ==> |r.value| == |items| && forall i :: 0 <= i < |items| ==> items[i] == JStr(r.value[i])
  {
    if items == [] then Some([])
    else match (items[0], ParseStrings(items[1..]))
      case (JStr(s), Some(rest)) => Some([s] + rest)
      case _ => None
  }

  function ParseNumbers(items: seq<Json>): (r: Option<seq<int>>)
    ensures r.Some? <==> forall i :: 0 <= i < |items| ==> items[i].JNum?
    ensures r.Some? ==> |r.value| == |items| && forall i :: 0 <= i < |items| ==> items[i] == JNum(r.value[i])
  {
    if items == [] then Some([])
    else match (items[0], ParseNumbers(items[1..]))
      case (JNum(n), Some(rest)) => Some([n] + rest)
      case _ => None
  }

  /** A required string member. */
  function StringField(fields: map<string, Json>, key: string): Option<string>
  {
    if key in fields && fields[key].JStr? then Some(fields[key].s) else None
  }

  /** A required array member. */
  function ArrayField(fields: map<string, Json>, key: string): Option<seq<Json>>
  {
    if key in fields && fields[key].JArr? then Some(fields[key].items) else None
  }

  /** An optional string member: absent is accepted, `null` or a non-string is not. */
  function OptionalStringField(fields: map<string, Json>, key: string): Option<Option<string>>
  {
    if key !in fields then Some(None)
    else if fields[key].JStr? then Some(Some(fields[key].s))
    else None
  }

  /** One `availability_open_hours` entry: an object with a numeric `days`
      array and string `start`, `end` and `timezone` members. */
  function ParseOpenHours(j: Json): (r: Option<OpenHours>)
    ensures r.Some? <==> && j.JObj?
                         && ArrayField(j.fields, "days").Some?
                         && (forall i :: 0 <= i < |j.fields["days"].items| ==> j.fields["days"].items[i].JNum?)
                         && StringField(j.fields, "start").Some?
                         && StringField(j.fields, "end").Some?
                         && StringField(j.fields, "timezone").Some?
    ensures r.Some? ==> && j.fields["days"] == JArr(NumbersJson(r.value.days))
                        && j.fields["start"] == JStr(r.value.start)
                        && j.fields["end"] == JStr(r.value.end)
                        && j.fields["timezone"] == JStr(r.value.timezone)
  {
    if !j.JObj? then None
    else
      var days := ArrayField(j.fields, "days");
      var start := StringField(j.fields, "start");
      var end := StringField(j.fields, "end");
      var tz := StringField(j.fields, "timezone");
      if days.None? || start.None? || end.None? || tz.None? then None
      else
        var ds := ParseNumbers(days.value);
        if ds.None? then None else Some(OpenHours(ds.value, start.value, end.value, tz.value))
  }

  function ParseOpenHoursList(items: seq<Json>): (r: Option<seq<OpenHours>>)
    ensures r.Some? <==> forall i :: 0 <= i < |items| ==> ParseOpenHours(items[i]).Some?
    ensures r.Some? ==> |r.value| == |items|
    ensures r.Some? ==> forall i :: 0 <= i < |items| ==> ParseOpenHours(items[i]) == Some(r.value[i])
  {
    if items == [] then Some([])
    else match (ParseOpenHours(items[0]), ParseOpenHoursList(items[1..]))
      case (Some(h), Some(rest)) => Some([h] + rest)
      case _ => None
  }

  /** `updateConfigSchema.parse(body)`: `None` where zod throws. Unknown keys are dropped. */
  function ParseUpdateConfig(j: Json): (r: Option<UpdateConfigData>)
    ensures r.Some? <==> && j.JObj?
                         && ArrayField(j.fields, "availability_calendar_ids").Some?
                         && (forall i :: 0 <= i < |j.fields["availability_calendar_ids"].items| ==>
                               j.fields["availability_calendar_ids"].items[i].JStr?)
                         && ArrayField(j.fields, "availability_open_hours").Some?
                         && (forall i :: 0 <= i < |j.fields["availability_open_hours"].items| ==>
                               ParseOpenHours(j.fields["availability_open_hours"].items[i]).Some?)
                         && StringField(j.fields, "booking_calendar_id").Some?
                         && OptionalStringField(j.fields, "event_title").Some?
                         && OptionalStringField(j.fields, "event_description").Some?
    ensures r.Some? ==> j.fields["availability_calendar_ids"] == JArr(StringsJson(r.value.calendarIds))
    ensures r.Some? ==> |r.value.openHours| == |j.fields["availability_open_hours"].items|
    ensures r.Some? ==> forall i :: 0 <= i < |r.value.openHours| ==>
                          ParseOpenHours(j.fields["availability_open_hours"].items[i]) == Some(r.value.openHours[i])
    ensures r.Some? ==> StringField(j.fields, "booking_calendar_id") == Some(r.value.bookingCalendarId)
    ensures r.Some? ==> OptionalStringField(j.fields, "event_title") == Some(r.value.eventTitle)
    ensures r.Some? ==> OptionalStringField(j.fields, "event_description") == Some(r.value.eventDescription)
    ensures j.JObj? && StringField(j.fields, "booking_calendar_id").None? ==> r.None?
  {
    if !j.JObj? then None
    else
      var ids := ArrayField(j.fields, "availability_calendar_ids");
      var hours := ArrayField(j.fields, "availability_open_hours");
      var booking := StringField(j.fields, "booking_calendar_id");
      var title := OptionalStringField(j.fields, "event_title");
      var description := OptionalStringField(j.fields, "event_description");
      if ids.None? || hours.None? || booking.None? || title.None? || description.None? then None
      else
        var calendarIds := ParseStrings(ids.value);
        var openHours := ParseOpenHoursList(hours.value);
        if calendarIds.None? || openHours.None? then None
        else Some(UpdateConfigData(calendarIds.value, openHours.value, booking.value, title.value, description.value))
  }

  // The JSON form of a valid update, used to state what the validator accepts.

  function StringsJson(xs: seq<string>): seq<Json>
  {
    seq(|xs|, i requires 0 <= i < |xs| => JStr(xs[i]))
  }

  function NumbersJson(xs: seq<int>): seq<Json>
  {
    seq(|xs|, i requires 0 <= i < |xs| => JNum(xs[i]))
  }

  function OpenHoursListJson(hs: seq<OpenHours>): seq<Json>
  {
    seq(|hs|, i requires 0 <= i < |hs| => OpenHoursJson(hs[i]))
  }

  function OpenHoursJson(h: OpenHours): Json
  {
    JObj(map["days" := JArr(NumbersJson(h.days)),
             "start" := JStr(h.start), "end" := JStr(h.end), "timezone" := JStr(h.timezone)])
  }

  function UpdateConfigJson(d: UpdateConfigData): Json
  {
    var required := map[
      "availability_calendar_ids" := JArr(StringsJson(d.calendarIds)),
      "availability_open_hours" := JArr(OpenHoursListJson(d.openHours)),
      "booking_calendar_id" := JStr(d.bookingCalendarId)];
    var withTitle := if d.eventTitle.Some? then required["event_title" := JStr(d.eventTitle.value)] else required;
    JObj(if d.eventDescription.Some? then withTitle["event_description" := JStr(d.eventDescription.value)] else withTitle)
  }

  lemma ParseStringsOf(xs: seq<string>)
    ensures ParseStrings(StringsJson(xs)) == Some(xs)
  {
    var r := ParseStrings(StringsJson(xs));
    assert r.Some?;
    assert r.value == xs;
  }

  lemma ParseNumbersOf(xs: seq<int>)
    ensures ParseNumbers(NumbersJson(xs)) == Some(xs)
  {
    var r := ParseNumbers(NumbersJson(xs));
    assert r.Some?;
    assert r.value == xs;
  }

  lemma ParseOpenHoursOf(h: OpenHours)
    ensures ParseOpenHours(OpenHoursJson(h)) == Some(h)
  {
    var f := OpenHoursJson(h).fields;
    ParseNumbersOf(h.days);
    assert ArrayField(f, "days") == Some(NumbersJson(h.days));
    assert StringField(f, "start") == Some(h.start);
    assert StringField(f, "end") == Some(h.end);
    assert StringField(f, "timezone") == Some(h.timezone);
  }

  lemma ParseOpenHoursListOf(hs: seq<OpenHours>)
    ensures ParseOpenHoursList(OpenHoursListJson(hs)) == Some(hs)
  {
    var js := OpenHoursListJson(hs);
    forall i | 0 <= i < |hs| ensures ParseOpenHours(js[i]) == Some(hs[i]) {
      ParseOpenHoursOf(hs[i]);
    }
    var r := ParseOpenHoursList(js);
    assert r.Some?;
    assert r.value == hs;
  }

  /** The five members of an update's JSON form, read as the validator reads them. */
  lemma UpdateConfigJsonFields(d: UpdateConfigData)
    ensures var f := UpdateConfigJson(d).fields;
            && ArrayField(f, "availability_calendar_ids") == Some(StringsJson(d.calendarIds))
            && ArrayField(f, "availability_open_hours") == Some(OpenHoursListJson(d.openHours))
            && StringField(f, "booking_calendar_id") == Some(d.bookingCalendarId)
            && OptionalStringField(f, "event_title") == Some(d.eventTitle)
            && OptionalStringField(f, "event_description") == Some(d.eventDescription)
  {
    var f := UpdateConfigJson(d).fields;
    if d.eventTitle.Some? {
      assert f["event_title"] == JStr(d.eventTitle.value);
    } else {
      assert "event_title" !in f;
    }
    if d.eventDescription.Some? {
      assert f["event_description"] == JStr(d.eventDescription.value);
    } else {
      assert "event_description" !in f;
    }
  }

  /** Every well-formed update is accepted, and read back exactly. */
  lemma ParseUpdateConfigJson(d: UpdateConfigData)
    ensures ParseUpdateConfig(UpdateConfigJson(d)) == Some(d)
  {
    UpdateConfigJsonFields(d);
    ParseStringsOf(d.calendarIds);
    ParseOpenHoursListOf(d.openHours);
  }

  /** An update whose calendar list holds a non-string is refused. */
  lemma RejectsNonStringCalendar(d: UpdateConfigData, bad: Json)
    requires !bad.JStr?
    ensures var j := UpdateConfigJson(d);
            ParseUpdateConfig(JObj(j.fields["availability_calendar_ids" := JArr([bad])])).None?
  {
  }

  /** A title or description given as `null` is refused: optional means absent, not null. */
  lemma RejectsNullTitle(d: UpdateConfigData)
    ensures var j := UpdateConfigJson(d);
            ParseUpdateConfig(JObj(j.fields["event_title" := JNull])).None?
  {
  }

  // ---------------------------------------------------------------------------
  // Enumerations of the full configuration schema

  datatype BookingType = BookingZero | BookingOne
  datatype ValidationType = V0 | V1 | V2 | V3 | V4

  function BookingTypeText(t: BookingType): string
  {
    match t
    case BookingZero => "0"
    case BookingOne => "1"
  }

  /** `z.enum(['0', '1'])`. */
  function ParseBookingType(s: string): (r: Option<BookingType>)
    ensures r.Some? <==> s == "0" || s == "1"
    ensures r.Some? ==> BookingTypeText(r.value) == s
  {
    if s == "0" then Some(BookingZero) else if s == "1" then Some(BookingOne) else None
  }

  function ValidationTypeText(t: ValidationType): string
  {
    match t
    case V0 => "0"
    case V1 => "1"
    case V2 => "2"
    case V3 => "3"
    case V4 => "4"
  }

  /** `z.enum(['0', '1', '2', '3', '4'])`. */
  function ParseValidationType(s: string): (r: Option<ValidationType>)
    ensures r.Some? <==> s in ["0", "1", "2", "3", "4"]
    ensures r.Some? ==> ValidationTypeText(r.value) == s
  {
    if s == "0" then Some(V0) else if s == "1" then Some(V1) else if s == "2" then Some(V2)
    else if s == "3" then Some(V3) else if s == "4" then Some(V4) else None
  }

  lemma EnumRoundTrips(b: BookingType, v: ValidationType)
    ensures ParseBookingType(BookingTypeText(b)) == Some(b)
    ensures ParseValidationType(ValidationTypeText(v)) == Some(v)
  {
  }

  datatype AdditionalField = AdditionalField(
    key: string, validationType: ValidationType, validationMessage: string,
    required: bool, validationRegex: Option<string>)

  /** `additionalFieldSchema.parse`: `validation_regex` is the one optional member. */
  function ParseAdditionalField(j: Json): (r: Option<AdditionalField>)
    ensures r.Some? <==> && j.JObj?
                         && StringField(j.fields, "key").Some?
                         && StringField(j.fields, "validation_type").Some?
                         && ParseValidationType(j.fields["validation_type"].s).Some?
                         && StringField(j.fields, "validation_message").Some?
                         && OptionalStringField(j.fields, "validation_regex").Some?
                         && "required" in j.fields && j.fields["required"].JBool?
    ensures r.Some? ==> && j.fields["key"] == JStr(r.value.key)
                        && j.fields["validation_type"] == JStr(ValidationTypeText(r.value.validationType))
                        && j.fields["validation_message"] == JStr(r.value.validationMessage)
                        && j.fields["required"] == JBool(r.value.required)
                        && OptionalStringField(j.fields, "validation_regex") == Some(r.value.validationRegex)
  {
    if !j.JObj? then None
    else
      var f := j.fields;
      match (StringField(f, "key"), StringField(f, "validation_type"), StringField(f, "validation_message"),
             OptionalStringField(f, "validation_regex"))
      case (Some(key), Some(vt), Some(message), Some(regex)) =>
        if "required" in f && f["required"].JBool? then
          (match ParseValidationType(vt)
           case Some(v) => Some(AdditionalField(key, v, message, f["required"].b, regex))
           case None => None)
        else None
      case _ => None
  }

  function AdditionalFieldJson(a: AdditionalField): Json
  {
    var required := map[
      "key" := JStr(a.key),
      "validation_type" := JStr(ValidationTypeText(a.validationType)),
      "validation_message" := JStr(a.validationMessage),
      "required" := JBool(a.required)];
    JObj(if a.validationRegex.Some? then required["validation_regex" := JStr(a.validationRegex.value)] else required)
  }

  /** Every field the schema describes is accepted, and read back exactly. */
  lemma ParseAdditionalFieldJson(a: AdditionalField)
    ensures ParseAdditionalField(AdditionalFieldJson(a)) == Some(a)
  {
    var f := AdditionalFieldJson(a).fields;
    EnumRoundTrips(BookingZero, a.validationType);
    if a.validationRegex.Some? {
      assert f["validation_regex"] == JStr(a.validationRegex.value);
    } else {
      assert "validation_regex" !in f;
    }
  }

  // ---------------------------------------------------------------------------
  // The shared defaults (`schedulingConfig`)

  const DefaultVersion := "1.0.0"
  const DefaultDurationMinutes := 30
  const DefaultIntervalMinutes := 15
  const DefaultRoundTo30Minutes := true
  const DurationPlaceholder := ":duration"
  const NamesPlaceholder := ":participant_names"
  const DefaultTitle := DurationPlaceholder + " minute consultation with " + NamesPlaceholder
  const DefaultDescription := "A " + DurationPlaceholder + " minute initial consultation meeting with " + NamesPlaceholder

  /** The event type code: 0 books outright, 1 only pre-books. */
  datatype EventType = Booking | PreBooking

  function EventTypeCode(t: EventType): int
  {
    match t
    case Booking => 0
    case PreBooking => 1
  }

  const DefaultEventType := PreBooking

  /** The default title and description are templates over the meeting
      length and the participants' names, and the default event type is the
      pre-booking code 1. */
  lemma DefaultTemplates()
    ensures Contains(DefaultTitle, DurationPlaceholder) && Contains(DefaultTitle, NamesPlaceholder)
    ensures Contains(DefaultDescription, DurationPlaceholder) && Contains(DefaultDescription, NamesPlaceholder)
    ensures EventTypeCode(DefaultEventType) == 1
  {
    assert OccursAt(DefaultTitle, DurationPlaceholder, 0);
    assert OccursAt(DefaultTitle, NamesPlaceholder, |DefaultTitle| - |NamesPlaceholder|);
    assert OccursAt(DefaultDescription, DurationPlaceholder, 2);
    assert OccursAt(DefaultDescription, NamesPlaceholder, |DefaultDescription| - |NamesPlaceholder|);
  }

  datatype Participant = Participant(name: string, email: string, calendarIds: seq<string>, openHours: seq<OpenHours>)
  datatype Organizer = Organizer(email: string, calendarId: string)
  datatype EventBooking = EventBooking(title: string, description: string, eventType: EventType, organizer: Option<Organizer>)

  /** The `availability` object of a configuration; requests stamp its duration in place. */
  class Availability {
    var durationMinutes: int
    var intervalMinutes: int
    var roundTo30Minutes: bool
    var participants: seq<Participant>

    constructor (duration: int, interval: int, roundTo30: bool, participants: seq<Participant>)
      ensures durationMinutes == duration && intervalMinutes == interval
      ensures roundTo30Minutes == roundTo30 && this.participants == participants
    {
      durationMinutes := duration;
      intervalMinutes := interval;
      roundTo30Minutes := roundTo30;
      this.participants := participants;
    }
  }

  /** The snapshot of a configuration that `JSON.stringify` sends. */
  datatype ConfigPayload = ConfigPayload(
    version: string, durationMinutes: int, intervalMinutes: int, roundTo30Minutes: bool,
    participants: seq<Participant>, eventBooking: EventBooking)

  class SchedulingConfig {
    var version: string
    var availability: Availability
    var eventBooking: EventBooking

    /** The shared defaults object. */
    constructor Defaults()
      ensures fresh(availability)
      ensures IsDefault()
    {
      version := DefaultVersion;
      availability := new Availability(DefaultDurationMinutes, DefaultIntervalMinutes, DefaultRoundTo30Minutes, []);
      eventBooking := EventBooking(DefaultTitle, DefaultDescription, DefaultEventType, None);
    }

    /** An object assembled from `base`'s top-level values around fresh parts. */
    constructor Assembled(version: string, availability: Availability, eventBooking: EventBooking)
      ensures this.version == version && this.availability == availability && this.eventBooking == eventBooking
    {
      this.version := version;
      this.availability := availability;
      this.eventBooking := eventBooking;
    }

    ghost predicate IsDefault()
      reads this, availability
    {
      version == DefaultVersion &&
      availability.durationMinutes == DefaultDurationMinutes &&
      availability.intervalMinutes == DefaultIntervalMinutes &&
      availability.roundTo30Minutes == DefaultRoundTo30Minutes &&
      availability.participants == [] &&
      eventBooking == EventBooking(DefaultTitle, DefaultDescription, DefaultEventType, None)
    }

    function Payload(): ConfigPayload
      reads this, availability
    {
      ConfigPayload(version, availability.durationMinutes, availability.intervalMinutes,
                    availability.roundTo30Minutes, availability.participants, eventBooking)
    }
  }
}
