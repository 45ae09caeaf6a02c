# UpRocket scheduling demo — a Dafny model

UpRocket is a small marketplace where clients book paid consultations with
contractors. A contractor signs in, connects a calendar through Nylas and
saves a 30-minute and a 60-minute scheduling configuration. A client picks one
of the contractor's first free slots and pre-books it before checkout. This
project models the server-side core of that application and the client
components that drive a booking:

- the user table and its contractor view: a Firebase `users` path holding one
  record per user id. Skills are stored as one comma-joined string and read
  back as a list. A contractor is a user who is looking for work, shown
  without grant or configuration identifiers (modules `Users`, `Contractors`);
- the API routes:
  - `/api/login`: sets the session cookie and creates the default record on
    first login;
  - `/api/me`: reads and writes the signed-in user's profile;
  - `/api/calendars`: lists the user's calendars;
  - `/api/config`: reads, creates or updates the two scheduling
    configurations and records their ids;
  - `/api/session`: opens a scheduler session for a contractor and a meeting
    length;
  
  Each route keeps its order of checks, status codes, `Allow` headers and
  messages (modules `LoginApi`, `MeApi`, `CalendarsApi`, `ConfigApi`,
  `SessionApi`). Shared pieces are in `Guards` (the sign-in and grant gate,
  and the classification of a provider reply), in `Http` and in `Text`
  (substring occurrence);
- the request schema and the shared default configuration object of the
  scheduler (module `SchedulerConfig`);
- the booking card and its three "latest timeslots" buttons, including the
  pre-booking handler (modules `BookingCard`, `LatestTimeslots`);
- the skill tag selector and the toast provider (modules `TagSelector`,
  `Toast`);
- the Tailwind plugin function that turns the colour palette into CSS custom
  properties (module `TailwindColors`).

JavaScript semantics are written out where they decide a branch:
- `Json.Falsy` is JavaScript truthiness.
- An `in` test on a primitive throws, and so does a member read on `null`.
- `Json.Outcome` separates a value from a thrown exception.
- `Http.Response.Uncaught` is an exception that escapes a route handler.

Firebase, Nylas and the session-cookie library are not called. What the
source reads from them is a parameter: the table as a `map`, a provider reply
as a `Json` value, a verified identity as an `Option`. What the source writes
to them is either state (the `UserStore` class) or a recorded call (the
`ProviderCall` and `BookingCall` lists). Objects the source mutates in place
are classes:
- `UserStore`;
- `SchedulingConfig` and its `Availability`. A request assembles a fresh copy
  of the shared defaults and stamps each meeting length on that copy's
  availability, so the defaults are never written;
- the React components' state, with each effect or handler as a method.

## Model

| member | source | states |
|---|---|---|
| Json.HasKey | src/pages/api/config.ts:74-78 | `key in j` throws exactly on a value that is neither an object nor an array, and is true exactly for an object holding the key |
| Json.Member | src/pages/api/config.ts:146-150 | reading a member throws exactly on `null`; a member found is the object's own field |
| Json.OptionalMember | src/components/booking-card.tsx:113 | a member found through `?.` is the field of an object that holds it |
| Http.NotAllowed | src/pages/api/calendars.ts:33-35 | a 405 reply whose `Allow` header is exactly the given methods |
| Users.Split | src/db/users.ts:26-32 | `split(',')` gives at least one piece, and no piece contains a comma |
| Users.SkillsFromText | src/db/users.ts:26-32 | a missing or empty skills string reads as no skills; any other reads as its comma-split pieces, at least one |
| Users.Encode | src/db/users.ts:5-16 | the stored record has the profile's fields and its skills joined into one string |
| Users.Decode | src/db/users.ts:18-35 | the profile read back has the stored fields and the stored skills string split |
| Users.Join | src/db/users.ts:9 | joining nothing gives "", the result starts with the first piece, and for comma-free pieces it holds a comma exactly when there are two or more |
| Users.JoinSplit | src/db/users.ts:26-32 | joining the pieces of any string rebuilds that string |
| Users.SplitNoComma | src/db/users.ts:26-32 | a string without commas splits into itself alone |
| Users.SplitAfterComma | src/db/users.ts:26-32 | splitting `a,b` with a comma-free `a` gives `a` followed by the pieces of `b` |
| Users.SplitJoin | src/db/users.ts:8-12 | splitting a joined non-empty list of comma-free skills gives the list back |
| Users.SkillsRoundTrip | src/db/users.ts:5-35 | comma-free skills written by `updateUser` read back unchanged, except that a lone empty skill reads back as no skills |
| Users.DecodeEncode | src/db/users.ts:5-35 | a profile with comma-free skills written and read back is the same profile, up to that lone-empty-skill case |
| Users.GetUserByUid | src/db/users.ts:37-54 | a record exists exactly when the uid is in the table, and then it has the stored fields with the skills split |
| Users.GetUserData | src/db/users.ts:18-35 | the signed-in user's record exists exactly when the token's uid is in the table, and carries that entry's fields |
| Users.GetUsers | src/db/users.ts:56-77 | one record per key, the decoded entry of that key, at that key's position |
| Users.DistinctCard | src/db/users.ts:56-77 | a list of distinct keys has exactly as many elements as its set of keys |
| Users.GetUsersOnePerKey | src/db/users.ts:56-77 | as many users as table entries, none exactly for an empty table, and every entry's decoded record at its key's position |
| Users.UserStore.constructor | src/db/users.ts:5-16 | the store starts with the given table |
| Users.UserStore.UpdateUser | src/db/users.ts:5-16 | the write succeeds, the entry under the token's uid becomes the encoded profile, and every other uid reads as before |
| Users.ReadAfterUpdate | src/db/users.ts:5-35 | reading the uid just updated gives the profile written, up to the lone-empty-skill case |
| Contractors.ToContractor | src/db/contractors.ts:54-63 | the contractor view carries every stored field except the grant id and the 30-minute configuration id, with skills split |
| Contractors.ContractorIsUserView | src/db/contractors.ts:39-66 | the contractor view of a stored user is that user's record read by uid, with the identifiers removed |
| Contractors.GetContractorByUid | src/db/contractors.ts:39-66 | a contractor is returned exactly when the uid is present and the user is looking for work, and then it is that user's view |
| Contractors.EligibleKeys | src/db/contractors.ts:4-37 | the kept keys are exactly the listed keys whose user is looking for work, and they stay distinct |
| Contractors.GetContractors | src/db/contractors.ts:4-37 | every contractor returned is looking for work and is the view of a stored user |
| Contractors.GetContractorsCount | src/db/contractors.ts:4-37 | one contractor per user looking for work: the counts agree, the list is empty exactly when nobody is, and each such user's view is in it |
| Guards.Gate | src/pages/api/config.ts:13-27 | a request passes exactly when a verified token is present, its record exists and its grant id is non-empty, and then carries that record; otherwise 403 Unauthorized |
| Guards.Classify | src/pages/api/config.ts:188-207 | a reply throws exactly when `in` throws on it, is an error exactly when it holds `error`, and is data, with that data, exactly when it holds `data` and no `error` |
| SchedulerConfig.ParseStrings | src/lib/scheduler-config.ts:4 | a JSON array parses exactly when every element is a string, and gives those strings element by element |
| SchedulerConfig.ParseNumbers | src/lib/scheduler-config.ts:7 | a JSON array parses exactly when every element is a number, and gives those numbers element by element |
| SchedulerConfig.ParseOpenHours | src/lib/scheduler-config.ts:6-11 | an entry parses exactly when it is an object with a numeric `days` array and string `start`, `end` and `timezone`, and the parsed entry holds exactly those members |
| SchedulerConfig.ParseOpenHoursList | src/lib/scheduler-config.ts:5-12 | an open-hours array parses exactly when every element does, and gives them element by element |
| SchedulerConfig.ParseUpdateConfig | src/lib/scheduler-config.ts:3-16 | a request parses exactly when it is an object with an all-string calendar array, an open-hours array of valid entries, a string booking calendar id and a title and description each absent or a string; the parsed request holds those calendars, entries, id, title and description |
| SchedulerConfig.ParseStringsOf | src/lib/scheduler-config.ts:4 | encoding strings as JSON and parsing them gives them back |
| SchedulerConfig.ParseNumbersOf | src/lib/scheduler-config.ts:7 | encoding numbers as JSON and parsing them gives them back |
| SchedulerConfig.ParseOpenHoursOf | src/lib/scheduler-config.ts:6-11 | encoding one open-hours entry and parsing it gives it back |
| SchedulerConfig.ParseOpenHoursListOf | src/lib/scheduler-config.ts:5-12 | encoding a list of open-hours entries and parsing it gives it back |
| SchedulerConfig.UpdateConfigJsonFields | src/lib/scheduler-config.ts:3-16 | the encoded request holds each required member with its encoding, and each optional text member exactly when present |
| SchedulerConfig.ParseUpdateConfigJson | src/lib/scheduler-config.ts:3-16 | every request the schema describes survives encoding and parsing unchanged |
| SchedulerConfig.RejectsNonStringCalendar | src/lib/scheduler-config.ts:4 | a request whose calendar list holds a non-string is refused |
| SchedulerConfig.RejectsNullTitle | src/lib/scheduler-config.ts:14 | an event title given as `null` is refused: optional means absent, not null |
| SchedulerConfig.ParseBookingType | src/lib/scheduler-config.ts:61 | the booking type parses exactly from "0" or "1", and its text is the input |
| SchedulerConfig.ParseValidationType | src/lib/scheduler-config.ts:36 | the validation type parses exactly from "0" to "4", and its text is the input |
| SchedulerConfig.EnumRoundTrips | src/lib/scheduler-config.ts:36-61 | every enum value's text parses back to that value |
| SchedulerConfig.ParseAdditionalField | src/lib/scheduler-config.ts:34-40 | a field parses exactly when it is an object with string `key` and `validation_message`, a `validation_type` among "0" to "4", a boolean `required` and a `validation_regex` absent or a string; the parsed field holds exactly those members |
| SchedulerConfig.ParseAdditionalFieldJson | src/lib/scheduler-config.ts:34-40 | every field the schema describes survives encoding and parsing unchanged |
| SchedulerConfig.DefaultTemplates | src/lib/scheduler-config.ts:68-80 | the default title and description both contain the `:duration` and `:participant_names` placeholders, and the event type is pre-booking (1) |
| SchedulerConfig.Availability.constructor | src/lib/scheduler-config.ts:70-74 | the availability object holds the given duration, interval, rounding and participants |
| SchedulerConfig.SchedulingConfig.Defaults | src/lib/scheduler-config.ts:68-80 | the shared defaults: version 1.0.0, 30 minutes, a 15-minute interval, rounded to 30, no participants, the template title and description, type pre-booking |
| SchedulerConfig.SchedulingConfig.Assembled | src/pages/api/config.ts:103-129 | a configuration built from a version, an availability object and an event booking holds exactly those |
| SessionApi.ParseSessionRequest | src/pages/api/session.ts:6-9 | a request parses exactly when `contractor_id` is a string and `duration` a number, and keeps both |
| SessionApi.ChosenConfigId | src/pages/api/session.ts:58 | a 30-minute request uses the 30-minute configuration id; every other length uses the 60-minute one |
| SessionApi.CreateSession | src/pages/api/session.ts:25-80 | 400 for a missing or malformed body; a token request goes out only for a known contractor looking for work who has the configuration the length needs, with the grant, the lifetime and the chosen id; the answer comes back with 200, a failed call gives 400, every refusal is 400 |
| SessionApi.Handler | src/pages/api/session.ts:13-23 | POST creates a session; every other method gets 405 with `Allow: POST` |
| SessionApi.CheckOrder | src/pages/api/session.ts:36-56 | an unknown contractor is refused first, then one not looking for work, then a missing 30- or 60-minute configuration, each exactly when its condition holds |
| SessionApi.DurationChecksAreIndependent | src/pages/api/session.ts:46-58 | for 30 or 60 minutes, no request goes out exactly when that length's configuration id is empty, and the other length's id changes nothing |
| SessionApi.OtherLengthsUseConfig60 | src/pages/api/session.ts:46-58 | any length other than 30 or 60 skips both configuration checks and uses the 60-minute id, even an empty one |
| CalendarsApi.CalendarsReply | src/pages/api/calendars.ts:58-67 | an error reply gives 500 with the reply, data gives 200 with the data, anything else 500 "Unknown error", and a primitive throws |
| CalendarsApi.Handler | src/pages/api/calendars.ts:8-37 | a refused gate gives 403; only GET reaches the provider, with the caller's own non-empty grant; other methods get 405 listing GET, POST, PUT |
| ConfigApi.GetConfigReply | src/pages/api/config.ts:73-82 | an error reply gives 500, data gives 200 with the member `data` of the data, anything else 500; it throws on a primitive reply or a `null` data |
| ConfigApi.GetConfig | src/pages/api/config.ts:44-83 | no 30-minute id gives 403 "Configuration not created" and no grant 403 "Configuration incomplete", both without a call; otherwise one fetch of that configuration and its mapped reply |
| ConfigApi.ConfigReply | src/pages/api/config.ts:188-207 | a create or update reply gives 500 with an error, 200 with the data, or 500 "Unknown error"; a primitive throws |
| ConfigApi.UniformReplyMapping | src/pages/api/config.ts:188-242 | configuration, calendar and read replies get the same status for the same reply, 200 exactly for an object with `data` and no `error` |
| ConfigApi.ConfigCall | src/pages/api/config.ts:173-186 | an empty configuration id creates, any other updates that id, with the same grant and payload |
| ConfigApi.CreateOrUpdateConfig | src/pages/api/config.ts:166-244 | stamps the duration on the configuration's availability in place, keeping its other fields, then sends the create or update call with the stamped payload and maps the reply |
| ConfigApi.Override | src/pages/api/config.ts:116-123 | a requested text replaces the default only when present and non-empty |
| ConfigApi.AssembledPayload | src/pages/api/config.ts:103-129 | the defaults' version, interval, rounding and event type, the given duration, the user as the one participant with the requested calendars and hours, the user's email and booking calendar as organizer, and the overridden title and description |
| ConfigApi.Assemble | src/pages/api/config.ts:103-129 | a fresh configuration whose payload is the assembled payload of the defaults |
| ConfigApi.IdOf | src/pages/api/config.ts:146-150 | the id reaches the store exactly when the data is an object holding an `id` member: reading it from `null` throws, and writing an absent one is refused; a string id is stored as itself |
| ConfigApi.SaveResponse | src/pages/api/config.ts:152-160 | a 30-minute failure is reported first, then a 60-minute failure, and 200 with the 30-minute data only when both succeed |
| ConfigApi.SetConfigSpec | src/pages/api/config.ts:85-164 | a missing or refused body gives 400 "Invalid request" with no call and nothing written; otherwise the 30-minute call comes first and the 60-minute call second, each with the assembled payload; a reply without an id gives 400 "Invalid request" with nothing written; the table changes at most in the caller's entry |
| ConfigApi.WritesBeforeStatus | src/pages/api/config.ts:145-160 | when both replies' data hold an `id` member, both ids are written whatever the statuses, and the 30-minute status is reported when it failed, the 60-minute one otherwise |
| ConfigApi.MissingIdWritesNothing | src/pages/api/config.ts:145-163 | when either reply's data has no `id`, the answer is 400 "Invalid request", two calls were made and the table is unchanged, whatever the statuses |
| ConfigApi.ProviderErrorAnswers400 | src/pages/api/config.ts:145-163 | a provider error on the 30-minute call never reaches its 500: the error reply has no id, so the save answers 400 and writes nothing |
| ConfigApi.SavedIdsReadBack | src/pages/api/config.ts:145-160 | after a save in which both replies carry string ids, the answer is 200 and the record read back holds those two ids |
| ConfigApi.SendConfigs | src/pages/api/config.ts:131-143 | the 30-minute call, then the 60-minute call only when the first reply did not throw, each with the payload stamped with its length; the results are the mapped replies |
| ConfigApi.SetConfig | src/pages/api/config.ts:85-164 | the response, calls and store are exactly those of `SetConfigSpec`, and the shared defaults are not written |
| ConfigApi.Handler | src/pages/api/config.ts:9-42 | a refused gate gives 403 with no call and nothing written; GET is `GetConfig`; PUT and POST are `SetConfigSpec`; other methods get 405 listing GET, POST, PUT; the defaults are not written |
| MeApi.GetMe | src/pages/api/me.ts:30-39 | always 200; no record exactly when the uid is absent, otherwise the stored fields with the skills split |
| MeApi.Handler | src/pages/api/me.ts:8-61 | no token gives 403; GET reads; PUT without a body gives 400 "Missing user data", with one it writes the body and answers it; other methods get 405 with `Allow: GET` |
| MeApi.GetAfterPut | src/pages/api/me.ts:30-61 | a GET after a PUT of comma-free skills answers the profile that was put, up to the lone-empty-skill case |
| LoginApi.DefaultUser | src/pages/api/login.ts:35-52 | the identity's uid and name, its email and picture or "", not looking for work, no skills, rate 0, and every other text and id empty |
| LoginApi.IdTokenOf | src/pages/api/login.ts:19 | reading `idToken` throws exactly on a missing or `null` body; a token found is the body's own member |
| LoginApi.LoginSpec | src/pages/api/login.ts:14-65 | 405 for non-POST; a throw for an unreadable body; 400 without a token; 403 without a session cookie; 403 with the session cookie set when verification fails; otherwise the cookie is set and 200 with the stored record, written only on a first login and only as the default record |
| LoginApi.Handler | src/pages/api/login.ts:14-65 | the handler's response, cookie and store are exactly those of `LoginSpec` |
| LoginApi.RouteCookieAsSent | src/pages/api/login.ts:26-30 | wherever the route sets its cookie, the cookie the source sends is the same but for a `Max-Age` a thousand times larger |
| LoginApi.FirstLoginAnswersDefault | src/pages/api/login.ts:33-60 | a first login stores the default record and answers it |
| LoginApi.ReturningLoginKeepsRecord | src/pages/api/login.ts:33-60 | a returning user's record is left as stored and answered |
| LoginApi.LoginIsIdempotent | src/pages/api/login.ts:14-65 | a second identical login writes nothing and answers the same |
| LoginApi.SessionCookieAsWritten | src/pages/api/login.ts:26-30 | the cookie as the source writes it: the session value, HTTP-only, path `/`, with the millisecond lifetime given as `maxAge` |
| LoginApi.CookieAsWrittenOutlivesSession | src/pages/api/login.ts:26-30 | that cookie's `maxAge`, read in seconds as cookies are, is over thirteen years, not the session's lifetime |
| LoginApi.SessionCookie | src/pages/api/login.ts:26-30 | the corrected cookie: the session value, HTTP-only, path `/`, with a `maxAge` in seconds equal to the session lifetime |
| LoginApi.CookieExpiresWithSession | src/pages/api/login.ts:26-30 | the corrected cookie lasts five days (432000 seconds), a thousandth of the value written |
| BookingCard.LoginRedirect | src/components/booking-card.tsx:131 | the login page with a redirect to the contractor's page, naming `undefined` when there is no contractor |
| BookingCard.ErrorTitle | src/components/booking-card.tsx:113 | the error's message unless it is missing or null, then "Error" |
| BookingCard.ContinuePrice | src/components/booking-card.tsx:164 | 5 for a 30-minute meeting, 10 for any other length |
| BookingCard.BookingCard.constructor | src/components/booking-card.tsx:50-134 | nothing selected, confirmed, stored, pre-booked, navigated, toasted or booked |
| BookingCard.BookingCard.TimeslotConfirmed | src/components/booking-card.tsx:50-134 | always false, throwing only on a primitive booking answer; no slot changes nothing; the slot is shared first; without name and email it goes to login only; the widget store needs element and store, a booking also the connector; an error toasts its message, data is pre-booked and goes to checkout, anything else toasts "Unexpected booking error" |
| BookingCard.BookingCard.ChooseSlot | src/components/latest-timeslots.tsx:215-222 | choosing a slot selects it for the meeting length and changes nothing else |
| BookingCard.BookingCard.Continue | src/components/booking-card.tsx:158-162 | the Continue button does nothing without a selected slot; otherwise the selected slot goes through the confirmation handler with every effect stated: login redirect, widget store writes, the booking call, and the error toast, checkout or "unexpected" toast |
| LatestTimeslots.OnDay | src/components/latest-timeslots.tsx:82-88 | no longer than its input, and the slots kept are exactly those on the given day |
| LatestTimeslots.OnDayConcat | src/components/latest-timeslots.tsx:82-88 | filtering a concatenation filters each part |
| LatestTimeslots.GetTimeslots | src/components/latest-timeslots.tsx:76-93 | nothing exactly when nothing came in; at most three; none from none; all on the first slot's day |
| LatestTimeslots.FirstSlotAndPrefix | src/components/latest-timeslots.tsx:76-93 | the first slot is always shown, and the result is the first three (or fewer) of that day's slots in input order |
| LatestTimeslots.SelectSlot | src/components/latest-timeslots.tsx:215-222 | the timeslot starts at the slot's start in milliseconds and ends the meeting length later |
| LatestTimeslots.LatestTimeslots.constructor | src/components/latest-timeslots.tsx:98-112 | not loading, not fetching, no session, no slots and no requests |
| LatestTimeslots.LatestTimeslots.SessionEffect | src/components/latest-timeslots.tsx:98-112 | a session is requested, and loading starts, exactly when not loading, without a session and with a contractor |
| LatestTimeslots.LatestTimeslots.SessionArrived | src/components/latest-timeslots.tsx:107-110 | the answered session id is stored and loading ends |
| LatestTimeslots.LatestTimeslots.ResetEffect | src/components/latest-timeslots.tsx:117-121 | with a contractor the session is cleared; without one nothing changes |
| LatestTimeslots.LatestTimeslots.AvailabilityEffect | src/components/latest-timeslots.tsx:129-167 | with a session, no fetch in progress, the element and a connector, a data answer replaces the slots by `GetTimeslots` of it and fetching ends; otherwise the slots stay |
| TagSelector.Remove | src/components/tag-selector.tsx:32-35 | the kept tags are exactly the selected tags other than the one removed |
| TagSelector.RemoveConcat | src/components/tag-selector.tsx:32-35 | removing from a concatenation removes from each part |
| TagSelector.RemoveAbsent | src/components/tag-selector.tsx:32-35 | removing an unselected tag changes nothing |
| TagSelector.Toggle | src/components/tag-selector.tsx:30-40 | an unselected tag is appended, a selected one removed, so afterwards it is selected exactly when it was not |
| TagSelector.ToggleTwice | src/components/tag-selector.tsx:30-40 | toggling an unselected tag twice restores the selection |
| TagSelector.LowerChar | src/components/tag-selector.tsx:23 | ASCII capitals map to lower case, every other character to itself |
| TagSelector.Lower | src/components/tag-selector.tsx:23 | lower-casing keeps the length and maps each character |
| TagSelector.Includes | src/components/tag-selector.tsx:23 | the empty term is always included, a term longer than the text never, and a prefix of the text always |
| TagSelector.OccursShift | src/components/tag-selector.tsx:23 | dropping the first character moves each occurrence one place to the left |
| TagSelector.IncludesIffOccurs | src/components/tag-selector.tsx:23 | `includes` holds exactly when the term occurs at some position |
| TagSelector.MatchingTags | src/components/tag-selector.tsx:21-28 | no more than the tags, and exactly those whose lower-cased text contains the lower-cased term |
| TagSelector.MatchingConcat | src/components/tag-selector.tsx:21-28 | matching a concatenation matches each part |
| TagSelector.LowerIdempotent | src/components/tag-selector.tsx:23 | lower-casing twice is lower-casing once |
| TagSelector.MatchesIgnoresCase | src/components/tag-selector.tsx:23 | tags and terms equal up to case match alike, and matching is matching of the lower-cased texts |
| TagSelector.MatchingIgnoresCase | src/components/tag-selector.tsx:23 | two terms equal up to case offer the same tags in the same order |
| TagSelector.MatchingEmptyTerm | src/components/tag-selector.tsx:23 | the empty term offers every tag, in order |
| TagSelector.TagSelector.constructor | src/components/tag-selector.tsx:16 | the selection starts as the pre-selected tags, or empty, with no search and no dropdown |
| TagSelector.TagSelector.ToggleTag | src/components/tag-selector.tsx:30-40 | the selection becomes its toggle, the new selection is reported to the parent, and the search is cleared |
| TagSelector.TagSelector.SetSearchTerm | src/components/tag-selector.tsx:21-28 | typing changes only the search term |
| TagSelector.TagSelector.SearchEffect | src/components/tag-selector.tsx:21-28 | a non-empty term shows the dropdown with the matching tags; an empty one hides it |
| Toast.ToastStyles | src/components/toast.tsx:105-118 | every toast kind has a non-empty style |
| Toast.StylesAreDistinct | src/components/toast.tsx:105-118 | different kinds never share a style |
| Toast.Without | src/components/toast.tsx:57-59 | no longer than before, and the kept toasts are exactly those with another id |
| Toast.WithoutConcat | src/components/toast.tsx:57-59 | removing from a concatenation removes from each part |
| Toast.WithoutAbsent | src/components/toast.tsx:57-59 | removing an id no toast has changes nothing |
| Toast.AddThenRemove | src/components/toast.tsx:57-79 | adding a toast with a new id and then removing it restores the list |
| Toast.DurationOrDefault | src/components/toast.tsx:66 | an omitted duration is 5000 ms, a given one is kept as given |
| Toast.ToastProvider.constructor | src/components/toast.tsx:55 | no toasts and no timers |
| Toast.ToastProvider.AddToast | src/components/toast.tsx:61-79 | the toast is appended with its duration, 5000 ms by default, and a removal timer is set exactly when that duration is positive |
| Toast.ToastProvider.RemoveToast | src/components/toast.tsx:57-59 | the toasts with that id are removed, and timers are left alone |
| Toast.ToastProvider.FireTimer | src/components/toast.tsx:74-76 | the fired timer is dropped and the toasts with its id are removed |
| TailwindColors.ExtractColorVars | tailwind.config.ts:36-47 | an empty palette gives no variables; every variable is named `--color…`, and `--color-…` under the groups the plugin uses |
| TailwindColors.EntryVars | tailwind.config.ts:38-45 | a colour string gives its one variable; every variable is named `--color…`, and a nested group's are all `--color-…` |
| TailwindColors.VarNameInjective | tailwind.config.ts:42 | within one group, different keys give different variable names |
| TailwindColors.MapUnionAssoc | tailwind.config.ts:45 | spreading objects one after another is associative |
| TailwindColors.Single | tailwind.config.ts:37-46 | a palette of one entry gives exactly that entry's variables |
| TailwindColors.ExtractConcat | tailwind.config.ts:36-47 | the variables of a palette are those of its front, overridden by those of its back |
| TailwindColors.LaterEntryWins | tailwind.config.ts:45 | when two entries produce the same name, the later one's value is kept |
| TailwindColors.TopLevelLeaf | tailwind.config.ts:42 | a top-level colour string gives `--color-<key>` |
| TailwindColors.NestedLeaf | tailwind.config.ts:43 | a colour one level down gives `--color-<group>-<key>` |
| TailwindColors.DeepLeafKeepsOnlyParent | tailwind.config.ts:43 | two levels down, only the nearest group is kept in the name and the outer one is dropped |
| TailwindColors.KeysOf | tailwind.config.ts:37 | the keys of a palette, one per entry, in order |
| TailwindColors.FlatKeys | tailwind.config.ts:36-47 | the variables of a flat palette are named by exactly its keys |
| TailwindColors.NamesCount | tailwind.config.ts:42 | distinct keys give as many distinct names |
| TailwindColors.FlatGroupOnePerLeaf | tailwind.config.ts:36-47 | a flat palette with distinct keys gives one variable per entry |
| TailwindColors.AppleKeysOf | tailwind.config.ts:12-24 | the apple palette's keys are the eleven shades from 50 to 950 |
| TailwindColors.AppleKeysDistinct | tailwind.config.ts:12-24 | the apple shades are distinct |
| TailwindColors.NamedFlatGroup | tailwind.config.ts:36-47 | a named flat group with distinct keys gives one variable per entry |
| TailwindColors.AppleGivesElevenVars | tailwind.config.ts:12-24 | the theme's apple palette gives eleven variables |

## Left out

- Firebase, Nylas and the session-cookie library are not called. Their answers are parameters, and their writes are state or recorded calls.
- URLs, headers, API keys, `JSON.stringify` text and `console` logging are not modelled.
- JavaScript numbers are modelled as integers. Fractional durations and timestamps are not represented.
- The session time-to-live is a parameter. src/lib/constants.ts is not part of this model.
- The cookie's name and its serialised text are not modelled. src/lib/constants.ts is not part of this model.
- `Object.keys` order over the user table is a parameter (`keys`). It is not derived from the store.
- Lower-casing covers ASCII only. `toLowerCase` on other Unicode letters is not modelled.
- `toLocaleDateString` is the parameter `dayOf`. Time zones and locales are not modelled.
- The toast id is a parameter. `Math.random` is not modelled.
- A user record is assumed to carry all its fields. Only `skills` may be missing. Records with other missing fields are not represented.
- The verified identity's name is taken as a present string. A missing email is modelled, and becomes "".
- Store reads never fail here. In the source, a failed read inside the session route's `try` gives 400 "Invalid session data", and on the gated routes it escapes as an uncaught error.
- User ids are plain map keys, so an id absent from the table gives "Invalid contractor id" here. In Firebase, an empty contractor id reads the whole `users` path, and the session route answers "Contractor is not looking for work". An id holding `.`, `#`, `$`, `[` or `]` makes `ref` throw, which gives 400 "Invalid session data".
- Json.HasKey: the `in` test is exact for the keys the source asks about (`error`, `data`). Inherited keys, and an array's `length` or index keys, are not modelled: on an array it is false.
- Users.UserStore.UpdateUser: a failing Firebase write is not modelled; the write always succeeds.
- ConfigApi.IdOf: a present `id` that is not a string is stored as "". Firebase would store the number or object itself.
- MeApi.Handler: a PUT body is either a user record or falsy. Truthy bodies that are not user records are not modelled.
- LoginApi.LoginSpec: the route sets the corrected cookie, with `Max-Age` 432000 (five days in seconds). The source sends 432000000 (see "## Findings"); `LoginApi.RouteCookieAsSent` relates the two.
- LoginApi.LoginSpec: the 403 after a failed re-read of a just-created record cannot occur here, because a write always succeeds.
- LatestTimeslots.LatestTimeslots.AvailabilityEffect: the fetch completes within the effect. Interleavings with other effects are not modelled.
- LatestTimeslots.LatestTimeslots.AvailabilityEffect: an availability answer that is a primitive (where `"data" in` throws) is not represented.
- React scheduling is not modelled. Effects and handlers are explicit method calls, and rendering is left out.
- The scheduler widget's internals (`getNylasSchedulerStore`, `bookTimeslot`, `getAvailability`) are inputs. Only their presence and answers are modelled.
- `setTimeout` is modelled as a pending timer list. Time passing is modelled as `FireTimer`.
- The booking card's toasts are recorded as requests. They are not routed through the toast provider.
- `participantSchema`, `eventBookingSchema`, `availabilitySchema` and `configSchema` are declared in src/lib/scheduler-config.ts but no modelled route parses with them. Only their enums and `additionalFieldSchema` are modelled.
- `extractColorVars` on values that are neither strings nor objects (numbers, functions) is not modelled. Palette values are colour strings or groups.
- The rest of the Tailwind configuration (`content`, `backgroundImage`, `addBase`, the animate plugin) is not modelled.
- The me route answers 405 with an `Allow` header of GET only, although it also serves PUT. This is modelled as written.

## Findings

| source | as written | input that shows it | evidently intended | confidence | as-written member | corrected member |
|---|---|---|---|---|---|---|
| src/pages/api/login.ts:26-30 | the session lifetime in milliseconds (432000000) is passed as the cookie's `maxAge`, which cookies read in seconds | any successful login | a cookie that expires with the five-day session, `maxAge` 432000 | not executed | LoginApi.CookieAsWrittenOutlivesSession | LoginApi.CookieExpiresWithSession |
