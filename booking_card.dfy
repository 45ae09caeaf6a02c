/** The contractor page's booking card: the "Continue" button and the
    timeslot-confirmed handler that holds the chosen slot with the scheduling
    widget (a pre-booking) and sends the client to checkout, or to login
    first. The widget's element, store, connector and booking answer are
    inputs; the effects the handler has are fields: the shared
    confirmed-timeslot state, the widget store's two entries, the pre-booked
    event details, the navigations, the toasts and the booking calls. */
module BookingCard {
  import opened Json
  import opened Users
  import opened Guards
  import opened LatestTimeslots
  import Toast

  /** The shared confirmed-timeslot state. */
  datatype Confirmed = Confirmed(timeslot: Timeslot, contractorId: Option<string>, duration: int)

  /** `bookingInfo.primaryParticipant`. */
  datatype PrimaryParticipant = PrimaryParticipant(name: string, email: string)

  /** An `addToast(title, content, type)` call. */
  datatype ToastRequest = ToastRequest(title: Json, content: string, kind: Toast.ToastType)

  /** A `bookTimeslot()` call, with the widget store's two entries as they were when it was made. */
  datatype BookingCall = BookingCall(selectedTimeslot: Option<Timeslot>, primaryParticipant: Option<PrimaryParticipant>)

  const CheckoutPath := "/checkout"
  const TryAgain := "Please try again"
  const UnexpectedBookingError := "Unexpected booking error"

  /** `user?.email && user?.name`: both present and non-empty. */
  predicate Identified(user: Option<UserRecord>)
  {
    user.Some? && user.value.email != "" && user.value.name != ""
  }

  /** `/login?redirect=/contractor/${contractor?.uid}`: the login page, sent
      back to this contractor afterwards; `undefined` when there is none. */
  function LoginRedirect(contractorId: Option<string>): (path: string)
    ensures |path| >= |"/login?redirect=/contractor/"|
    ensures path[..|"/login?redirect=/contractor/"|] == "/login?redirect=/contractor/"
    ensures contractorId.Some? ==> path[|"/login?redirect=/contractor/"|..] == contractorId.value
    ensures contractorId.None? ==> path[|"/login?redirect=/contractor/"|..] == "undefined"
  {
    "/login?redirect=/contractor/" + (if contractorId.Some? then contractorId.value else "undefined")
  }

  /** `bookingDetails.error?.message ?? "Error"`. */
  function ErrorTitle(error: Json): (title: Json)
    ensures error.JObj? && "message" in error.fields && !error.fields["message"].JNull? ==>
              title == error.fields["message"]
    ensures !(error.JObj? && "message" in error.fields && !error.fields["message"].JNull?) ==>
              title == JStr("Error")
  {
    match OptionalMember(Some(error), "message")
    case Some(message) => if message.JNull? then JStr("Error") else message
    case None => JStr("Error")
  }

  /** The price on the Continue button: 5 for a 30-minute meeting, 10 for any other. */
  function ContinuePrice(durationMinutes: int): (price: int)
    ensures durationMinutes == 30 ==> price == 5
    ensures durationMinutes != 30 ==> price == 10
  {
    if durationMinutes == 30 then 5 else 10
  }

  class BookingCard {
    /** The card's own selected slot, set by the time buttons. */
    var selectedTimeslot: Option<Timeslot>
    var confirmed: Option<Confirmed>
    var storeSelectedTimeslot: Option<Timeslot>
    var storePrimaryParticipant: Option<PrimaryParticipant>
    var preBooked: Option<Json>
    var navigations: seq<string>
    var toasts: seq<ToastRequest>
    var bookings: seq<BookingCall>

    constructor ()
      ensures selectedTimeslot.None? && confirmed.None? && storeSelectedTimeslot.None?
      ensures storePrimaryParticipant.None? && preBooked.None?
      ensures navigations == [] && toasts == [] && bookings == []
    {
      selectedTimeslot := None;
      confirmed := None;
      storeSelectedTimeslot := None;
      storePrimaryParticipant := None;
      preBooked := None;
      navigations := [];
      toasts := [];
      bookings := [];
    }

    /** `timeslotConfirmedHandler`. It answers `false` on every path; it
        throws (`Threw`) only when the booking answer is not an object. */
    method TimeslotConfirmed(timeslot: Option<Timeslot>, contractorId: Option<string>, duration: int,
                             user: Option<UserRecord>, elementPresent: bool, storePresent: bool,
                             connectorPresent: bool, bookingDetails: Json)
      returns (r: Outcome<bool>)
      modifies this
      ensures r.Threw? <==> timeslot.Some? && Identified(user) && elementPresent && storePresent &&
                            connectorPresent && Classify(bookingDetails).NotAnObject?
      ensures r.Done? ==> r.value == false
      ensures selectedTimeslot == old(selectedTimeslot)
      // No slot: nothing at all happens.
      ensures timeslot.None? ==> unchanged(this)
      // The slot is shared before the identity is checked, so also on the way to login.
      ensures timeslot.Some? ==> confirmed == Some(Confirmed(timeslot.value, contractorId, duration))
      // Without a name and email: to login, and the widget is not touched.
      ensures timeslot.Some? && !Identified(user) ==>
                navigations == old(navigations) + [LoginRedirect(contractorId)] &&
                storeSelectedTimeslot == old(storeSelectedTimeslot) &&
                storePrimaryParticipant == old(storePrimaryParticipant) &&
                bookings == old(bookings) && toasts == old(toasts) && preBooked == old(preBooked)
      // The widget store is written only when both the element and its store exist.
      ensures timeslot.Some? && Identified(user) && elementPresent && storePresent ==>
                storeSelectedTimeslot == timeslot &&
                storePrimaryParticipant == Some(PrimaryParticipant(user.value.name, user.value.email))
      ensures !(timeslot.Some? && Identified(user) && elementPresent && storePresent) ==>
                storeSelectedTimeslot == old(storeSelectedTimeslot) &&
                storePrimaryParticipant == old(storePrimaryParticipant)
      // A booking is made only with the connector too, after the store writes.
      ensures timeslot.Some? && Identified(user) && elementPresent && storePresent && connectorPresent ==>
                bookings == old(bookings) + [BookingCall(timeslot, Some(PrimaryParticipant(user.value.name, user.value.email)))]
      ensures !(timeslot.Some? && Identified(user) && elementPresent && storePresent && connectorPresent) ==>
                bookings == old(bookings)
      ensures Identified(user) && !(bookings != old(bookings) && Classify(bookingDetails).DataReply?) ==>
                navigations == old(navigations)
      // An error answer: an error toast, no navigation, nothing pre-booked.
      ensures bookings != old(bookings) && Classify(bookingDetails).ErrorReply? ==>
                toasts == old(toasts) + [ToastRequest(ErrorTitle(bookingDetails.fields["error"]), TryAgain, Toast.Error)] &&
                navigations == old(navigations) && preBooked == old(preBooked)
      // A data answer: its data is pre-booked and the client goes to checkout once.
      ensures bookings != old(bookings) && Classify(bookingDetails).DataReply? ==>
                preBooked == Some(Classify(bookingDetails).data) &&
                navigations == old(navigations) + [CheckoutPath] && toasts == old(toasts)
      // Neither: the "unexpected" toast.
      ensures bookings != old(bookings) && Classify(bookingDetails).NoKnownKey? ==>
                toasts == old(toasts) + [ToastRequest(JStr(UnexpectedBookingError), TryAgain, Toast.Error)] &&
                navigations == old(navigations) && preBooked == old(preBooked)
      ensures bookings == old(bookings) || Classify(bookingDetails).NotAnObject? ==>
                toasts == old(toasts) && preBooked == old(preBooked)
    {
      if timeslot.None? {
        return Done(false);
      }
      confirmed := Some(Confirmed(timeslot.value, contractorId, duration));
      if !Identified(user) {
        navigations := navigations + [LoginRedirect(contractorId)];
        return Done(false);
      }
      var participant := PrimaryParticipant(user.value.name, user.value.email);
      if !elementPresent {
        return Done(false);
      }
      if !storePresent {
        return Done(false);
      }
      storeSelectedTimeslot := timeslot;
      storePrimaryParticipant := Some(participant);
      if !connectorPresent {
        return Done(false);
      }
      bookings := bookings + [BookingCall(storeSelectedTimeslot, storePrimaryParticipant)];
      match Classify(bookingDetails)
      case NotAnObject =>
        return Threw;
      case ErrorReply =>
        toasts := toasts + [ToastRequest(ErrorTitle(bookingDetails.fields["error"]), TryAgain, Toast.Error)];
        return Done(false);
      case DataReply(data) =>
        preBooked := Some(data);
        navigations := navigations + [CheckoutPath];
        return Done(false);
      case NoKnownKey =>
        toasts := toasts + [ToastRequest(JStr(UnexpectedBookingError), TryAgain, Toast.Error)];
        return Done(false);
    }

    /** A time button: the card's selected slot becomes that slot for the meeting length. */
    method ChooseSlot(slot: Slot, durationMinutes: int)
      modifies this
      ensures selectedTimeslot == Some(SelectSlot(slot, durationMinutes))
      ensures confirmed == old(confirmed) && navigations == old(navigations) && bookings == old(bookings)
      ensures toasts == old(toasts) && preBooked == old(preBooked)
      ensures storeSelectedTimeslot == old(storeSelectedTimeslot) && storePrimaryParticipant == old(storePrimaryParticipant)
    {
      selectedTimeslot := Some(SelectSlot(slot, durationMinutes));
    }

    /** The Continue button: the handler runs only when a slot is selected, on
        that slot; its answer is discarded, so a throw only rejects the promise
        after the booking call is recorded. */
    method Continue(contractorId: Option<string>, duration: int, user: Option<UserRecord>,
                    elementPresent: bool, storePresent: bool, connectorPresent: bool, bookingDetails: Json)
      modifies this
      ensures selectedTimeslot == old(selectedTimeslot)
      ensures selectedTimeslot.None? ==> unchanged(this)
      ensures selectedTimeslot.Some? ==> confirmed == Some(Confirmed(selectedTimeslot.value, contractorId, duration))
      ensures selectedTimeslot.Some? && !Identified(user) ==>
                navigations == old(navigations) + [LoginRedirect(contractorId)] &&
                storeSelectedTimeslot == old(storeSelectedTimeslot) &&
                storePrimaryParticipant == old(storePrimaryParticipant) &&
                bookings == old(bookings) && toasts == old(toasts) && preBooked == old(preBooked)
      ensures selectedTimeslot.Some? && Identified(user) && elementPresent && storePresent ==>
                storeSelectedTimeslot == selectedTimeslot &&
                storePrimaryParticipant == Some(PrimaryParticipant(user.value.name, user.value.email))
      ensures !(selectedTimeslot.Some? && Identified(user) && elementPresent && storePresent) ==>
                storeSelectedTimeslot == old(storeSelectedTimeslot) &&
                storePrimaryParticipant == old(storePrimaryParticipant)
      ensures selectedTimeslot.Some? && Identified(user) && elementPresent && storePresent && connectorPresent ==>
                bookings == old(bookings) + [BookingCall(selectedTimeslot, Some(PrimaryParticipant(user.value.name, user.value.email)))]
      ensures !(selectedTimeslot.Some? && Identified(user) && elementPresent && storePresent && connectorPresent) ==>
                bookings == old(bookings)
      ensures Identified(user) && !(bookings != old(bookings) && Classify(bookingDetails).DataReply?) ==>
                navigations == old(navigations)
      ensures bookings != old(bookings) && Classify(bookingDetails).ErrorReply? ==>
                toasts == old(toasts) + [ToastRequest(ErrorTitle(bookingDetails.fields["error"]), TryAgain, Toast.Error)] &&
                navigations == old(navigations) && preBooked == old(preBooked)
      ensures bookings != old(bookings) && Classify(bookingDetails).DataReply? ==>
                preBooked == Some(Classify(bookingDetails).data) &&
                navigations == old(navigations) + [CheckoutPath] && toasts == old(toasts)
      ensures bookings != old(bookings) && Classify(bookingDetails).NoKnownKey? ==>
                toasts == old(toasts) + [ToastRequest(JStr(UnexpectedBookingError), TryAgain, Toast.Error)] &&
                navigations == old(navigations) && preBooked == old(preBooked)
      ensures bookings == old(bookings) || Classify(bookingDetails).NotAnObject? ==>
                toasts == old(toasts) && preBooked == old(preBooked)
    {
      if selectedTimeslot.Some? {
        var _ := TimeslotConfirmed(selectedTimeslot, contractorId, duration, user, elementPresent, storePresent,
                                   connectorPresent, bookingDetails);
      }
    }
  }
}
