/** The contractor card's first available times: a scheduling session is
    created for the contractor and meeting length, the widget's availability
    is read through it, and the first three slots of the first day are shown.
    The `toLocaleDateString` comparison is the input `dayOf`, from a
    millisecond timestamp to a calendar day; React effects and the
    completions of their requests are explicit steps. */
module LatestTimeslots {
  import opened Json

  /** One slot of availability; times are in seconds. */
  datatype Slot = Slot(emails: seq<string>, startTime: int, endTime: int)

  /** A chosen slot; times are in milliseconds. */
  datatype Timeslot = Timeslot(startMs: int, endMs: int)

  function DayOfSlot(slot: Slot, dayOf: int -> int): int
  {
    dayOf(slot.startTime * 1000)
  }

  /** The slots that start on `day`, in order. */
  function OnDay(slots: seq<Slot>, day: int, dayOf: int -> int): (r: seq<Slot>)
    ensures |r| <= |slots|
    ensures forall i :: 0 <= i < |r| ==> DayOfSlot(r[i], dayOf) == day
    ensures forall s :: s in r <==> s in slots && DayOfSlot(s, dayOf) == day
  {
    if slots == [] then []
    else (if DayOfSlot(slots[0], dayOf) == day then [slots[0]] else []) + OnDay(slots[1..], day, dayOf)
  }

  /** Filtering works piecewise, so the kept slots keep their order. */
  lemma {:induction false} OnDayConcat(a: seq<Slot>, b: seq<Slot>, day: int, dayOf: int -> int)
    ensures OnDay(a + b, day, dayOf) == OnDay(a, day, dayOf) + OnDay(b, day, dayOf)
  {
    if a != [] {
      assert (a + b)[1..] == a[1..] + b;
      OnDayConcat(a[1..], b, day, dayOf);
    } else {
      assert a + b == b;
    }
  }

  /** `getTimeslots`: `null` stays `null`; otherwise the slots on the first
      slot's day, at most the first three of them. */
  function GetTimeslots(timeslots: Option<seq<Slot>>, dayOf: int -> int): (r: Option<seq<Slot>>)
    ensures r.None? <==> timeslots.None?
    ensures r.Some? ==> |r.value| <= 3
    ensures r.Some? && timeslots.value == [] ==> r.value == []
    ensures r.Some? && timeslots.value != [] ==>
              forall i :: 0 <= i < |r.value| ==> DayOfSlot(r.value[i], dayOf) == DayOfSlot(timeslots.value[0], dayOf)
  {
    if timeslots.None? then None
    else if timeslots.value == [] then Some([])
    else
      var sameDay := OnDay(timeslots.value, DayOfSlot(timeslots.value[0], dayOf), dayOf);
      Some(if |sameDay| <= 3 then sameDay else sameDay[..3])
  }

  /** The result is a prefix of the first day's slots in input order, and
      the first slot is always shown. */
  lemma FirstSlotAndPrefix(slots: seq<Slot>, dayOf: int -> int)
    requires slots != []
    ensures var r := GetTimeslots(Some(slots), dayOf).value;
            var sameDay := OnDay(slots, DayOfSlot(slots[0], dayOf), dayOf);
            && r == sameDay[..|r|]
            && |r| == (if |sameDay| <= 3 then |sameDay| else 3)
            && r != [] && r[0] == slots[0]
  {
    var day := DayOfSlot(slots[0], dayOf);
    OnDayConcat([slots[0]], slots[1..], day, dayOf);
    assert [slots[0]] + slots[1..] == slots;
    assert OnDay([slots[0]], day, dayOf) == [slots[0]] by {
      assert [slots[0]][1..] == [];
    }
  }

  /** Choosing a slot: the start in milliseconds, the end the meeting length later. */
  function SelectSlot(slot: Slot, durationMinutes: int): (t: Timeslot)
    ensures t.startMs == slot.startTime * 1000
    ensures t.endMs - t.startMs == durationMinutes * 60000
  {
    Timeslot(slot.startTime * 1000, slot.startTime * 1000 + durationMinutes * 60000)
  }

  /** A request for a session, as the card sends it to the session route. */
  datatype SessionRequest = SessionRequest(contractorId: string, duration: int)

  /** What the widget's `getAvailability` answers: with or without `data`. */
  datatype Availability = NoData | Data(timeSlots: Option<seq<Slot>>)

  class LatestTimeslots {
    var loading: bool
    var fetchingTimeslots: bool
    var sessionId: Option<string>
    var timeSlots: Option<seq<Slot>>
    /** The session requests sent so far, oldest first. */
    var requests: seq<SessionRequest>

    constructor ()
      ensures !loading && !fetchingTimeslots && sessionId.None? && timeSlots.None? && requests == []
    {
      loading := false;
      fetchingTimeslots := false;
      sessionId := None;
      timeSlots := None;
      requests := [];
    }

    /** `!sessionId` is false: a non-empty id is held. */
    predicate HasSession()
      reads this
    {
      sessionId.Some? && sessionId.value != ""
    }

    /** The session effect: a request goes out only when no request is in
        flight, no session is held and there is a contractor. */
    method SessionEffect(contractorId: Option<string>, duration: int)
      modifies this
      ensures !old(loading) && !old(HasSession()) && contractorId.Some? ==>
                loading && requests == old(requests) + [SessionRequest(contractorId.value, duration)]
      ensures old(loading) || old(HasSession()) || contractorId.None? ==>
                loading == old(loading) && requests == old(requests)
      ensures sessionId == old(sessionId) && timeSlots == old(timeSlots) && fetchingTimeslots == old(fetchingTimeslots)
    {
      if loading {
        return;
      }
      if !HasSession() && contractorId.Some? {
        loading := true;
        requests := requests + [SessionRequest(contractorId.value, duration)];
      }
    }

    /** The session request completes with `data.session_id` (`None` when it
        is missing); an empty answer leaves no session, so the effect fires again. */
    method SessionArrived(id: Option<string>)
      modifies this
      ensures sessionId == id && !loading
      ensures requests == old(requests) && timeSlots == old(timeSlots) && fetchingTimeslots == old(fetchingTimeslots)
    {
      sessionId := id;
      loading := false;
    }

    /** A change of meeting length or contractor drops the session. */
    method ResetEffect(contractorId: Option<string>)
      modifies this
      ensures contractorId.Some? ==> sessionId.None?
      ensures contractorId.None? ==> sessionId == old(sessionId)
      ensures loading == old(loading) && requests == old(requests) && timeSlots == old(timeSlots)
      ensures fetchingTimeslots == old(fetchingTimeslots)
    {
      if contractorId.Some? {
        sessionId := None;
      }
    }

    /** The availability effect and its completion: with a session, no fetch
        in progress, a widget element and a connector, an answer with `data`
        replaces the shown slots by `getTimeslots` of its `time_slots`. */
    method AvailabilityEffect(elementPresent: bool, connectorPresent: bool, answer: Availability, dayOf: int -> int)
      modifies this
      ensures old(HasSession()) && !old(fetchingTimeslots) && elementPresent && connectorPresent && answer.Data? ==>
                timeSlots == GetTimeslots(answer.timeSlots, dayOf)
      ensures !(old(HasSession()) && !old(fetchingTimeslots) && elementPresent && connectorPresent && answer.Data?) ==>
                timeSlots == old(timeSlots)
      ensures old(HasSession()) && !old(fetchingTimeslots) && elementPresent && connectorPresent ==> !fetchingTimeslots
      ensures !(old(HasSession()) && !old(fetchingTimeslots) && elementPresent && connectorPresent) ==>
                fetchingTimeslots == old(fetchingTimeslots)
      ensures loading == old(loading) && sessionId == old(sessionId) && requests == old(requests)
    {
      if !HasSession() || fetchingTimeslots || !elementPresent || !connectorPresent {
        return;
      }
      if answer.Data? {
        timeSlots := GetTimeslots(answer.timeSlots, dayOf);
      }
      fetchingTimeslots := false;
    }
  }
}
