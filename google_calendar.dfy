/**
 * The calendar side of booking: which one-hour-grid slots of a day are free,
 * the checks made before an event is created, and the calendar itself as an
 * object whose event list the create, update and delete calls change.
 */
module GoogleCalendar {
  import opened Wrappers
  import opened Clock

  type EventId = nat

  /** The deployment settings the calendar code reads. */
  datatype Settings = Settings(
    businessHoursStart: int,
    businessHoursEnd: int,
    appointmentDurationMinutes: int)

  /** Candidate starts advance by one hour, whatever the appointment length. */
  const SlotStepMinutes: int := 60

  /** `datetime.replace(hour=h)` raises unless 0 <= h <= 23. */
  predicate HoursValid(s: Settings)
  {
    0 <= s.businessHoursStart < 24 && 0 <= s.businessHoursEnd < 24
  }

  /** End of an appointment that starts at `start`, on create and on update alike. */
  function AppointmentEnd(start: int, s: Settings): int
  {
    start + s.appointmentDurationMinutes
  }

  // ---------------------------------------------------------------------------
  // Slot computation
  // ---------------------------------------------------------------------------

  /** A busy interval [start, end) read from the calendar. */
  datatype Busy = Busy(start: int, end: int)

  /** Half-open intersection of the candidate [t, t + d) with a busy interval. */
  predicate Overlaps(t: int, d: int, b: Busy)
  {
    t < b.end && t + d > b.start
  }

  predicate IsFree(t: int, d: int, busy: set<Busy>)
  {
    forall b :: b in busy ==> !Overlaps(t, d, b)
  }

  /**
   * Reference definition of the slot loop: walk from `t` in steps of one hour
   * while the candidate starts before `workEnd` and ends by it, keeping the
   * candidates that meet no busy interval.
   */
  function SlotStarts(t: int, workEnd: int, d: int, busy: set<Busy>): seq<int>
    decreases workEnd - t
  {
    if t < workEnd && t + d <= workEnd then
      (if IsFree(t, d, busy) then [t] else []) + SlotStarts(t + SlotStepMinutes, workEnd, d, busy)
    else
      []
  }

  /** A start the loop visits: on the hourly grid from `workStart`, inside the window. */
  predicate IsCandidate(workStart: int, workEnd: int, d: int, t: int)
  {
    workStart <= t < workEnd && t + d <= workEnd && (t - workStart) % SlotStepMinutes == 0
  }

  /** Exactly the free candidates are returned. */
  lemma {:induction false} SlotStartsExactly(workStart: int, workEnd: int, d: int, busy: set<Busy>, t: int)
    ensures t in SlotStarts(workStart, workEnd, d, busy) <==> IsCandidate(workStart, workEnd, d, t) && IsFree(t, d, busy)
    decreases workEnd - workStart
  {
    if workStart < workEnd && workStart + d <= workEnd {
      var next := workStart + SlotStepMinutes;
      SlotStartsExactly(next, workEnd, d, busy, t);
      if t != workStart {
        assert (t - workStart) % SlotStepMinutes == (t - next) % SlotStepMinutes;
        assert IsCandidate(workStart, workEnd, d, t) <==> IsCandidate(next, workEnd, d, t);
      }
    }
  }

  /** `s` is strictly increasing and no element lies below `lo`. */
  predicate IncreasingFrom(s: seq<int>, lo: int)
  {
    (forall i :: 0 <= i < |s| ==> lo <= s[i]) && (forall i, j :: 0 <= i < j < |s| ==> s[i] < s[j])
  }

  /** Starts are strictly increasing and never before the first candidate. */
  lemma {:induction false} SlotStartsIncreasing(workStart: int, workEnd: int, d: int, busy: set<Busy>)
    ensures IncreasingFrom(SlotStarts(workStart, workEnd, d, busy), workStart)
    decreases workEnd - workStart
  {
    if workStart < workEnd && workStart + d <= workEnd {
      var next := workStart + SlotStepMinutes;
      SlotStartsIncreasing(next, workEnd, d, busy);
      var rest := SlotStarts(next, workEnd, d, busy);
      var head := if IsFree(workStart, d, busy) then [workStart] else [];
      var all := SlotStarts(workStart, workEnd, d, busy);
      assert all == head + rest;
      assert forall i :: |head| <= i < |all| ==> all[i] == rest[i - |head|];
    }
  }

  /**
   * Every returned slot lies within the business window, meets no busy
   * interval, and starts a whole number of hours after the window opens.
   */
  lemma SlotStartsSound(workStart: int, workEnd: int, d: int, busy: set<Busy>)
    ensures forall t :: t in SlotStarts(workStart, workEnd, d, busy) ==>
      workStart <= t && t + d <= workEnd &&
      (forall b :: b in busy ==> !Overlaps(t, d, b)) &&
      t == workStart + SlotStepMinutes * ((t - workStart) / SlotStepMinutes)
  {
    forall t | t in SlotStarts(workStart, workEnd, d, busy)
      ensures workStart <= t && t + d <= workEnd && IsFree(t, d, busy)
      ensures t == workStart + SlotStepMinutes * ((t - workStart) / SlotStepMinutes)
    {
      SlotStartsExactly(workStart, workEnd, d, busy, t);
      assert (t - workStart) % SlotStepMinutes == 0;
    }
  }

  /** A busy interval that only touches a candidate at an endpoint does not remove it. */
  lemma TouchingIntervalsDoNotBlock(workStart: int, workEnd: int, d: int, busy: set<Busy>, t: int)
    requires IsCandidate(workStart, workEnd, d, t)
    requires forall b :: b in busy ==> b.end <= t || t + d <= b.start
    ensures t in SlotStarts(workStart, workEnd, d, busy)
  {
    SlotStartsExactly(workStart, workEnd, d, busy, t);
  }

  /** With no busy intervals and d > 0 the loop yields (W - d) / 60 + 1 slots when W >= d. */
  lemma {:induction false} SlotCountWithoutEvents(workStart: int, workEnd: int, d: int)
    requires d > 0
    ensures |SlotStarts(workStart, workEnd, d, {})| ==
      if workEnd - workStart >= d then (workEnd - workStart - d) / SlotStepMinutes + 1 else 0
    decreases workEnd - workStart
  {
    if workStart < workEnd && workStart + d <= workEnd {
      assert IsFree(workStart, d, {});
      SlotCountWithoutEvents(workStart + SlotStepMinutes, workEnd, d);
      var w := workEnd - workStart;
      if w - SlotStepMinutes >= d {
        assert (w - d) / SlotStepMinutes == (w - d - SlotStepMinutes) / SlotStepMinutes + 1;
      }
    }
  }

  /** The loop of `get_available_slots`: a `while` over candidates with an inner scan of the events. */
  method ComputeSlots(workStart: int, workEnd: int, d: int, events: seq<Busy>) returns (slots: seq<int>)
    ensures slots == SlotStarts(workStart, workEnd, d, Elems(events))
  {
    slots := [];
    var current := workStart;
    while current < workEnd
      invariant slots + SlotStarts(current, workEnd, d, Elems(events)) == SlotStarts(workStart, workEnd, d, Elems(events))
      decreases workEnd - current
    {
      var slotEnd := current + d;
      if slotEnd > workEnd {
        break;
      }
      var isFree := true;
      var i := 0;
      while i < |events|
        invariant 0 <= i <= |events|
        invariant isFree
        invariant forall j :: 0 <= j < i ==> !Overlaps(current, d, events[j])
      {
        if current < events[i].end && slotEnd > events[i].start {
          isFree := false;
          break;
        }
        i := i + 1;
      }
      if isFree {
        forall b | b in Elems(events)
          ensures !Overlaps(current, d, b)
        {
          var j :| 0 <= j < |events| && events[j] == b;
        }
      } else {
        assert events[i] in Elems(events);
      }
      if isFree {
        slots := slots + [current];
      }
      current := current + SlotStepMinutes;
    }
  }

  /** The working window of the day of `dayStart`, as `get_available_slots` computes it. */
  function WorkStart(dayStart: int, s: Settings): int
  {
    StartOfDay(dayStart) + s.businessHoursStart * MinutesPerHour
  }

  function WorkEnd(dayStart: int, s: Settings): int
  {
    StartOfDay(dayStart) + s.businessHoursEnd * MinutesPerHour
  }

  /** The slots of the day of `dayStart` against a set of busy intervals. */
  function DaySlots(dayStart: int, s: Settings, busy: set<Busy>): seq<int>
  {
    SlotStarts(WorkStart(dayStart, s), WorkEnd(dayStart, s), s.appointmentDurationMinutes, busy)
  }

  /** Business hours 09:00-17:00, one-hour slots, one meeting 13:00-14:00: seven slots, 13:00 left out. */
  lemma DaySlotsScenario(day: int)
    ensures var t0 := day * MinutesPerDay;
      DaySlots(t0, Settings(9, 17, 60), {Busy(t0 + 780, t0 + 840)}) ==
        [t0 + 540, t0 + 600, t0 + 660, t0 + 720, t0 + 840, t0 + 900, t0 + 960]
  {
    var t0 := day * MinutesPerDay;
    WithinDay(day, 0);
    var busy := {Busy(t0 + 780, t0 + 840)};
    var we := t0 + 1020;
    assert SlotStarts(t0 + 1020, we, 60, busy) == [];
    assert SlotStarts(t0 + 960, we, 60, busy) == [t0 + 960];
    assert SlotStarts(t0 + 900, we, 60, busy) == [t0 + 900, t0 + 960];
    assert SlotStarts(t0 + 840, we, 60, busy) == [t0 + 840, t0 + 900, t0 + 960];
    assert !IsFree(t0 + 780, 60, busy);
    assert SlotStarts(t0 + 780, we, 60, busy) == [t0 + 840, t0 + 900, t0 + 960];
    assert SlotStarts(t0 + 720, we, 60, busy) == [t0 + 720, t0 + 840, t0 + 900, t0 + 960];
    assert SlotStarts(t0 + 660, we, 60, busy) == [t0 + 660, t0 + 720, t0 + 840, t0 + 900, t0 + 960];
    assert SlotStarts(t0 + 600, we, 60, busy) == [t0 + 600, t0 + 660, t0 + 720, t0 + 840, t0 + 900, t0 + 960];
  }

  // ---------------------------------------------------------------------------
  // Events and the checks made before creating one
  // ---------------------------------------------------------------------------

  /** What the calendar keeps of an event: its time window and the private `lead_email` property. */
  datatype CalendarEvent = CalendarEvent(start: int, end: int, leadEmail: string)

  function Interval(e: CalendarEvent): Busy
  {
    Busy(e.start, e.end)
  }

  /** The events a list call over [lo, hi) returns: those that end after `lo` and start before `hi`. */
  predicate Intersects(e: CalendarEvent, lo: int, hi: int)
  {
    e.start < hi && e.end > lo
  }

  function BusyBetween(events: map<EventId, CalendarEvent>, lo: int, hi: int): set<Busy>
  {
    set id | id in events && Intersects(events[id], lo, hi) :: Interval(events[id])
  }

  /** The errors the calendar functions raise. */
  datatype CalendarError =
    | CredentialsUnavailable   // get_calendar_service: ValueError
    | PastDate                 // ValueError("Cannot book an appointment in the past.")
    | SameDay                  // ValueError("Cannot book a same-day appointment. ...")
    | InvalidBusinessHour      // datetime.replace: ValueError
    | HttpError(status: int)   // googleapiclient.errors.HttpError
    | TransportError           // any other failure of the client call

  /** The errors raised as `ValueError`, which the voice booking endpoint answers with 400. */
  predicate IsValueError(e: CalendarError)
  {
    e.CredentialsUnavailable? || e.PastDate? || e.SameDay? || e.InvalidBusinessHour?
  }

  /**
   * The checks `create_calendar_event` makes before inserting: the past check
   * first, then the same-day check; a start that passes both gets the interval
   * [start, start + duration).
   */
  function ValidateBooking(start: int, now: int, s: Settings): (r: Result<Busy, CalendarError>)
    ensures r.Ok? <==> DayOf(start) > DayOf(now)
    ensures start < now ==> r == Err(PastDate)
    ensures r == Err(SameDay) <==> now <= start && DayOf(start) == DayOf(now)
    ensures r.Ok? ==> r.value == Busy(start, AppointmentEnd(start, s))
  {
    if start < now then
      DayOfMonotone(start, now);
      Err(PastDate)
    else if DayOf(start) == DayOf(now) then
      Err(SameDay)
    else
      DayOfMonotone(now, start);
      Ok(Busy(start, AppointmentEnd(start, s)))
  }

  /** `attendees[0] if attendees else 'N/A'`. */
  function LeadEmail(attendees: seq<string>): string
  {
    if |attendees| > 0 then attendees[0] else "N/A"
  }

  /** The event `find_event_by_details` looks for: this lead email, meeting [t, t + 1 minute). */
  predicate MatchesDetails(e: CalendarEvent, email: string, t: int)
  {
    e.leadEmail == email && Intersects(e, t, t + 1)
  }

  /** `events[0]['id'] if events else None`, with `None` for a failed list call too. */
  function FirstMatch(listing: Option<seq<EventId>>): (r: Option<EventId>)
    ensures r.Some? <==> listing.Some? && |listing.value| > 0
    ensures r.Some? ==> r.value == listing.value[0]
  {
    match listing
    case None => None
    case Some(ids) => if |ids| > 0 then Some(ids[0]) else None
  }

  /** What the provider answers to a delete call. */
  datatype ProviderReply = Done | HttpStatus(code: int) | TransportFailure

  const GoneStatus: int := 410
  const NotFoundStatus: int := 404

  /** `delete_calendar_event`: 410 (already deleted) counts as success, any other HTTP error is re-raised. */
  function DeleteResult(reply: ProviderReply): (r: Result<(), CalendarError>)
    ensures r.Ok? <==> reply.Done? || reply == HttpStatus(GoneStatus)
    ensures reply.HttpStatus? && reply.code != GoneStatus ==> r == Err(HttpError(reply.code))
    ensures reply.TransportFailure? ==> r == Err(TransportError)
  {
    match reply
    case Done => Ok(())
    case HttpStatus(code) => if code == GoneStatus then Ok(()) else Err(HttpError(code))
    case TransportFailure => Err(TransportError)
  }

  // ---------------------------------------------------------------------------
  // The calendar
  // ---------------------------------------------------------------------------

  /**
   * The Google calendar as the core sees it. `serviceReady` says whether
   * `get_calendar_service` can build a client; every provider call may fail.
   * Ids are handed out in order, so an id below `nextId` that is no longer in
   * `events` belongs to a deleted event.
   */
  class Calendar {
    const serviceReady: bool
    var events: map<EventId, CalendarEvent>
    var nextId: EventId

    ghost predicate Valid()
      reads this
    {
      forall id :: id in events ==> id < nextId
    }

    constructor (ready: bool)
      ensures Valid()
      ensures serviceReady == ready && events == map[] && nextId == 0
    {
      serviceReady := ready;
      events := map[];
      nextId := 0;
    }

    /** `events().list(timeMin=lo, timeMax=hi)`: fails, or lists every event intersecting [lo, hi). */
    method ListBusy(lo: int, hi: int) returns (r: Option<seq<Busy>>)
      ensures r.Some? ==> Elems(r.value) == BusyBetween(events, lo, hi)
    {
      var fails: bool := *;
      if fails {
        return None;
      }
      var pending := events.Keys;
      var listed: seq<Busy> := [];
      while pending != {}
        invariant pending <= events.Keys
        invariant forall b :: b in listed <==>
          exists id :: id in events && id !in pending && Intersects(events[id], lo, hi) && b == Interval(events[id])
        decreases pending
      {
        var id :| id in pending;
        if Intersects(events[id], lo, hi) {
          listed := listed + [Interval(events[id])];
        }
        pending := pending - {id};
      }
      return Some(listed);
    }

    /** The provider's filtered list call: fails, or lists the ids of every matching event. */
    method ListMatching(email: string, t: int) returns (r: Option<seq<EventId>>)
      ensures r.Some? ==> forall id :: id in r.value <==> id in events && MatchesDetails(events[id], email, t)
    {
      var fails: bool := *;
      if fails {
        return None;
      }
      var pending := events.Keys;
      var listed: seq<EventId> := [];
      while pending != {}
        invariant pending <= events.Keys
        invariant forall id :: id in listed <==> id in events && id !in pending && MatchesDetails(events[id], email, t)
        decreases pending
      {
        var id :| id in pending;
        if MatchesDetails(events[id], email, t) {
          listed := listed + [id];
        }
        pending := pending - {id};
      }
      return Some(listed);
    }

    /**
     * `create_calendar_event`: no client raises; then the past and same-day
     * checks; then the insert, which may fail. A created event spans
     * [start, start + duration) and carries the first attendee as lead email.
     */
    method CreateEvent(start: int, now: int, s: Settings, attendees: seq<string>) returns (r: Result<EventId, CalendarError>)
      requires Valid()
      modifies this
      ensures Valid()
      ensures !serviceReady ==> r == Err(CredentialsUnavailable)
      ensures serviceReady && ValidateBooking(start, now, s).Err? ==> r == Err(ValidateBooking(start, now, s).error)
      ensures r.Ok? ==>
        && serviceReady && ValidateBooking(start, now, s).Ok?
        && r.value == old(nextId) && r.value !in old(events)
        && events == old(events)[r.value := CalendarEvent(start, AppointmentEnd(start, s), LeadEmail(attendees))]
        && nextId == old(nextId) + 1
      ensures r.Err? ==> events == old(events) && nextId == old(nextId)
      ensures r.Err? && serviceReady && ValidateBooking(start, now, s).Ok? ==> !IsValueError(r.error)
    {
      if !serviceReady {
        return Err(CredentialsUnavailable);
      }
      var checked := ValidateBooking(start, now, s);
      if checked.Err? {
        return Err(checked.error);
      }
      var fails: bool := *;
      if fails {
        return Err(TransportError);
      }
      var id := nextId;
      events := events[id := CalendarEvent(start, checked.value.end, LeadEmail(attendees))];
      nextId := nextId + 1;
      return Ok(id);
    }

    /**
     * `update_calendar_event`: moves the event to [newStart, newStart + duration).
     * There is no past or same-day check on this path.
     */
    method UpdateEvent(id: EventId, newStart: int, s: Settings) returns (r: Result<(), CalendarError>)
      requires Valid()
      modifies this
      ensures Valid() && nextId == old(nextId)
      ensures !serviceReady ==> r == Err(CredentialsUnavailable)
      ensures serviceReady && id !in old(events) ==> r in {Err(HttpError(NotFoundStatus)), Err(TransportError)}
      ensures r.Ok? ==>
        && id in old(events)
        && events == old(events)[id := old(events)[id].(start := newStart, end := AppointmentEnd(newStart, s))]
      ensures r.Err? ==> events == old(events)
    {
      if !serviceReady {
        return Err(CredentialsUnavailable);
      }
      var fails: bool := *;
      if fails {
        return Err(TransportError);
      }
      if id !in events {
        return Err(HttpError(NotFoundStatus));
      }
      events := events[id := events[id].(start := newStart, end := AppointmentEnd(newStart, s))];
      return Ok(());
    }

    /**
     * The provider's delete call: 410 for an event already deleted, 404 for an
     * id never issued; the call itself may fail for any id.
     */
    method ProviderDelete(id: EventId) returns (reply: ProviderReply)
      requires Valid()
      modifies this
      ensures Valid() && nextId == old(nextId)
      ensures reply.Done? ==> id in old(events) && events == old(events) - {id}
      ensures !reply.Done? ==> events == old(events)
      ensures id !in old(events) && id < nextId ==> reply in {HttpStatus(GoneStatus), TransportFailure}
      ensures id >= nextId ==> reply in {HttpStatus(NotFoundStatus), TransportFailure}
      ensures id in old(events) && reply.HttpStatus? ==> reply.code != GoneStatus
    {
      var transportFails: bool := *;
      if transportFails {
        return TransportFailure;
      }
      if id >= nextId {
        return HttpStatus(NotFoundStatus);
      }
      if id !in events {
        return HttpStatus(GoneStatus);
      }
      var deleted: bool := *;
      if deleted {
        events := events - {id};
        reply := Done;
      } else {
        var code: int := *;
        if code == GoneStatus {
          code := NotFoundStatus;
        }
        reply := HttpStatus(code);
      }
    }

    /** `delete_calendar_event`: an event that is already gone counts as deleted, unless the call itself fails. */
    method DeleteCalendarEvent(id: EventId) returns (r: Result<(), CalendarError>)
      requires Valid()
      modifies this
      ensures Valid() && nextId == old(nextId)
      ensures !serviceReady ==> r == Err(CredentialsUnavailable)
      ensures serviceReady && id !in old(events) && id < nextId ==> r.Ok? || r == Err(TransportError)
      ensures serviceReady && id >= nextId ==> r in {Err(HttpError(NotFoundStatus)), Err(TransportError)}
      ensures r.Ok? ==> events == old(events) - {id}
      ensures r.Err? ==> events == old(events)
    {
      if !serviceReady {
        return Err(CredentialsUnavailable);
      }
      var reply := ProviderDelete(id);
      r := DeleteResult(reply);
    }

    /**
     * `find_event_by_details`: the first event with this lead email that meets
     * [t, t + 1 minute), or None; a failed list call also gives None.
     */
    method FindEventByDetails(email: string, t: int) returns (r: Result<Option<EventId>, CalendarError>, ghost listingFailed: bool)
      ensures !serviceReady ==> r == Err(CredentialsUnavailable)
      ensures serviceReady ==> r.Ok?
      ensures r.Ok? && r.value.Some? ==> r.value.value in events && MatchesDetails(events[r.value.value], email, t)
      ensures r.Ok? && !listingFailed ==>
        (r.value.None? <==> forall id :: id in events ==> !MatchesDetails(events[id], email, t))
      ensures listingFailed ==> r == Ok(None)
    {
      listingFailed := false;
      if !serviceReady {
        return Err(CredentialsUnavailable), listingFailed;
      }
      var listing := ListMatching(email, t);
      listingFailed := listing.None?;
      r := Ok(FirstMatch(listing));
      if r.value.Some? {
        assert r.value.value in listing.value;
      }
    }
  }

  /**
   * `get_available_slots`: the client is built first (and its failure raises);
   * a date that does not parse gives []; the business hours must be valid
   * hours; a failed list call gives []; otherwise the slots of that day against
   * every event the calendar lists for [dayStart, dayStart + 24h).
   * `sourceUnavailable` records the logged case of a failed list call.
   */
  method GetAvailableSlots(cal: Calendar, s: Settings, date: string, parseIso: string -> Option<int>)
    returns (r: Result<seq<int>, CalendarError>, ghost sourceUnavailable: bool)
    ensures !cal.serviceReady ==> r == Err(CredentialsUnavailable)
    ensures cal.serviceReady && parseIso(date).None? ==> r == Ok([])
    ensures cal.serviceReady && parseIso(date).Some? && !HoursValid(s) ==> r == Err(InvalidBusinessHour)
    ensures r.Err? ==> !cal.serviceReady || (parseIso(date).Some? && !HoursValid(s))
    ensures sourceUnavailable ==> r == Ok([])
    ensures cal.serviceReady && parseIso(date).Some? && HoursValid(s) && !sourceUnavailable ==>
      var dayStart := parseIso(date).value;
      r == Ok(DaySlots(dayStart, s, BusyBetween(cal.events, dayStart, dayStart + MinutesPerDay)))
  {
    sourceUnavailable := false;
    if !cal.serviceReady {
      return Err(CredentialsUnavailable), sourceUnavailable;
    }
    var parsed := parseIso(date);
    if parsed.None? {
      return Ok([]), sourceUnavailable;
    }
    if !HoursValid(s) {
      return Err(InvalidBusinessHour), sourceUnavailable;
    }
    var dayStart := parsed.value;
    var listing := cal.ListBusy(dayStart, dayStart + MinutesPerDay);
    if listing.None? {
      sourceUnavailable := true;
      return Ok([]), sourceUnavailable;
    }
    var slots := ComputeSlots(WorkStart(dayStart, s), WorkEnd(dayStart, s), s.appointmentDurationMinutes, listing.value);
    return Ok(slots), sourceUnavailable;
  }

  /** An event on the calendar that the day's list call returns blocks every slot it meets. */
  lemma ListedEventBlocksSlots(events: map<EventId, CalendarEvent>, id: EventId, dayStart: int, s: Settings, t: int)
    requires id in events && Intersects(events[id], dayStart, dayStart + MinutesPerDay)
    requires t in DaySlots(dayStart, s, BusyBetween(events, dayStart, dayStart + MinutesPerDay))
    ensures !Overlaps(t, s.appointmentDurationMinutes, Interval(events[id]))
  {
    var busy := BusyBetween(events, dayStart, dayStart + MinutesPerDay);
    SlotStartsExactly(WorkStart(dayStart, s), WorkEnd(dayStart, s), s.appointmentDurationMinutes, busy, t);
    assert Interval(events[id]) in busy;
  }

  /**
   * For a plain date (local midnight) every event the returned slots could
   * meet lies inside the fetched day, so no returned slot meets any event on
   * the calendar.
   */
  lemma DaySlotsAvoidEveryEvent(events: map<EventId, CalendarEvent>, dayStart: int, s: Settings, t: int)
    requires dayStart == StartOfDay(dayStart) && HoursValid(s)
    requires t in DaySlots(dayStart, s, BusyBetween(events, dayStart, dayStart + MinutesPerDay))
    ensures forall id :: id in events ==> !Overlaps(t, s.appointmentDurationMinutes, Interval(events[id]))
  {
    var d := s.appointmentDurationMinutes;
    var busy := BusyBetween(events, dayStart, dayStart + MinutesPerDay);
    SlotStartsExactly(WorkStart(dayStart, s), WorkEnd(dayStart, s), d, busy, t);
    forall id | id in events && Overlaps(t, d, Interval(events[id]))
      ensures Interval(events[id]) in busy
    {
    }
  }
}
