/**
 * The text agent's tools: the availability summary, the provisional booking
 * that waits for the e-mailed confirmation link, and cancel and reschedule,
 * which act on the calendar event found by the lead's address and start.
 */
module CustomTools {
  import opened Wrappers
  import opened Clock
  import opened GoogleCalendar
  import opened Meetings

  // ---------------------------------------------------------------------------
  // check_availability
  // ---------------------------------------------------------------------------

  /** What `json.loads` makes of the tool input, as far as the tool looks at it. */
  datatype JsonView =
    | NotJson                      // JSONDecodeError or TypeError: the input is the date
    | ObjectWithDate(date: string) // an object with a string under "date"
    | ObjectWithoutDate            // an object without "date": the input is the date
    | Unusable                     // any other JSON value: `.get` or the parse raises

  /** The date the tool checks, or None when extracting it raises. */
  function DateToCheck(input: string, view: JsonView): (r: Option<string>)
    ensures view.ObjectWithDate? ==> r == Some(view.date)
    ensures view.NotJson? || view.ObjectWithoutDate? ==> r == Some(input)
    ensures r.None? <==> view.Unusable?
  {
    match view
    case NotJson => Some(input)
    case ObjectWithDate(date) => Some(date)
    case ObjectWithoutDate => Some(input)
    case Unusable => None
  }

  /** The replies of `check_availability`. */
  datatype AvailabilityReply =
    | InvalidDate(date: string)
    | NoSlots(date: string)
    | SlotsWithoutHourly(date: string)
    | Suggestions(date: string, times: seq<string>)
    | Failed

  const SuggestionsCount: nat := 5

  /**
   * The slots the loop suggests: in order, a slot on the hour whose hour is
   * not yet in `seen`, until `room` suggestions are made.
   */
  function HourlyPicks(slots: seq<int>, seen: set<int>, room: nat): seq<int>
    decreases |slots|
  {
    if |slots| == 0 || room == 0 then []
    else if MinuteOf(slots[0]) == 0 && HourOf(slots[0]) !in seen then
      [slots[0]] + HourlyPicks(slots[1..], seen + {HourOf(slots[0])}, room - 1)
    else HourlyPicks(slots[1..], seen, room)
  }

  /** The rendering of each picked slot, in order. */
  function RenderAll(ts: seq<int>, render: int -> string): (r: seq<string>)
    ensures |r| == |ts|
    ensures forall i :: 0 <= i < |ts| ==> r[i] == render(ts[i])
  {
    if |ts| == 0 then [] else [render(ts[0])] + RenderAll(ts[1..], render)
  }

  /** `a` is `b` with some elements left out, the rest in order. */
  predicate IsSubsequence(a: seq<int>, b: seq<int>)
    decreases |b|
  {
    if |a| == 0 then true
    else if |b| == 0 then false
    else if a[0] == b[0] then IsSubsequence(a[1..], b[1..])
    else IsSubsequence(a, b[1..])
  }

  /** At most `room` suggestions. */
  lemma {:induction false} HourlyPicksAtMost(slots: seq<int>, seen: set<int>, room: nat)
    ensures |HourlyPicks(slots, seen, room)| <= room
    decreases |slots|
  {
    if |slots| > 0 && room > 0 {
      if MinuteOf(slots[0]) == 0 && HourOf(slots[0]) !in seen {
        HourlyPicksAtMost(slots[1..], seen + {HourOf(slots[0])}, room - 1);
      } else {
        HourlyPicksAtMost(slots[1..], seen, room);
      }
    }
  }

  /** The suggestions keep the order of the slots they come from. */
  lemma {:induction false} HourlyPicksInOrder(slots: seq<int>, seen: set<int>, room: nat)
    ensures IsSubsequence(HourlyPicks(slots, seen, room), slots)
    decreases |slots|
  {
    if |slots| > 0 && room > 0 {
      if MinuteOf(slots[0]) == 0 && HourOf(slots[0]) !in seen {
        HourlyPicksInOrder(slots[1..], seen + {HourOf(slots[0])}, room - 1);
      } else {
        HourlyPicksInOrder(slots[1..], seen, room);
        SubsequenceWeaken(HourlyPicks(slots[1..], seen, room), slots[1..], slots[0]);
        assert [slots[0]] + slots[1..] == slots;
      }
    }
  }

  /** Putting an element in front of the larger sequence keeps a subsequence one. */
  lemma {:induction false} SubsequenceWeaken(a: seq<int>, b: seq<int>, x: int)
    requires IsSubsequence(a, b)
    ensures IsSubsequence(a, [x] + b)
    decreases |b|, 1
  {
    if |a| > 0 {
      assert ([x] + b)[1..] == b;
      if a[0] == x {
        SubsequenceDropHead(a, b);
      }
    }
  }

  /** Leaving out the first element of a subsequence keeps it one. */
  lemma {:induction false} SubsequenceDropHead(a: seq<int>, b: seq<int>)
    requires |a| > 0 && IsSubsequence(a, b)
    ensures IsSubsequence(a[1..], b)
    decreases |b|, 0
  {
    assert |b| > 0;
    assert [b[0]] + b[1..] == b;
    if a[0] == b[0] {
      SubsequenceWeaken(a[1..], b[1..], b[0]);
    } else {
      SubsequenceDropHead(a, b[1..]);
      SubsequenceWeaken(a[1..], b[1..], b[0]);
    }
  }

  /** Every time is on the hour, at an hour not in `seen`, and no hour comes twice. */
  predicate OnTheHourOnce(r: seq<int>, seen: set<int>)
  {
    && (forall i :: 0 <= i < |r| ==> MinuteOf(r[i]) == 0 && HourOf(r[i]) !in seen)
    && (forall i, j :: 0 <= i < j < |r| ==> HourOf(r[i]) != HourOf(r[j]))
  }

  /** Every suggestion is on the hour, at an hour not in `seen`, and no hour is suggested twice. */
  lemma {:induction false} HourlyPicksOnTheHour(slots: seq<int>, seen: set<int>, room: nat)
    ensures OnTheHourOnce(HourlyPicks(slots, seen, room), seen)
    decreases |slots|
  {
    if |slots| > 0 && room > 0 {
      if MinuteOf(slots[0]) == 0 && HourOf(slots[0]) !in seen {
        var seen' := seen + {HourOf(slots[0])};
        HourlyPicksOnTheHour(slots[1..], seen', room - 1);
        PrependHour(slots[0], HourlyPicks(slots[1..], seen', room - 1), seen);
      } else {
        HourlyPicksOnTheHour(slots[1..], seen, room);
      }
    }
  }

  /** A time on a new hour in front of times on other hours. */
  lemma PrependHour(t: int, rest: seq<int>, seen: set<int>)
    requires MinuteOf(t) == 0 && HourOf(t) !in seen
    requires OnTheHourOnce(rest, seen + {HourOf(t)})
    ensures OnTheHourOnce([t] + rest, seen)
  {
    var r := [t] + rest;
    forall i | 0 < i < |r|
      ensures r[i] == rest[i - 1]
    {
    }
  }

  /** Slots that are all on the hour, at distinct hours none of which is in `seen`, are suggested as they come. */
  lemma {:induction false} HourlyPicksOfHourlySlots(slots: seq<int>, seen: set<int>, room: nat)
    requires OnTheHourOnce(slots, seen)
    ensures HourlyPicks(slots, seen, room) == slots[..if room < |slots| then room else |slots|]
    decreases |slots|
  {
    if |slots| > 0 && room > 0 {
      var seen' := seen + {HourOf(slots[0])};
      var rest := slots[1..];
      forall i | 0 <= i < |rest|
        ensures MinuteOf(rest[i]) == 0 && HourOf(rest[i]) !in seen'
      {
        assert rest[i] == slots[i + 1];
      }
      forall i, j | 0 <= i < j < |rest|
        ensures HourOf(rest[i]) != HourOf(rest[j])
      {
        assert rest[i] == slots[i + 1] && rest[j] == slots[j + 1];
      }
      HourlyPicksOfHourlySlots(rest, seen', room - 1);
      var n := if room < |slots| then room else |slots|;
      assert slots[..n] == [slots[0]] + rest[..n - 1];
    }
  }

  /** An instant a whole number of hours after midnight is on the hour, at that hour. */
  lemma GridHour(day: int, h: int)
    requires 0 <= h < 24
    ensures MinuteOf(day * MinutesPerDay + h * MinutesPerHour) == 0
    ensures HourOf(day * MinutesPerDay + h * MinutesPerHour) == h
  {
    var t := day * MinutesPerDay + h * MinutesPerHour;
    WithinDay(day, h * MinutesPerHour);
    assert t == (day * 24 + h) * MinutesPerHour;
  }

  /** A start on the slot grid of a valid working day is on the hour, counted from the opening hour. */
  lemma SlotHour(dayStart: int, s: Settings, t: int)
    requires HoursValid(s)
    requires IsCandidate(WorkStart(dayStart, s), WorkEnd(dayStart, s), s.appointmentDurationMinutes, t)
    ensures MinuteOf(t) == 0
    ensures HourOf(t) == s.businessHoursStart + (t - WorkStart(dayStart, s)) / MinutesPerHour
  {
    var ws := WorkStart(dayStart, s);
    var k := (t - ws) / MinutesPerHour;
    assert t == ws + MinutesPerHour * k;
    var h := s.businessHoursStart + k;
    assert 0 <= k && h < s.businessHoursEnd;
    assert t == DayOf(dayStart) * MinutesPerDay + h * MinutesPerHour;
    GridHour(DayOf(dayStart), h);
  }

  /** With valid business hours, the day's slots are on the hour and at strictly increasing hours. */
  lemma DaySlotsOnTheHour(dayStart: int, s: Settings, busy: set<Busy>)
    requires HoursValid(s)
    ensures var slots := DaySlots(dayStart, s, busy);
      && (forall i :: 0 <= i < |slots| ==> MinuteOf(slots[i]) == 0)
      && (forall i, j :: 0 <= i < j < |slots| ==> HourOf(slots[i]) < HourOf(slots[j]))
  {
    var slots := DaySlots(dayStart, s, busy);
    var ws, we, d := WorkStart(dayStart, s), WorkEnd(dayStart, s), s.appointmentDurationMinutes;
    SlotStartsIncreasing(ws, we, d, busy);
    forall i | 0 <= i < |slots|
      ensures IsCandidate(ws, we, d, slots[i])
      ensures MinuteOf(slots[i]) == 0 && HourOf(slots[i]) == s.businessHoursStart + (slots[i] - ws) / MinutesPerHour
    {
      SlotStartsExactly(ws, we, d, busy, slots[i]);
      SlotHour(dayStart, s, slots[i]);
    }
    forall i, j | 0 <= i < j < |slots|
      ensures HourOf(slots[i]) < HourOf(slots[j])
    {
      assert slots[i] < slots[j];
    }
  }

  /** So `check_availability` suggests exactly the first five slots of the day, or all of them when fewer. */
  lemma DaySuggestionsAreFirstSlots(dayStart: int, s: Settings, busy: set<Busy>)
    requires HoursValid(s)
    ensures var slots := DaySlots(dayStart, s, busy);
      HourlyPicks(slots, {}, SuggestionsCount) == slots[..if SuggestionsCount < |slots| then SuggestionsCount else |slots|]
  {
    var slots := DaySlots(dayStart, s, busy);
    DaySlotsOnTheHour(dayStart, s, busy);
    HourlyPicksOfHourlySlots(slots, {}, SuggestionsCount);
  }

  /** One step of the selection: the first slot is taken or skipped. */
  lemma HourlyPicksStep(rest: seq<int>, seen: set<int>, room: nat)
    requires |rest| > 0 && room > 0
    ensures HourlyPicks(rest, seen, room) ==
      if MinuteOf(rest[0]) == 0 && HourOf(rest[0]) !in seen
      then [rest[0]] + HourlyPicks(rest[1..], seen + {HourOf(rest[0])}, room - 1)
      else HourlyPicks(rest[1..], seen, room)
  {
  }

  /** Rendering one more time appends its rendering. */
  lemma RenderAllAppend(ts: seq<int>, t: int, render: int -> string)
    ensures RenderAll(ts + [t], render) == RenderAll(ts, render) + [render(t)]
  {
    var a, b := RenderAll(ts + [t], render), RenderAll(ts, render) + [render(t)];
    assert |a| == |b|;
    forall k | 0 <= k < |a|
      ensures a[k] == b[k]
    {
      assert (ts + [t])[k] == if k < |ts| then ts[k] else t;
    }
  }

  /** The loop's invariant: `picked` followed by what the rest would give is the whole selection. */
  predicate SelectedSoFar(slots: seq<int>, i: int, picked: seq<int>, seen: set<int>)
  {
    0 <= i <= |slots| && |picked| <= SuggestionsCount
    && HourlyPicks(slots, {}, SuggestionsCount) == picked + HourlyPicks(slots[i..], seen, SuggestionsCount - |picked|)
  }

  /** One pass of the loop body keeps the invariant, taking or skipping `slots[i]`. */
  lemma SelectStep(slots: seq<int>, i: int, picked: seq<int>, seen: set<int>)
    requires SelectedSoFar(slots, i, picked, seen) && i < |slots| && |picked| < SuggestionsCount
    ensures MinuteOf(slots[i]) == 0 && HourOf(slots[i]) !in seen ==>
      SelectedSoFar(slots, i + 1, picked + [slots[i]], seen + {HourOf(slots[i])})
    ensures !(MinuteOf(slots[i]) == 0 && HourOf(slots[i]) !in seen) ==> SelectedSoFar(slots, i + 1, picked, seen)
  {
    var rest := slots[i..];
    var room: nat := SuggestionsCount - |picked|;
    assert rest[0] == slots[i] && rest[1..] == slots[i + 1..];
    HourlyPicksStep(rest, seen, room);
    var t := slots[i];
    if MinuteOf(t) == 0 && HourOf(t) !in seen {
      assert picked + ([t] + HourlyPicks(slots[i + 1..], seen + {HourOf(t)}, room - 1))
        == (picked + [t]) + HourlyPicks(slots[i + 1..], seen + {HourOf(t)}, room - 1);
    }
  }

  /** When the loop ends, by running out of slots or by the `break`, `picked` is the whole selection. */
  lemma SelectDone(slots: seq<int>, i: int, picked: seq<int>, seen: set<int>)
    requires SelectedSoFar(slots, i, picked, seen) && (i == |slots| || |picked| == SuggestionsCount)
    ensures HourlyPicks(slots, {}, SuggestionsCount) == picked
  {
    assert HourlyPicks(slots[i..], seen, SuggestionsCount - |picked|) == [];
    assert picked + [] == picked;
  }

  /** The suggestion loop, with its `break` once five times are formatted. */
  method SelectSuggestions(slots: seq<int>, renderClock: int -> string) returns (times: seq<string>)
    ensures times == RenderAll(HourlyPicks(slots, {}, SuggestionsCount), renderClock)
  {
    times := [];
    ghost var picked: seq<int> := [];
    var hoursAdded: set<int> := {};
    var i := 0;
    assert slots[0..] == slots;
    while i < |slots|
      invariant SelectedSoFar(slots, i, picked, hoursAdded)
      invariant |times| == |picked| && times == RenderAll(picked, renderClock)
    {
      if |times| >= SuggestionsCount {
        break;
      }
      var t := slots[i];
      SelectStep(slots, i, picked, hoursAdded);
      if MinuteOf(t) == 0 && HourOf(t) !in hoursAdded {
        RenderAllAppend(picked, t, renderClock);
        times := times + [renderClock(t)];
        hoursAdded := hoursAdded + {HourOf(t)};
        picked := picked + [t];
      }
      i := i + 1;
    }
    SelectDone(slots, i, picked, hoursAdded);
  }

  /**
   * `check_availability`: the date is taken from a JSON object's "date" or is
   * the input itself; a date that does not parse is named in the reply; an
   * empty day gives the "no slots" reply; otherwise the suggested times.
   * Any exception gives the generic failure reply.
   */
  method CheckAvailability(cal: Calendar, s: Settings, dateInput: string, decodeJson: string -> JsonView,
                           parseIso: string -> Option<int>, renderClock: int -> string)
    returns (reply: AvailabilityReply, ghost sourceUnavailable: bool)
    ensures DateToCheck(dateInput, decodeJson(dateInput)).None? ==> reply == Failed
    ensures var date := DateToCheck(dateInput, decodeJson(dateInput));
      date.Some? && parseIso(date.value).None? ==> reply == InvalidDate(date.value)
    ensures reply.NoSlots? || reply.Suggestions? ==>
      var date := DateToCheck(dateInput, decodeJson(dateInput));
      && date.Some? && parseIso(date.value).Some? && cal.serviceReady && HoursValid(s)
      && reply.date == date.value
    ensures reply.Suggestions? ==>
      var dayStart := parseIso(reply.date).value;
      var slots := DaySlots(dayStart, s, BusyBetween(cal.events, dayStart, dayStart + MinutesPerDay));
      && 0 < |reply.times| <= SuggestionsCount
      && reply.times == RenderAll(slots[..if SuggestionsCount < |slots| then SuggestionsCount else |slots|], renderClock)
    ensures !reply.SlotsWithoutHourly?
    ensures var date := DateToCheck(dateInput, decodeJson(dateInput));
      date.Some? && parseIso(date.value).Some? && cal.serviceReady && HoursValid(s) && !sourceUnavailable ==>
      var dayStart := parseIso(date.value).value;
      var slots := DaySlots(dayStart, s, BusyBetween(cal.events, dayStart, dayStart + MinutesPerDay));
      (reply == NoSlots(date.value) <==> |slots| == 0) && (reply.Suggestions? <==> |slots| > 0)
    ensures sourceUnavailable ==> reply.NoSlots?
    ensures reply.InvalidDate? ==>
      var date := DateToCheck(dateInput, decodeJson(dateInput));
      date.Some? && parseIso(date.value).None?
    ensures reply == Failed ==> DateToCheck(dateInput, decodeJson(dateInput)).None? || !cal.serviceReady || !HoursValid(s)
  {
    sourceUnavailable := false;
    var date := DateToCheck(dateInput, decodeJson(dateInput));
    if date.None? {
      return Failed, sourceUnavailable;
    }
    var d := date.value;
    if parseIso(d).None? {
      return InvalidDate(d), sourceUnavailable;
    }
    var slots;
    slots, sourceUnavailable := GetAvailableSlots(cal, s, d, parseIso);
    if slots.Err? {
      return Failed, sourceUnavailable;
    }
    if |slots.value| == 0 {
      return NoSlots(d), sourceUnavailable;
    }
    var dayStart := parseIso(d).value;
    DaySuggestionsAreFirstSlots(dayStart, s, BusyBetween(cal.events, dayStart, dayStart + MinutesPerDay));
    var times := SelectSuggestions(slots.value, renderClock);
    if |times| == 0 {
      return SlotsWithoutHourly(d), sourceUnavailable;
    }
    return Suggestions(d, times), sourceUnavailable;
  }

  /**
   * `check_availability` as written. The module never imports `datetime`, so
   * the format check raises NameError for every date it reaches, and the outer
   * handler answers with the generic failure. (Were that fixed, `parse` and
   * `SAST_TZ` are not imported either, so every slot would be skipped by the
   * inner handler and the reply would never list a time.)
   */
  method CheckAvailabilityAsWritten(dateInput: string, decodeJson: string -> JsonView)
    returns (reply: AvailabilityReply)
    ensures reply == Failed
  {
    var date := DateToCheck(dateInput, decodeJson(dateInput));
    if date.None? {
      return Failed;
    }
    // `datetime.datetime.fromisoformat(date_to_check)` raises NameError here.
    reply := Failed;
  }

  /**
   * A day the corrected tool answers with five times while the code as written
   * fails: 09:00-17:00, one-hour slots, one meeting at 13:00.
   */
  lemma SuggestionsScenario(day: int)
    ensures var t0 := day * MinutesPerDay;
      var slots := DaySlots(t0, Settings(9, 17, 60), {Busy(t0 + 780, t0 + 840)});
      HourlyPicks(slots, {}, SuggestionsCount) == [t0 + 540, t0 + 600, t0 + 660, t0 + 720, t0 + 840]
  {
    var t0 := day * MinutesPerDay;
    DaySlotsScenario(day);
    DaySuggestionsAreFirstSlots(t0, Settings(9, 17, 60), {Busy(t0 + 780, t0 + 840)});
  }

  /**
   * The finding in one place: for a date that parses, with credentials and
   * valid hours, the code as written answers with the generic failure, while
   * the corrected tool answers otherwise, and lists times when the day has
   * open slots and the list call worked.
   */
  method AsWrittenVersusCorrected(cal: Calendar, s: Settings, dateInput: string, decodeJson: string -> JsonView,
                                  parseIso: string -> Option<int>, renderClock: int -> string)
    returns (asWritten: AvailabilityReply, corrected: AvailabilityReply, ghost sourceUnavailable: bool)
    requires DateToCheck(dateInput, decodeJson(dateInput)).Some?
    requires parseIso(DateToCheck(dateInput, decodeJson(dateInput)).value).Some?
    requires cal.serviceReady && HoursValid(s)
    ensures asWritten == Failed && corrected != asWritten
    ensures var dayStart := parseIso(DateToCheck(dateInput, decodeJson(dateInput)).value).value;
      !sourceUnavailable && DaySlots(dayStart, s, BusyBetween(cal.events, dayStart, dayStart + MinutesPerDay)) != [] ==>
      corrected.Suggestions?
  {
    asWritten := CheckAvailabilityAsWritten(dateInput, decodeJson);
    corrected, sourceUnavailable := CheckAvailability(cal, s, dateInput, decodeJson, parseIso, renderClock);
  }

  // ---------------------------------------------------------------------------
  // book_zappies_onboarding_call_from_json
  // ---------------------------------------------------------------------------

  /** The validated booking arguments. */
  datatype BookingArgs = BookingArgs(
    fullName: string,
    email: string,
    companyName: string,
    startTime: int,
    goal: string,
    monthlyBudget: real)

  /** The replies of the booking tool. */
  datatype BookingReply = InvalidBookingDetails | Disqualified(budget: real) | Provisional(fullName: string) | CannotBook

  const MinimumBudget: real := 8000.0

  /** The row the agent flow inserts: awaiting the link, with no event and no phone number. */
  function PendingMeeting(a: BookingArgs): (m: Meeting)
    ensures m.status == PendingConfirmation && m.eventId.None? && !HasPhone(m)
    ensures !m.reminder24hSent && !m.reminderMorningSent && !m.reminder1hSent
    ensures m.fullName == a.fullName && m.email == a.email && m.startTime == a.startTime && m.monthlyBudget == a.monthlyBudget
  {
    Meeting(a.fullName, a.email, a.companyName, a.startTime, a.goal, a.monthlyBudget, None, None,
            PendingConfirmation, false, false, false)
  }

  /**
   * The confirmation e-mail with its link. It is not part of this model's
   * source; it may raise.
   */
  method SendConfirmationEmail(recipient: string, fullName: string, startTime: int, meeting: MeetingId) returns (raised: bool)
  {
    raised := *;
  }

  /**
   * `book_zappies_onboarding_call_from_json`: details that do not decode or
   * validate are refused; a budget below 8000 is disqualified and nothing is
   * written; otherwise the pending row is inserted and the link e-mailed.
   * A failing insert or e-mail gives the "cannot book" reply; after a failing
   * e-mail the row stays.
   */
  method BookOnboardingCall(table: MeetingTable, args: Option<BookingArgs>)
    returns (reply: BookingReply, inserted: Option<MeetingId>)
    requires table.Valid()
    modifies table
    ensures table.Valid()
    ensures reply == InvalidBookingDetails <==> args.None?
    ensures args.Some? && args.value.monthlyBudget < MinimumBudget ==> reply == Disqualified(args.value.monthlyBudget)
    ensures reply.Disqualified? ==> args.Some? && args.value.monthlyBudget < MinimumBudget
    ensures inserted.None? ==> table.rows == old(table.rows)
    ensures inserted.Some? ==>
      && args.Some? && args.value.monthlyBudget >= MinimumBudget
      && inserted.value !in old(table.rows)
      && table.rows == old(table.rows)[inserted.value := PendingMeeting(args.value)]
    ensures reply.Provisional? ==> inserted.Some? && reply.fullName == args.value.fullName
    ensures args.Some? && args.value.monthlyBudget >= MinimumBudget ==>
      && (reply.Provisional? || reply == CannotBook)
      && (inserted.None? ==> reply == CannotBook)
  {
    inserted := None;
    if args.None? {
      return InvalidBookingDetails, inserted;
    }
    var a := args.value;
    if a.monthlyBudget < MinimumBudget {
      return Disqualified(a.monthlyBudget), inserted;
    }
    inserted := table.Insert(PendingMeeting(a));
    if inserted.None? {
      return CannotBook, inserted;
    }
    var raised := SendConfirmationEmail(a.email, a.fullName, a.startTime, inserted.value);
    if raised {
      return CannotBook, inserted;
    }
    return Provisional(a.fullName), inserted;
  }

  // ---------------------------------------------------------------------------
  // cancel_appointment_from_json and reschedule_appointment_from_json
  // ---------------------------------------------------------------------------

  datatype CancelArgs = CancelArgs(email: string, originalStart: int)
  datatype RescheduleArgs = RescheduleArgs(email: string, originalStart: int, newStart: int)

  /** The replies of cancel and reschedule. */
  datatype ManageReply =
    | InvalidDetails
    | NoAppointmentFor(email: string)
    | CancelDone
    | CancelFailed(error: CalendarError)
    | RescheduleDone(newStart: int)
    | RescheduleFailed(error: CalendarError)

  /**
   * `cancel_appointment_from_json`. The lookup sits outside the try block, so
   * its failure (no credentials) leaves the tool as an error. A lookup that
   * finds nothing deletes nothing. Only the calendar is touched.
   */
  method CancelAppointment(cal: Calendar, args: Option<CancelArgs>)
    returns (r: Result<ManageReply, CalendarError>, target: Option<EventId>, ghost listingFailed: bool)
    requires cal.Valid()
    modifies cal
    ensures cal.Valid()
    ensures r == Ok(InvalidDetails) <==> args.None?
    ensures args.Some? && !cal.serviceReady ==> r == Err(CredentialsUnavailable)
    ensures r.Err? || target.None? ==> cal.events == old(cal.events)
    ensures args.Some? && cal.serviceReady && target.None? ==> r == Ok(NoAppointmentFor(args.value.email))
    ensures target.Some? ==> r.Ok? && (r.value.CancelDone? || r.value.CancelFailed?)
    ensures r.Ok? && r.value.NoAppointmentFor? ==> target.None? && args.Some? && r.value.email == args.value.email
    ensures target.Some? ==>
      && args.Some? && target.value in old(cal.events)
      && MatchesDetails(old(cal.events)[target.value], args.value.email, args.value.originalStart)
    ensures r == Ok(CancelDone) ==> target.Some? && cal.events == old(cal.events) - {target.value}
    ensures r.Ok? && r.value.CancelFailed? ==> target.Some? && cal.events == old(cal.events)
    ensures listingFailed ==> args.Some? && r == Ok(NoAppointmentFor(args.value.email))
    ensures args.Some? && cal.serviceReady && !listingFailed ==>
      (target.None? <==> forall id :: id in old(cal.events) ==> !MatchesDetails(old(cal.events)[id], args.value.email, args.value.originalStart))
  {
    target, listingFailed := None, false;
    if args.None? {
      return Ok(InvalidDetails), target, listingFailed;
    }
    var a := args.value;
    var found;
    found, listingFailed := cal.FindEventByDetails(a.email, a.originalStart);
    if found.Err? {
      return Err(found.error), target, listingFailed;
    }
    if found.value.None? {
      return Ok(NoAppointmentFor(a.email)), target, listingFailed;
    }
    target := found.value;
    var deleted := cal.DeleteCalendarEvent(target.value);
    if deleted.Err? {
      return Ok(CancelFailed(deleted.error)), target, listingFailed;
    }
    return Ok(CancelDone), target, listingFailed;
  }

  /**
   * `reschedule_appointment_from_json`: as cancel, but the found event is
   * moved to [newStart, newStart + duration), with no past or same-day check.
   */
  method RescheduleAppointment(cal: Calendar, s: Settings, args: Option<RescheduleArgs>)
    returns (r: Result<ManageReply, CalendarError>, target: Option<EventId>, ghost listingFailed: bool)
    requires cal.Valid()
    modifies cal
    ensures cal.Valid()
    ensures r == Ok(InvalidDetails) <==> args.None?
    ensures args.Some? && !cal.serviceReady ==> r == Err(CredentialsUnavailable)
    ensures r.Err? || target.None? ==> cal.events == old(cal.events)
    ensures args.Some? && cal.serviceReady && target.None? ==> r == Ok(NoAppointmentFor(args.value.email))
    ensures target.Some? ==> r.Ok? && (r.value.RescheduleDone? || r.value.RescheduleFailed?)
    ensures r.Ok? && r.value.NoAppointmentFor? ==> target.None? && args.Some? && r.value.email == args.value.email
    ensures target.Some? ==>
      && args.Some? && target.value in old(cal.events)
      && MatchesDetails(old(cal.events)[target.value], args.value.email, args.value.originalStart)
    ensures r.Ok? && r.value.RescheduleDone? ==>
      && target.Some? && r.value.newStart == args.value.newStart
      && var old_event := old(cal.events)[target.value];
         cal.events == old(cal.events)[target.value := old_event.(start := args.value.newStart,
                                                                   end := AppointmentEnd(args.value.newStart, s))]
    ensures r.Ok? && r.value.RescheduleFailed? ==> target.Some? && cal.events == old(cal.events)
    ensures listingFailed ==> args.Some? && r == Ok(NoAppointmentFor(args.value.email))
    ensures args.Some? && cal.serviceReady && !listingFailed ==>
      (target.None? <==> forall id :: id in old(cal.events) ==> !MatchesDetails(old(cal.events)[id], args.value.email, args.value.originalStart))
  {
    target, listingFailed := None, false;
    if args.None? {
      return Ok(InvalidDetails), target, listingFailed;
    }
    var a := args.value;
    var found;
    found, listingFailed := cal.FindEventByDetails(a.email, a.originalStart);
    if found.Err? {
      return Err(found.error), target, listingFailed;
    }
    if found.value.None? {
      return Ok(NoAppointmentFor(a.email)), target, listingFailed;
    }
    target := found.value;
    var updated := cal.UpdateEvent(target.value, a.newStart, s);
    if updated.Err? {
      return Ok(RescheduleFailed(updated.error)), target, listingFailed;
    }
    return Ok(RescheduleDone(a.newStart)), target, listingFailed;
  }
}
