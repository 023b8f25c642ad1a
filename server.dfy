/**
 * The three endpoints of the web server that change or read booking state:
 * the e-mailed confirmation link, the voice agent's availability query and
 * the voice agent's immediate booking.
 */
module Server {
  import opened Wrappers
  import opened Clock
  import opened GoogleCalendar
  import opened Meetings
  import Notifications

  // ---------------------------------------------------------------------------
  // Confirmation link
  // ---------------------------------------------------------------------------

  /** The HTML pages `confirm_meeting` answers with. */
  datatype ConfirmPage = NotFound | AlreadyConfirmed | ThankYou | DatabaseError | GenericError

  /**
   * The attendee list `confirm_meeting` hands to `create_calendar_event` as
   * the code is written: empty, so the event's lead email becomes "N/A".
   */
  function ConfirmAttendeesAsWritten(m: Meeting): seq<string>
  {
    []
  }

  /** The evidently intended attendee list: the lead's own address. */
  function ConfirmAttendees(m: Meeting): (r: seq<string>)
    ensures LeadEmail(r) == m.email
  {
    [m.email]
  }

  /**
   * As written, the event a confirmation creates is never found by
   * `find_event_by_details` under the lead's address (unless that address is
   * literally "N/A"), so cancel and reschedule cannot reach it.
   */
  lemma ConfirmedEventUnfindableAsWritten(m: Meeting, s: Settings, t: int)
    requires m.email != "N/A"
    ensures !MatchesDetails(CalendarEvent(m.startTime, AppointmentEnd(m.startTime, s), LeadEmail(ConfirmAttendeesAsWritten(m))), m.email, t)
  {
  }

  /** A concrete lead for whom the written attendee list loses the booking. */
  lemma ConfirmedEventUnfindableExample()
    ensures var m := Meeting("Thandi Mokoena", "thandi@example.co.za", "Acme", 600, "growth", 9000.0, None, None,
                             PendingConfirmation, false, false, false);
            var s := Settings(9, 17, 60);
            !MatchesDetails(CalendarEvent(m.startTime, AppointmentEnd(m.startTime, s), LeadEmail(ConfirmAttendeesAsWritten(m))), m.email, m.startTime)
  {
  }

  /** With the intended attendee list the event is found by the lead's address and start. */
  lemma ConfirmedEventFindable(m: Meeting, s: Settings)
    requires s.appointmentDurationMinutes > 0
    ensures MatchesDetails(CalendarEvent(m.startTime, AppointmentEnd(m.startTime, s), LeadEmail(ConfirmAttendees(m))), m.email, m.startTime)
  {
  }

  /**
   * `confirm_meeting`, with `ConfirmAttendees`. A missing row gives "Not
   * Found"; a failed query gives the database-error page for an `APIError` and
   * the generic page for any other exception, whatever the id; a confirmed row
   * gives "Already Confirmed" and changes nothing; otherwise one event is
   * created (a calendar failure gives the generic error page and changes
   * nothing), then the row is set confirmed with that event's id (a failed
   * update gives one of the two error pages and leaves the event behind). Only then, and only
   * for a row with a phone number, the SMS is attempted; its outcome does not
   * change the page. `created` is the event made; `sms` the message handed to
   * Twilio.
   */
  method ConfirmMeeting(table: MeetingTable, cal: Calendar, twilio: Notifications.TwilioSettings,
                        id: MeetingId, now: int, s: Settings, render: int -> string)
    returns (page: ConfirmPage, created: Option<EventId>, sms: Option<Notifications.SmsMessage>)
    requires table.Valid() && cal.Valid()
    modifies table, cal
    ensures table.Valid() && cal.Valid()
    ensures id !in old(table.rows) ==> page in {NotFound, DatabaseError, GenericError}
    ensures page == NotFound ==> id !in old(table.rows)
    ensures id in old(table.rows) && old(table.rows[id]).status == Confirmed ==> page in {AlreadyConfirmed, DatabaseError, GenericError}
    ensures page == AlreadyConfirmed ==> id in old(table.rows) && old(table.rows[id]).status == Confirmed
    ensures page in {NotFound, AlreadyConfirmed} ==> table.rows == old(table.rows) && cal.events == old(cal.events)
    ensures page in {DatabaseError, GenericError} ==> table.rows == old(table.rows)
    ensures created.None? ==> page != ThankYou && cal.events == old(cal.events)
    ensures id in old(table.rows) && old(table.rows[id]).status != Confirmed
            && (!cal.serviceReady || ValidateBooking(old(table.rows[id]).startTime, now, s).Err?) ==>
      created.None? && page in {DatabaseError, GenericError}
    ensures created.Some? ==>
      && id in old(table.rows) && old(table.rows[id]).status != Confirmed
      && ValidateBooking(old(table.rows[id]).startTime, now, s).Ok?
      && created.value !in old(cal.events)
      && var m := old(table.rows[id]);
         cal.events == old(cal.events)[created.value := CalendarEvent(m.startTime, AppointmentEnd(m.startTime, s), m.email)]
    ensures page == ThankYou ==>
      && id in old(table.rows) && created.Some?
      && table.rows == old(table.rows)[id := old(table.rows[id]).(status := Confirmed, eventId := created)]
    ensures sms.Some? ==>
      && page == ThankYou && id in old(table.rows) && HasPhone(old(table.rows[id]))
      && sms == Notifications.PrepareSmsConfirmation(twilio, old(table.rows[id]).clientNumber.value,
                                                     old(table.rows[id]).fullName, render(old(table.rows[id]).startTime))
    ensures page == ThankYou && HasPhone(old(table.rows[id])) && Notifications.Configured(twilio) ==> sms.Some?
  {
    created, sms := None, None;
    var found := table.Lookup(id);
    if found.Missing? {
      return NotFound, created, sms;
    }
    if found.QueryFailed? {
      return if found.apiError then DatabaseError else GenericError, created, sms;
    }
    var m := found.meeting;
    if m.status == Confirmed {
      return AlreadyConfirmed, created, sms;
    }
    var event := cal.CreateEvent(m.startTime, now, s, ConfirmAttendees(m));
    if event.Err? {
      return GenericError, created, sms;
    }
    created := Some(event.value);
    var written, apiError := table.MarkConfirmed(id, event.value);
    if !written {
      return if apiError then DatabaseError else GenericError, created, sms;
    }
    if HasPhone(m) {
      var sent, accepted := Notifications.SendSmsConfirmation(twilio, m.clientNumber.value, m.fullName, render(m.startTime));
      sms := sent;
    }
    return ThankYou, created, sms;
  }

  /**
   * Following a confirmation link a second time: once the first visit was
   * thanked, the second finds the meeting confirmed and creates no event.
   */
  method ConfirmTwice(table: MeetingTable, cal: Calendar, twilio: Notifications.TwilioSettings,
                      id: MeetingId, now: int, s: Settings, render: int -> string)
    returns (first: ConfirmPage, second: ConfirmPage)
    requires table.Valid() && cal.Valid()
    modifies table, cal
    ensures first == NotFound ==> second in {NotFound, DatabaseError, GenericError}
    ensures first == NotFound ==> table.rows == old(table.rows) && cal.events == old(cal.events)
    ensures first == ThankYou ==> second in {AlreadyConfirmed, DatabaseError, GenericError}
    ensures first == ThankYou ==> |cal.events| == |old(cal.events)| + 1
  {
    var created, sms;
    first, created, sms := ConfirmMeeting(table, cal, twilio, id, now, s, render);
    ghost var eventsAfterFirst := cal.events;
    second, created, sms := ConfirmMeeting(table, cal, twilio, id, now, s, render);
    if first == ThankYou {
      assert cal.events == eventsAfterFirst;
    }
  }

  // ---------------------------------------------------------------------------
  // Voice availability
  // ---------------------------------------------------------------------------

  /** One entry of `next_available_slots`: the rendered time and the slot itself. */
  datatype Suggestion = Suggestion(humanReadable: string, slot: int)

  /** The answers of `get_voice_availability`. */
  datatype AvailabilityReply =
    | PastDate400
    | NoOpenSlots
    | SlotsFound(suggestions: seq<Suggestion>)
    | InternalError500

  /** The slot behind each suggestion, in order. */
  function SuggestedSlots(suggestions: seq<Suggestion>): (r: seq<int>)
    ensures |r| == |suggestions|
    ensures forall i :: 0 <= i < |r| ==> r[i] == suggestions[i].slot
  {
    if |suggestions| == 0 then [] else [suggestions[0].slot] + SuggestedSlots(suggestions[1..])
  }

  /** The formatting loop: one suggestion per slot, in the same order. */
  method FormatSuggestions(slots: seq<int>, render: int -> string) returns (suggestions: seq<Suggestion>)
    ensures SuggestedSlots(suggestions) == slots
    ensures forall i :: 0 <= i < |suggestions| ==> suggestions[i].humanReadable == render(suggestions[i].slot)
  {
    suggestions := [];
    var i := 0;
    while i < |slots|
      invariant 0 <= i <= |slots|
      invariant SuggestedSlots(suggestions) == slots[..i]
      invariant forall j :: 0 <= j < |suggestions| ==> suggestions[j].humanReadable == render(suggestions[j].slot)
    {
      suggestions := suggestions + [Suggestion(render(slots[i]), slots[i])];
      i := i + 1;
    }
  }

  /**
   * `get_voice_availability`: a date that does not parse is an internal
   * error; a date before today is refused before the calendar is asked;
   * otherwise the day's slots, each as a suggestion, or the "no open slots"
   * answer when the day has none or the list call failed (`sourceUnavailable`).
   */
  method GetVoiceAvailability(cal: Calendar, s: Settings, date: string, now: int,
                              parseIso: string -> Option<int>, render: int -> string)
    returns (r: AvailabilityReply, ghost sourceUnavailable: bool)
    ensures parseIso(date).None? ==> r == InternalError500
    ensures parseIso(date).Some? && DayOf(parseIso(date).value) < DayOf(now) ==> r == PastDate400
    ensures r == PastDate400 ==> parseIso(date).Some? && DayOf(parseIso(date).value) < DayOf(now)
    ensures parseIso(date).Some? && DayOf(parseIso(date).value) >= DayOf(now) && !cal.serviceReady ==> r == InternalError500
    ensures r.SlotsFound? ==>
      var dayStart := parseIso(date).value;
      && cal.serviceReady && HoursValid(s) && DayOf(dayStart) >= DayOf(now)
      && SuggestedSlots(r.suggestions) == DaySlots(dayStart, s, BusyBetween(cal.events, dayStart, dayStart + MinutesPerDay))
      && |r.suggestions| > 0
      && forall i :: 0 <= i < |r.suggestions| ==> r.suggestions[i].humanReadable == render(r.suggestions[i].slot)
    ensures r == NoOpenSlots ==>
      var dayStart := parseIso(date).value;
      && parseIso(date).Some? && DayOf(dayStart) >= DayOf(now) && cal.serviceReady && HoursValid(s)
      && (sourceUnavailable || DaySlots(dayStart, s, BusyBetween(cal.events, dayStart, dayStart + MinutesPerDay)) == [])
    ensures sourceUnavailable ==> r == NoOpenSlots
    ensures r == InternalError500 ==> parseIso(date).None? || !cal.serviceReady || !HoursValid(s)
    ensures parseIso(date).Some? && DayOf(parseIso(date).value) >= DayOf(now) && cal.serviceReady && !HoursValid(s) ==>
      r == InternalError500
    ensures parseIso(date).Some? && DayOf(parseIso(date).value) >= DayOf(now) && cal.serviceReady && HoursValid(s)
            && !sourceUnavailable ==>
      var dayStart := parseIso(date).value;
      (r.SlotsFound? <==> DaySlots(dayStart, s, BusyBetween(cal.events, dayStart, dayStart + MinutesPerDay)) != [])
  {
    sourceUnavailable := false;
    var parsed := parseIso(date);
    if parsed.None? {
      return InternalError500, sourceUnavailable;
    }
    if DayOf(parsed.value) < DayOf(now) {
      return PastDate400, sourceUnavailable;
    }
    var slots;
    slots, sourceUnavailable := GetAvailableSlots(cal, s, date, parseIso);
    if slots.Err? {
      return InternalError500, sourceUnavailable;
    }
    if |slots.value| == 0 {
      return NoOpenSlots, sourceUnavailable;
    }
    var suggestions := FormatSuggestions(slots.value, render);
    return SlotsFound(suggestions), sourceUnavailable;
  }

  // ---------------------------------------------------------------------------
  // Voice booking
  // ---------------------------------------------------------------------------

  /** The body of `/book-appointment`, with the schema's defaults already applied. */
  datatype VoiceBookingRequest = VoiceBookingRequest(
    name: string,
    email: string,
    startTime: int,
    goal: string,
    monthlyBudget: real,
    companyName: string,
    clientNumber: Option<string>,
    callDurationSeconds: Option<int>)

  /** The answers of `book_voice_appointment`. */
  datatype BookingReply = Booked(message: string) | BadRequest(error: CalendarError) | InternalError

  /** The `meetings` row of a voice booking: confirmed, with the created event's id. */
  function BookedMeeting(req: VoiceBookingRequest, event: EventId): (m: Meeting)
    ensures m.status == Confirmed && m.eventId == Some(event)
    ensures !m.reminder24hSent && !m.reminderMorningSent && !m.reminder1hSent
    ensures m.email == req.email && m.startTime == req.startTime && m.clientNumber == req.clientNumber
  {
    Meeting(req.name, req.email, req.companyName, req.startTime, req.goal, req.monthlyBudget,
            req.clientNumber, Some(event), Confirmed, false, false, false)
  }

  /** The `call_history` row of a voice booking. */
  function BookedCall(req: VoiceBookingRequest): (c: CallRecord)
    ensures c.resultedInMeeting && c.disqualificationReason.None?
    ensures c.email == req.email && c.callDurationSeconds == req.callDurationSeconds
  {
    CallRecord(req.name, req.email, req.companyName, req.goal, req.monthlyBudget,
               req.clientNumber, req.callDurationSeconds, true, None)
  }

  /**
   * Python's `str.isspace`: the characters of Unicode category Zs or of
   * bidirectional class WS, B or S.
   */
  predicate IsSpace(c: char)
  {
    || '\U{9}' <= c <= '\U{D}'
    || '\U{1C}' <= c <= ' '
    || c == '\U{85}' || c == '\U{A0}' || c == '\U{1680}'
    || '\U{2000}' <= c <= '\U{200A}'
    || c == '\U{2028}' || c == '\U{2029}' || c == '\U{202F}' || c == '\U{205F}' || c == '\U{3000}'
  }

  /** `str.lstrip()`: the suffix after the leading whitespace. */
  function StripStart(s: string): (r: string)
    ensures |r| <= |s| && r == s[|s| - |r|..]
    ensures forall k :: 0 <= k < |s| - |r| ==> IsSpace(s[k])
    ensures |r| > 0 ==> !IsSpace(r[0])
  {
    if |s| > 0 && IsSpace(s[0]) then StripStart(s[1..]) else s
  }

  /** `str.rstrip()`: the prefix before the trailing whitespace. */
  function StripEnd(s: string): (r: string)
    ensures |r| <= |s| && r == s[..|r|]
    ensures forall k :: |r| <= k < |s| ==> IsSpace(s[k])
    ensures |r| > 0 ==> !IsSpace(r[|r| - 1])
  {
    if |s| > 0 && IsSpace(s[|s| - 1]) then StripEnd(s[..|s| - 1]) else s
  }

  /** `str.strip()`: no whitespace left at either end. */
  function Strip(s: string): (r: string)
    ensures |r| <= |s|
    ensures |r| > 0 ==> !IsSpace(r[0]) && !IsSpace(r[|r| - 1])
  {
    StripEnd(StripStart(s))
  }

  /** `Strip` keeps a slice of its input and cuts away nothing but whitespace. */
  lemma StripSlice(s: string) returns (i: nat)
    ensures i + |Strip(s)| <= |s| && Strip(s) == s[i..i + |Strip(s)|]
    ensures forall k :: 0 <= k < i ==> IsSpace(s[k])
    ensures forall k :: i + |Strip(s)| <= k < |s| ==> IsSpace(s[k])
  {
    var left := StripStart(s);
    i := |s| - |left|;
    var r := StripEnd(left);
    assert r == left[..|r|];
    forall k | i + |r| <= k < |s|
      ensures IsSpace(s[k])
    {
      assert s[k] == left[k - i];
    }
  }

  const ReplyOpening: string := "Perfect, "
  const ReplyBooked: string := "! I've successfully booked your 1-hour call. I've just sent "
  const ReplyInvite: string := ", and a calendar invitation to "
  const ReplyClosing: string := " will follow shortly."
  const SmsMention: string := " and SMS"

  function EmailPart(emailSent: bool): string
  {
    if emailSent then "a confirmation email" else "attempted to send a confirmation email"
  }

  function SmsPart(smsAttempted: bool): string
  {
    if smsAttempted then SmsMention else ""
  }

  /** `part` right after `front` in `front + part`. */
  lemma OccursAfter(front: string, part: string)
    ensures Notifications.OccursAt(part, front + part, |front|)
  {
    assert (front + part)[|front|..|front| + |part|] == part;
  }

  /** Appending to the right keeps an occurrence where it is. */
  lemma OccursExtend(part: string, whole: string, at: int, more: string)
    requires Notifications.OccursAt(part, whole, at)
    ensures Notifications.OccursAt(part, whole + more, at)
  {
    assert (whole + more)[at..at + |part|] == whole[at..at + |part|];
  }

  /** The success message of a voice booking. */
  function BookingMessage(firstName: string, email: string, emailSent: bool, smsAttempted: bool): string
  {
    ReplyOpening + firstName + ReplyBooked + EmailPart(emailSent) + SmsPart(smsAttempted) + ReplyInvite + email + ReplyClosing
  }

  /** Where the e-mail and SMS parts begin in the message. */
  function EmailPartAt(firstName: string): int
  {
    |ReplyOpening| + |firstName| + |ReplyBooked|
  }

  /** The message greets the lead by first name. */
  lemma BookingMessageGreets(firstName: string, email: string, emailSent: bool, smsAttempted: bool)
    ensures Notifications.OccursAt(firstName, BookingMessage(firstName, email, emailSent, smsAttempted), |ReplyOpening|)
  {
    var w1 := ReplyOpening + firstName;
    var w2 := w1 + ReplyBooked;
    var w3 := w2 + EmailPart(emailSent);
    var w4 := w3 + SmsPart(smsAttempted);
    var w5 := w4 + ReplyInvite;
    var w6 := w5 + email;
    OccursAfter(ReplyOpening, firstName);
    OccursExtend(firstName, w1, |ReplyOpening|, ReplyBooked);
    OccursExtend(firstName, w2, |ReplyOpening|, EmailPart(emailSent));
    OccursExtend(firstName, w3, |ReplyOpening|, SmsPart(smsAttempted));
    OccursExtend(firstName, w4, |ReplyOpening|, ReplyInvite);
    OccursExtend(firstName, w5, |ReplyOpening|, email);
    OccursExtend(firstName, w6, |ReplyOpening|, ReplyClosing);
  }

  /** The message names the address the calendar invitation goes to. */
  lemma BookingMessageNamesInvitee(firstName: string, email: string, emailSent: bool, smsAttempted: bool)
    ensures Notifications.OccursAt(email, BookingMessage(firstName, email, emailSent, smsAttempted),
                                   EmailPartAt(firstName) + |EmailPart(emailSent)| + |SmsPart(smsAttempted)| + |ReplyInvite|)
  {
    var w5 := ReplyOpening + firstName + ReplyBooked + EmailPart(emailSent) + SmsPart(smsAttempted) + ReplyInvite;
    OccursAfter(w5, email);
    OccursExtend(email, w5 + email, |w5|, ReplyClosing);
  }

  /** The e-mail part stands right after "... I've just sent ". */
  lemma EmailPartStands(firstName: string, email: string, emailSent: bool, smsAttempted: bool)
    ensures Notifications.OccursAt(EmailPart(emailSent), BookingMessage(firstName, email, emailSent, smsAttempted),
                                   EmailPartAt(firstName))
  {
    var w2 := ReplyOpening + firstName + ReplyBooked;
    var w3 := w2 + EmailPart(emailSent);
    var w4 := w3 + SmsPart(smsAttempted);
    var w5 := w4 + ReplyInvite;
    var w6 := w5 + email;
    OccursAfter(w2, EmailPart(emailSent));
    OccursExtend(EmailPart(emailSent), w3, |w2|, SmsPart(smsAttempted));
    OccursExtend(EmailPart(emailSent), w4, |w2|, ReplyInvite);
    OccursExtend(EmailPart(emailSent), w5, |w2|, email);
    OccursExtend(EmailPart(emailSent), w6, |w2|, ReplyClosing);
  }

  /** The SMS part stands right after the e-mail part. */
  lemma SmsPartStands(firstName: string, email: string, emailSent: bool, smsAttempted: bool)
    ensures Notifications.OccursAt(SmsPart(smsAttempted), BookingMessage(firstName, email, emailSent, smsAttempted),
                                   EmailPartAt(firstName) + |EmailPart(emailSent)|)
  {
    var w3 := ReplyOpening + firstName + ReplyBooked + EmailPart(emailSent);
    var w4 := w3 + SmsPart(smsAttempted);
    var w5 := w4 + ReplyInvite;
    var w6 := w5 + email;
    OccursAfter(w3, SmsPart(smsAttempted));
    OccursExtend(SmsPart(smsAttempted), w4, |w3|, ReplyInvite);
    OccursExtend(SmsPart(smsAttempted), w5, |w3|, email);
    OccursExtend(SmsPart(smsAttempted), w6, |w3|, ReplyClosing);
  }

  /** The invitation clause stands right after the SMS part. */
  lemma InviteStands(firstName: string, email: string, emailSent: bool, smsAttempted: bool)
    ensures Notifications.OccursAt(ReplyInvite, BookingMessage(firstName, email, emailSent, smsAttempted),
                                   EmailPartAt(firstName) + |EmailPart(emailSent)| + |SmsPart(smsAttempted)|)
  {
    var w4 := ReplyOpening + firstName + ReplyBooked + EmailPart(emailSent) + SmsPart(smsAttempted);
    var w5 := w4 + ReplyInvite;
    var w6 := w5 + email;
    OccursAfter(w4, ReplyInvite);
    OccursExtend(ReplyInvite, w5, |w4|, email);
    OccursExtend(ReplyInvite, w6, |w4|, ReplyClosing);
  }

  /**
   * The message reports the e-mail part, and " and SMS" stands right after it
   * exactly when an SMS was attempted; otherwise the invitation clause does.
   */
  lemma BookingMessageReports(firstName: string, email: string, emailSent: bool, smsAttempted: bool)
    ensures var r := BookingMessage(firstName, email, emailSent, smsAttempted);
      && Notifications.OccursAt(EmailPart(emailSent), r, EmailPartAt(firstName))
      && (Notifications.OccursAt(SmsMention, r, EmailPartAt(firstName) + |EmailPart(emailSent)|) <==> smsAttempted)
      && (!smsAttempted ==> Notifications.OccursAt(ReplyInvite, r, EmailPartAt(firstName) + |EmailPart(emailSent)|))
  {
    var r := BookingMessage(firstName, email, emailSent, smsAttempted);
    var at := EmailPartAt(firstName) + |EmailPart(emailSent)|;
    EmailPartStands(firstName, email, emailSent, smsAttempted);
    SmsPartStands(firstName, email, emailSent, smsAttempted);
    if !smsAttempted {
      InviteStands(firstName, email, emailSent, smsAttempted);
      assert r[at..at + |ReplyInvite|] == ReplyInvite;
      assert r[at] == ',';
      MismatchedHead(SmsMention, r, at);
    }
  }

  /** A text does not stand where the character differs from its first one. */
  lemma MismatchedHead(part: string, whole: string, at: int)
    requires |part| > 0 && 0 <= at < |whole| && whole[at] != part[0]
    ensures !Notifications.OccursAt(part, whole, at)
  {
    if at + |part| <= |whole| {
      assert whole[at..at + |part|][0] == whole[at];
    }
  }

  /** The message tells an attempted SMS apart from none: the two texts differ. */
  lemma BookingMessageTellsSms(firstName: string, email: string, emailSent: bool)
    ensures BookingMessage(firstName, email, emailSent, true) != BookingMessage(firstName, email, emailSent, false)
    ensures |BookingMessage(firstName, email, emailSent, true)| == |BookingMessage(firstName, email, emailSent, false)| + |SmsMention|
  {
  }

  /**
   * `send_direct_booking_confirmation`. It never raises: it returns False for
   * missing credentials and for any SMTP failure.
   */
  method SendDirectBookingConfirmation(recipient: string, fullName: string, startTime: string) returns (ok: bool)
  {
    ok := *;
  }

  /**
   * `book_voice_appointment`. The calendar event comes first: one of the
   * value errors (no credentials, past, same day) is a 400 with the error and
   * nothing written, any other calendar failure a 500 with nothing written.
   * Then the confirmed meeting row and the call-history row are inserted, in
   * that order; a failing insert is a 500 and keeps what was written before
   * it. Then the e-mail, whose result is not looked at, and the SMS, attempted
   * exactly when a phone number was given.
   */
  method BookVoiceAppointment(table: MeetingTable, history: CallHistory, cal: Calendar,
                              twilio: Notifications.TwilioSettings, req: VoiceBookingRequest,
                              now: int, s: Settings, render: int -> string)
    returns (r: BookingReply, event: Option<EventId>, meeting: Option<MeetingId>, sms: Option<Notifications.SmsMessage>)
    requires table.Valid() && cal.Valid()
    modifies table, history, cal
    ensures table.Valid() && cal.Valid()
    ensures !cal.serviceReady ==> r == BadRequest(CredentialsUnavailable)
    ensures cal.serviceReady && ValidateBooking(req.startTime, now, s).Err? ==>
      r == BadRequest(ValidateBooking(req.startTime, now, s).error)
    ensures r.BadRequest? ==> IsValueError(r.error) && event.None?
    ensures r.BadRequest? ==> !cal.serviceReady || ValidateBooking(req.startTime, now, s).Err?
    ensures event.None? ==>
      && (r.BadRequest? || r.InternalError?)
      && cal.events == old(cal.events) && table.rows == old(table.rows) && history.records == old(history.records)
    ensures event.Some? ==>
      && event.value !in old(cal.events)
      && cal.events == old(cal.events)[event.value := CalendarEvent(req.startTime, AppointmentEnd(req.startTime, s), req.email)]
    ensures meeting.Some? ==>
      && event.Some? && meeting.value !in old(table.rows)
      && table.rows == old(table.rows)[meeting.value := BookedMeeting(req, event.value)]
    ensures meeting.None? ==> table.rows == old(table.rows) && history.records == old(history.records)
    ensures meeting.Some? && !r.Booked? ==> r.InternalError? && history.records == old(history.records)
    ensures meeting.Some? && history.records == old(history.records) + [BookedCall(req)] ==> r.Booked?
    ensures r.Booked? ==>
      && meeting.Some?
      && history.records == old(history.records) + [BookedCall(req)]
      && r.message == BookingMessage(Notifications.FirstName(Strip(req.name)), req.email, true,
                                     Notifications.Truthy(req.clientNumber))
    ensures sms.Some? ==>
      && r.Booked? && Notifications.Truthy(req.clientNumber)
      && sms == Notifications.PrepareSmsConfirmation(twilio, req.clientNumber.value, req.name, render(req.startTime))
    ensures r.Booked? && Notifications.Truthy(req.clientNumber) && Notifications.Configured(twilio) ==> sms.Some?
  {
    event, meeting, sms := None, None, None;
    var created := cal.CreateEvent(req.startTime, now, s, [req.email]);
    if created.Err? {
      if IsValueError(created.error) {
        return BadRequest(created.error), event, meeting, sms;
      }
      return InternalError, event, meeting, sms;
    }
    event := Some(created.value);
    var inserted := table.Insert(BookedMeeting(req, created.value));
    if inserted.None? {
      return InternalError, event, meeting, sms;
    }
    meeting := inserted;
    var logged := history.Insert(BookedCall(req));
    if !logged {
      return InternalError, event, meeting, sms;
    }
    var humanReadableTime := render(req.startTime);
    // The sender never raises, so the e-mail counts as sent whatever it returns.
    var emailReturned := SendDirectBookingConfirmation(req.email, req.name, humanReadableTime);
    var emailSentSuccessfully := true;
    var smsAttempted := false;
    if Notifications.Truthy(req.clientNumber) {
      smsAttempted := true;
      var sent, accepted := Notifications.SendSmsConfirmation(twilio, req.clientNumber.value, req.name, humanReadableTime);
      sms := sent;
    }
    var firstName := Notifications.FirstName(Strip(req.name));
    r := Booked(BookingMessage(firstName, req.email, emailSentSuccessfully, smsAttempted));
  }
}
