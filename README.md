# Zappies booking core in Dafny

This project models the booking core of the Zappies Central API. That core is a service through which a WhatsApp/text agent and a voice agent book onboarding calls for leads. It covers:

- **Availability.** The hourly slot grid of a working day, compared against the Google Calendar events listed for that day (`get_available_slots`). The text agent's five-suggestion summary of it (`check_availability`). The voice agent's past-date gate and one suggestion per slot (`get_voice_availability`).
- **Booking validation.** `create_calendar_event` refuses a start in the past, then a start on the current day. An event always ends `start + duration`, both on create and on update.
- **The `meetings` table as a state machine.**
  - The text agent inserts a `pending_confirmation` row when the budget is at least R8000.
  - The e-mailed link (`confirm_meeting`) creates the calendar event, then marks the row `confirmed` with the event id.
  - The voice agent (`book_voice_appointment`) creates the event first, then inserts an already confirmed row and a `call_history` row.
  - Cancel and reschedule act on the calendar event found by the lead's address and start time. They never touch the table.
- **The reminder sweep** (`send_meeting_reminders`). Three passes: 24 hours before, the morning of the meeting, and one hour before.
  - Each pass selects confirmed rows whose flag is still false, within its own window.
  - It texts the rows that have a phone number, and sets the flag only after a successful send. A row without a phone number has its flag set straight away.
  - Every step is proved against one specification predicate per pass and one for the whole sweep. The proved facts are:
    - flags only rise;
    - a flag rises only for a cause;
    - at most one send per meeting and threshold;
    - a delivered and recorded reminder is never sent again by a later sweep.
- **The SMS confirmation** (`send_sms_confirmation`): the credential gate, the rewrite of South African numbers into E.164 form (ITU-T Recommendation E.164), and the first name and message text.

Conventions:

- **Instants** are whole minutes in the deployment's one time zone, SAST, which has no daylight-saving shift. A day is a block of 1440 minutes (module `Clock`).
- **Settings** (business hours and meeting duration) are a parameter.
- **Parameters for opaque functions.**
  - Date parsing (`fromisoformat`/`dateutil.parse`) becomes `parseIso: string -> Option<int>`.
  - `strftime` becomes `render`.
  - `json.loads` becomes `decodeJson`.
- **Objects with state.** The Google calendar, the `meetings` table and the `call_history` table are classes.
  - Their fields are a map of events plus an id counter, a map of rows plus an id counter, and a list of records.
  - Every provider call (Google, Supabase, Twilio, SMTP) may fail. This is modelled by a nondeterministic choice inside the method that stands for the call.

Modules: `Wrappers` (Option, Result), `Clock`, `GoogleCalendar`, `Meetings`, `Notifications`, `Scheduler`, `Server` (api/server.py), `CustomTools` (tools/custom_tools.py).

## Model

| member | source | states |
|---|---|---|
| Clock.StartOfDay | tools/scheduler.py:53 | local midnight of the instant's day: at or before it, less than a day before it, on the same day |
| Clock.HourOf | tools/scheduler.py:52 | the local hour, 0..23, whose hour-long block holds the instant |
| Clock.MinuteOf | tools/custom_tools.py:65 | the minute within the hour, 0..59; the instant minus it is a whole hour |
| GoogleCalendar.SlotStartsExactly | tools/google_calendar.py:86-114 | a start is returned if and only if it is on the hourly grid from the business-hours start, starts before the end, ends by the end and overlaps no busy interval |
| GoogleCalendar.SlotStartsSound | tools/google_calendar.py:62-106 | every returned slot satisfies working_start <= t, t + d <= working_end, meets no busy interval, and equals working_start + 60k |
| GoogleCalendar.SlotStartsIncreasing | tools/google_calendar.py:87-112 | returned starts are strictly increasing and none lies before the business-hours start |
| GoogleCalendar.TouchingIntervalsDoNotBlock | tools/google_calendar.py:98-106 | a candidate that only touches busy intervals at an endpoint is returned |
| GoogleCalendar.SlotCountWithoutEvents | tools/google_calendar.py:90-112 | with no events and d > 0 there are (W - d) / 60 + 1 slots when W >= d, otherwise none |
| GoogleCalendar.ComputeSlots | tools/google_calendar.py:86-114 | the `while` loop with its inner event scan returns exactly the reference slot sequence |
| GoogleCalendar.DaySlotsScenario | tools/google_calendar.py:47-114 | 09:00-17:00, one-hour slots and a 13:00-14:00 meeting give seven slots, 13:00 left out |
| GoogleCalendar.ValidateBooking | tools/google_calendar.py:178-186 | accepted exactly when the start's day is after today; a start before now is "past" (checked first); otherwise a start today is "same day"; an accepted start spans [start, start + duration) |
| GoogleCalendar.FirstMatch | tools/google_calendar.py:132-136 | the first listed id when the listing is non-empty, None for an empty or failed listing |
| GoogleCalendar.DeleteResult | tools/google_calendar.py:159-165 | success for a completed delete or HTTP 410; any other HTTP status is re-raised with that status |
| GoogleCalendar.Calendar.ListBusy | tools/google_calendar.py:73-81 | a successful list call returns exactly the intervals of the events intersecting [lo, hi) |
| GoogleCalendar.Calendar.ListMatching | tools/google_calendar.py:125-132 | a successful filtered list returns exactly the events with this lead email that meet [t, t + 1 minute) |
| GoogleCalendar.Calendar.CreateEvent | tools/google_calendar.py:167-208 | no credentials raises; then the validation errors; a created event is fresh, spans [start, start + duration) and carries the first attendee (or "N/A") as lead email; a failure changes nothing |
| GoogleCalendar.Calendar.UpdateEvent | tools/google_calendar.py:138-154 | no credentials raises; an unknown id gives 404 or a failed call, which may happen for any id; success moves the event to [newStart, newStart + duration) with no past or same-day check; a failure changes nothing |
| GoogleCalendar.Calendar.ProviderDelete | tools/google_calendar.py:160 | the provider answers 410 for an event already deleted and 404 for an id never issued, unless the call itself fails, which it may for any id; only a completed delete removes the event |
| GoogleCalendar.Calendar.DeleteCalendarEvent | tools/google_calendar.py:156-165 | no credentials raises; deleting an event that is already gone succeeds or reports the failed call, never an HTTP error; an id never issued gives 404 or the failed call; success leaves the event absent; a failure changes nothing |
| GoogleCalendar.Calendar.FindEventByDetails | tools/google_calendar.py:117-136 | no credentials raises; otherwise never raises; a found id is a matching event; after a listing that did not fail, None means no event matches; a failed listing gives None |
| GoogleCalendar.GetAvailableSlots | tools/google_calendar.py:47-114 | no credentials raises; an unparsable date gives []; invalid business hours raise; a failed fetch gives []; otherwise exactly the day's slots against every event intersecting [dayStart, dayStart + 24h) |
| GoogleCalendar.ListedEventBlocksSlots | tools/google_calendar.py:72-106 | a returned slot overlaps no event the day's list call returns |
| GoogleCalendar.DaySlotsAvoidEveryEvent | tools/google_calendar.py:72-106 | for a date at midnight, a returned slot overlaps no event on the calendar at all |
| Meetings.MarkSent | tools/scheduler.py:43-47 | the threshold's flag becomes true, the other flags and every other column stay |
| Meetings.MeetingTable.Lookup | api/server.py:184-187 | a row that exists is returned as it is; an absent id is never found; "missing" only for an absent id; the query may fail for any id, as an `APIError` or another exception |
| Meetings.MeetingTable.Select | tools/scheduler.py:29 | a successful query returns exactly the ids of the rows the filter keeps |
| Meetings.MeetingTable.Insert | tools/custom_tools.py:129-140 | a successful insert adds the row under a fresh id and changes nothing else; a failed one changes nothing |
| Meetings.MeetingTable.MarkConfirmed | api/server.py:209-212 | sets status confirmed and the event id on that row only, or fails (as an `APIError` or another exception) and changes nothing |
| Meetings.MeetingTable.MarkReminderSent | tools/scheduler.py:44 | sets one reminder flag on that row only, or fails and changes nothing |
| Meetings.CallHistory.Insert | api/server.py:365 | appends the record, or fails and appends nothing |
| Notifications.NormalisePhone | tools/notifications.py:18-24 | a number starting with '+' is kept; the number changes exactly when it is ten characters starting with '0', and then becomes "+27" followed by the rest, twelve characters |
| Notifications.NormalisePhoneIdempotent | tools/notifications.py:18-24 | rewriting a rewritten number changes nothing |
| Notifications.LocalNumberBecomesE164 | tools/notifications.py:16-21 | a ten-digit local number becomes '+' and at most fifteen digits with a non-zero leading digit |
| Notifications.FirstName | tools/notifications.py:28 | a prefix of the full name with no space, ending at the first space |
| Notifications.SmsBody | tools/notifications.py:29-32 | the body contains the first name and the start time at their places |
| Notifications.PrepareSmsConfirmation | tools/notifications.py:12-39 | no message exactly when a credential is missing; otherwise to the normalised number, from the configured number, with the body |
| Notifications.SendSmsConfirmation | tools/notifications.py:9-47 | missing credentials give False before any send; True only when a message was handed over |
| Scheduler.MorningWindowIsToday | tools/scheduler.py:52-56 | the morning window 00:00:00-23:59:59, both ends included, holds exactly the starts on the current day |
| Scheduler.DueAfterMarkSent | tools/scheduler.py:29-47 | setting one threshold's flag removes the row from that pass's selection and from no other |
| Scheduler.RemindMeeting | tools/scheduler.py:31-47 | a row with a phone gets one attempt and its flag only on success; a row without a phone gets its flag and no SMS; a failed update changes nothing |
| Scheduler.RunPass | tools/scheduler.py:29-47 | a pass changes only due rows and only by their own flag; sends only to due rows with a phone, once each; flags only for a delivery or no phone; a completed pass handled every due row |
| Scheduler.Scheduled | tools/scheduler.py:52 | the 24-hour and 1-hour passes always run; the morning pass exactly when 8 <= hour < 9 |
| Scheduler.SweepThenPass | tools/scheduler.py:24-98 | a sweep followed by a pass for a new threshold is a sweep over both |
| Scheduler.SendMeetingReminders | tools/scheduler.py:13-103 | the passes that ran are the 24-hour pass and then the scheduled ones in order (the 1-hour pass only after every earlier scheduled pass), all of them exactly when nothing raised; over those passes: only flags rise, for a cause; at most one send per meeting and threshold; deliveries recorded; every pass before the one that raised handled every due row, and a sweep not cut short handled every due row of every pass |
| Scheduler.EarlierPassesKept | tools/scheduler.py:18-102 | a pass cut short after completed passes leaves their due rows handled |
| Scheduler.NoReminderTwice | tools/scheduler.py:29-47 | a reminder delivered and recorded by one sweep is not sent again by a later sweep, whichever passes each ran |
| Server.ConfirmAttendees | api/server.py:202-207 | the corrected attendee list makes the lead's own address the event's lead email |
| Server.ConfirmedEventUnfindableAsWritten | api/server.py:202-207 | with the attendee list as written, the created event never matches the lead's address |
| Server.ConfirmedEventUnfindableExample | api/server.py:202-207 | a concrete lead whose confirmed event the lookup used by cancel and reschedule cannot find |
| Server.ConfirmedEventFindable | api/server.py:202-207 | with the corrected list, the event matches the lead's address at its start |
| Server.ConfirmMeeting | api/server.py:180-244 | "Not Found" only for an absent id, which otherwise gets one of the two error pages; a confirmed row gives "Already Confirmed" or an error page and changes nothing; a start in the past or today (or no credentials) creates no event and gives an error page; otherwise exactly one event at the row's start with the lead's address, then the row confirmed with that id; an error page never changes the row; SMS only for a row with a phone, after the update |
| Server.ConfirmTwice | api/server.py:191-192 | a confirmation that succeeded is answered "Already Confirmed" (or an error page) the second time, and only one event was created; a link that found nothing finds nothing again and writes nothing |
| Server.FormatSuggestions | api/server.py:274-278 | one suggestion per slot, in the same order, each with the slot's rendering |
| Server.GetVoiceAvailability | api/server.py:250-288 | 400 exactly for a date before today, decided before the calendar is asked; 500 exactly for an unparsable date, no credentials or invalid business hours; with a working list call, one suggestion per slot of the day in order exactly when the day has slots, and "unavailable" exactly when it has none; a failed list call gives "unavailable" |
| Server.BookedMeeting | api/server.py:339-349 | the voice booking's row is confirmed, carries the event id, the phone number and no reminder flags |
| Server.BookedCall | api/server.py:354-364 | the call-history record says the call resulted in a meeting, with no disqualification reason |
| Server.Strip | api/server.py:405 | `strip()` leaves no whitespace at either end and makes the name no longer |
| Server.StripSlice | api/server.py:405 | `strip()` keeps a slice of the name and cuts away only whitespace |
| Server.BookingMessageGreets | api/server.py:410-413 | the reply greets the lead by first name |
| Server.BookingMessageNamesInvitee | api/server.py:410-413 | the reply names the address the invitation goes to |
| Server.BookingMessageReports | api/server.py:406-413 | the reply holds the e-mail part, followed by " and SMS" exactly when an SMS was attempted |
| Server.BookingMessageTellsSms | api/server.py:408-413 | the replies with and without an SMS differ, by the length of " and SMS" |
| Server.BookVoiceAppointment | api/server.py:309-430 | the event comes first; 400 exactly for the value errors (no credentials, past, same day), with nothing written; a failed meeting insert gives 500 and writes no row or record; a failed call-history insert gives 500 and keeps the row but adds no record; both inserts succeeding is exactly the success reply, which writes the event, the confirmed row with its id and the call record, and reports the e-mail as sent and the SMS exactly when a number was given; the SMS is prepared exactly when a number was given and Twilio is configured |
| CustomTools.DateToCheck | tools/custom_tools.py:33-37 | a JSON object's "date" is unwrapped; other input is used verbatim; a JSON value that is not an object fails |
| CustomTools.HourlyPicksAtMost | tools/custom_tools.py:55-61 | at most five suggestions |
| CustomTools.HourlyPicksInOrder | tools/custom_tools.py:59-69 | the suggestions keep the order of the slots |
| CustomTools.HourlyPicksOnTheHour | tools/custom_tools.py:63-69 | every suggestion is at minute 0 and no hour is suggested twice |
| CustomTools.HourlyPicksOfHourlySlots | tools/custom_tools.py:59-69 | whole-hour slots at distinct hours are suggested as they come, up to the limit |
| CustomTools.DaySlotsOnTheHour | tools/google_calendar.py:63-112 | with valid business hours every slot of the day is at minute 0, at strictly increasing hours |
| CustomTools.DaySuggestionsAreFirstSlots | tools/custom_tools.py:53-69 | the suggestions for a day are exactly its first five slots, or all of them when fewer |
| CustomTools.SelectSuggestions | tools/custom_tools.py:55-74 | the loop with its `break` at five renders exactly the reference selection |
| CustomTools.CheckAvailability | tools/custom_tools.py:28-87 | an unusable input fails; "invalid date" exactly for a date that does not parse; missing credentials or invalid hours fail; an empty day gives "no slots"; otherwise the first up-to-five slots, rendered; the "slots but none hourly" reply never happens |
| CustomTools.CheckAvailabilityAsWritten | tools/custom_tools.py:28-44 | as written, every input ends in the generic failure reply |
| CustomTools.SuggestionsScenario | tools/custom_tools.py:53-69 | 09:00-17:00 with a 13:00 meeting: the suggestions are 09:00-12:00 and 14:00 |
| CustomTools.AsWrittenVersusCorrected | tools/custom_tools.py:28-87 | for a parsable date with credentials and valid hours, the tool as written fails where the corrected one answers, and the corrected one lists times when the day has open slots |
| CustomTools.PendingMeeting | tools/custom_tools.py:129-138 | the agent-flow row is pending, has no event id, no phone number and no reminder flags |
| CustomTools.BookOnboardingCall | tools/custom_tools.py:89-162 | "invalid details" exactly for refused details; a budget below 8000 disqualified with nothing written; otherwise exactly the pending row inserted under a fresh id and the reply is provisional or "cannot book", the latter whenever the insert failed |
| CustomTools.CancelAppointment | tools/custom_tools.py:204-224 | "invalid details" exactly for refused details; no credentials raises out of the tool; a lookup that finds nothing (no match, or a failed listing) deletes nothing and says "no appointment"; a found event is deleted or the error reported, and no other reply is possible; only the calendar is touched |
| CustomTools.RescheduleAppointment | tools/custom_tools.py:226-247 | as cancel; a found event moves to [newStart, newStart + duration) with no past or same-day check, or the error is reported |

## Left out

- HTTP routing, the API-key check, the `/chat` endpoint, `log_call_history`, chat-history persistence, `request_human_handover`, agent orchestration, the semaphore and the per-conversation locks. These are transport, persistence of LangChain messages and concurrency.
- The HTML, summary, description and reply texts other than the voice booking's success message. Each page or reply is a constructor of a datatype.
- Credential decoding in `get_calendar_service`. It becomes the flag `serviceReady`.
- Timestamps as strings. Timestamps are whole minutes in one fixed zone, so these are not modelled:
  - seconds and microseconds;
  - explicit UTC offsets and `tzinfo` handling;
  - all-day events, which have no `dateTime`;
  - a start time that does not parse, which dateutil reports as a `ValueError` and the voice booking therefore answers with 400. On the voice path the start is already an instant.
- `get_available_slots` with a date that carries a time of day. The list call then starts at that time, while the working window starts at midnight of that day. The model keeps this behaviour (`BusyBetween` from `dayStart`) but proves no property about it.
- `strftime` and the `lstrip('0')`/`replace(' 0', ' ')` touch-ups. These are the opaque `render` parameters.
- Pydantic validation and the `ValidationError` path of `/book-appointment`. Requests arrive validated, with the schema defaults already applied. A text-agent payload that the tools refuse (a `JSONDecodeError` or a `ValidationError`) is `None`.
- Text-agent payloads that decode to JSON that is not an object (a list, string, number or null). `Args(**data)` then raises `TypeError`, which neither the booking, cancel nor reschedule tool catches, so the tool raises instead of replying; the arguments the model takes cannot express such a payload, and it has no raising outcome for it.
- `send_sms_reminder` and `send_confirmation_email`. They are not part of this model: `send_sms_reminder` is imported by tools/scheduler.py but not defined in tools/notifications.py, and `send_confirmation_email` is not defined in the tools/email_sender.py modelled here, which defines only `send_direct_booking_confirmation`. Both become methods with an arbitrary outcome.
- The `conversation_history` update in the booking tool. `conversation_id` is undefined there, and the NameError it raises is caught on the spot, so the update has no effect.
- Server.ConfirmMeeting: creates the event with the corrected attendee list `ConfirmAttendees`, so the event carries the lead's address; the `attendees=[]` call as written, whose event carries "N/A", is modelled only by `ConfirmedEventUnfindableAsWritten` (see Findings).
- Reminder flags on insert: `BookedMeeting` and `PendingMeeting` start every reminder flag false. Neither insert in the source names those columns, so this assumes the `meetings` table's schema defaults them to false, which the sweep's `.eq("reminder_*_sent", False)` filters rely on; the schema is not part of this model.
- Failures of the SMS inside `confirm_meeting` and `book_voice_appointment`. They are caught and change no result, so the model returns the prepared message and ignores the provider's answer.

## Findings

| source | as written | input that shows it | evidently intended | confidence | as-written member | corrected member |
|---|---|---|---|---|---|---|
| api/server.py:202-207 | `confirm_meeting` creates the event with `attendees=[]`, so its private `lead_email` is "N/A" | any pending meeting, e.g. lead "thandi@example.co.za": after confirmation, `find_event_by_details("thandi@example.co.za", start)` returns None, so cancel and reschedule reply "couldn't find" | pass the lead's own address, as the voice booking does | not executed | Server.ConfirmedEventUnfindableAsWritten, Server.ConfirmedEventUnfindableExample | Server.ConfirmAttendees, Server.ConfirmedEventFindable, Server.ConfirmMeeting |
| tools/custom_tools.py:41 | `datetime` is never imported, so the format check raises NameError and the outer handler returns the generic failure for every input. `parse` and `SAST_TZ` at line 63 are not imported either. | "2025-11-03" on a calendar with free slots: the reply is "I encountered an error ..." instead of the suggested times | import `datetime`, `parse` and `SAST_TZ` as tools/google_calendar.py does, so the slots are checked and suggested | not executed | CustomTools.CheckAvailabilityAsWritten, CustomTools.AsWrittenVersusCorrected | CustomTools.CheckAvailability, CustomTools.SuggestionsScenario |
