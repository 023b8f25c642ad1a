/**
 * The `meetings` and `call_history` tables as objects: a meeting row per id
 * and an append-only list of call records. Every write may fail, as a
 * Supabase call may raise.
 */
module Meetings {
  import opened Wrappers
  import GoogleCalendar

  type MeetingId = nat

  /** Nothing in the core writes `Cancelled`; it is a value the table may hold. */
  datatype Status = PendingConfirmation | Confirmed | Cancelled

  /** A row of `meetings`. The reminder flags default to false on insert. */
  datatype Meeting = Meeting(
    fullName: string,
    email: string,
    companyName: string,
    startTime: int,
    goal: string,
    monthlyBudget: real,
    clientNumber: Option<string>,
    eventId: Option<GoogleCalendar.EventId>,
    status: Status,
    reminder24hSent: bool,
    reminderMorningSent: bool,
    reminder1hSent: bool)

  /** Python truthiness of `meeting.get("client_number")`. */
  predicate HasPhone(m: Meeting)
  {
    m.clientNumber.Some? && |m.clientNumber.value| > 0
  }

  /** The three reminder thresholds, each with a flag of its own. */
  datatype Threshold = DayBefore | MorningOf | HourBefore

  function ReminderSent(m: Meeting, th: Threshold): bool
  {
    match th
    case DayBefore => m.reminder24hSent
    case MorningOf => m.reminderMorningSent
    case HourBefore => m.reminder1hSent
  }

  /** The update `{"reminder_*_sent": True}` for one threshold. */
  function MarkSent(m: Meeting, th: Threshold): (r: Meeting)
    ensures ReminderSent(r, th)
    ensures forall other :: other != th ==> ReminderSent(r, other) == ReminderSent(m, other)
    ensures SameExceptReminders(m, r)
  {
    match th
    case DayBefore => m.(reminder24hSent := true)
    case MorningOf => m.(reminderMorningSent := true)
    case HourBefore => m.(reminder1hSent := true)
  }

  /** Two rows agree on every column except the three reminder flags. */
  predicate SameExceptReminders(a: Meeting, b: Meeting)
  {
    a.(reminder24hSent := false, reminderMorningSent := false, reminder1hSent := false)
      == b.(reminder24hSent := false, reminderMorningSent := false, reminder1hSent := false)
  }

  /** The columns that `SameExceptReminders` keeps, one by one. */
  lemma SameExceptRemindersFields(a: Meeting, b: Meeting)
    requires SameExceptReminders(a, b)
    ensures a.fullName == b.fullName && a.email == b.email && a.companyName == b.companyName
    ensures a.startTime == b.startTime && a.goal == b.goal && a.monthlyBudget == b.monthlyBudget
    ensures a.clientNumber == b.clientNumber && a.eventId == b.eventId && a.status == b.status
  {
    var cleared := a.(reminder24hSent := false, reminderMorningSent := false, reminder1hSent := false);
    assert cleared.status == a.status && cleared.startTime == a.startTime;
  }

  /**
   * A `select ... eq("id", id).single()`: a row, no row, or a failed query;
   * `apiError` tells a PostgREST `APIError` apart from any other exception.
   */
  datatype Lookup = Found(meeting: Meeting) | Missing | QueryFailed(apiError: bool)

  class MeetingTable {
    var rows: map<MeetingId, Meeting>
    var nextId: MeetingId

    ghost predicate Valid()
      reads this
    {
      forall id :: id in rows ==> id < nextId
    }

    constructor ()
      ensures Valid() && rows == map[] && nextId == 0
    {
      rows := map[];
      nextId := 0;
    }

    method Lookup(id: MeetingId) returns (r: Lookup)
      ensures r.Found? ==> id in rows && r.meeting == rows[id]
      ensures r.Missing? ==> id !in rows
      ensures id !in rows ==> !r.Found?
    {
      var fails: bool := *;
      if fails {
        var apiError: bool := *;
        return QueryFailed(apiError);
      }
      r := if id in rows then Found(rows[id]) else Missing;
    }

    /** `select("*")` with filters: fails, or the ids of every row the filter keeps. */
    method Select(keep: Meeting -> bool) returns (r: Option<set<MeetingId>>)
      ensures r.Some? ==> r.value == set id | id in rows && keep(rows[id])
    {
      var fails: bool := *;
      r := if fails then None else Some(set id | id in rows && keep(rows[id]));
    }

    /** `insert(...)`: a fresh id for the new row, or None when the insert raises. */
    method Insert(m: Meeting) returns (r: Option<MeetingId>)
      requires Valid()
      modifies this
      ensures Valid()
      ensures r.Some? ==> r.value == old(nextId) && r.value !in old(rows) && rows == old(rows)[r.value := m]
      ensures r.None? ==> rows == old(rows)
    {
      var fails: bool := *;
      if fails {
        return None;
      }
      r := Some(nextId);
      rows := rows[nextId := m];
      nextId := nextId + 1;
    }

    /**
     * `update({"status": "confirmed", "google_calendar_event_id": e}).eq("id", id)`;
     * when it fails, `apiError` tells a PostgREST `APIError` from any other exception.
     */
    method MarkConfirmed(id: MeetingId, e: GoogleCalendar.EventId) returns (ok: bool, apiError: bool)
      requires Valid()
      modifies this
      ensures Valid() && nextId == old(nextId)
      ensures ok ==> rows == if id in old(rows) then old(rows)[id := old(rows)[id].(status := Confirmed, eventId := Some(e))] else old(rows)
      ensures !ok ==> rows == old(rows)
    {
      var fails: bool := *;
      if fails {
        apiError := *;
        return false, apiError;
      }
      if id in rows {
        rows := rows[id := rows[id].(status := Confirmed, eventId := Some(e))];
      }
      return true, false;
    }

    /** `update({"reminder_*_sent": True}).eq("id", id)` for one threshold. */
    method MarkReminderSent(id: MeetingId, th: Threshold) returns (ok: bool)
      requires Valid()
      modifies this
      ensures Valid() && nextId == old(nextId)
      ensures ok ==> rows == if id in old(rows) then old(rows)[id := MarkSent(old(rows)[id], th)] else old(rows)
      ensures !ok ==> rows == old(rows)
    {
      var fails: bool := *;
      if fails {
        return false;
      }
      if id in rows {
        rows := rows[id := MarkSent(rows[id], th)];
      }
      return true;
    }
  }

  /** A row of `call_history`. */
  datatype CallRecord = CallRecord(
    fullName: string,
    email: string,
    companyName: string,
    goal: string,
    monthlyBudget: real,
    clientNumber: Option<string>,
    callDurationSeconds: Option<int>,
    resultedInMeeting: bool,
    disqualificationReason: Option<string>)

  class CallHistory {
    var records: seq<CallRecord>

    constructor ()
      ensures records == []
    {
      records := [];
    }

    /** `insert(call_data)`: appends the record, or raises and appends nothing. */
    method Insert(c: CallRecord) returns (ok: bool)
      modifies this
      ensures records == if ok then old(records) + [c] else old(records)
    {
      ok := *;
      if ok {
        records := records + [c];
      }
    }
  }
}
