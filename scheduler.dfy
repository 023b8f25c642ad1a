/**
 * The reminder sweep: three passes over the confirmed meetings, one per
 * reminder threshold. A pass selects the meetings whose flag for that
 * threshold is still false and whose start lies in the threshold's window,
 * sends each an SMS, and sets the flag only after a successful send, or at
 * once for a meeting without a phone number. One try block encloses all three
 * passes, so a failing query or update ends the whole sweep.
 */
module Scheduler {
  import opened Wrappers
  import opened Clock
  import opened Meetings

  /** The window of meeting starts each threshold selects, relative to `now`. */
  predicate InWindow(th: Threshold, start: int, now: int)
  {
    match th
    case DayBefore => now + 24 * MinutesPerHour <= start < now + 25 * MinutesPerHour
    case MorningOf => StartOfDay(now) <= start <= StartOfDay(now) + 23 * MinutesPerHour + 59
    case HourBefore => now + MinutesPerHour <= start < now + 90
  }

  /** The morning pass runs only between 08:00 and 09:00; the other two always run. */
  predicate PassRuns(th: Threshold, now: int)
  {
    th.MorningOf? ==> 8 <= HourOf(now) < 9
  }

  /** The filters of a pass's query. */
  predicate Due(m: Meeting, th: Threshold, now: int)
  {
    m.status == Confirmed && !ReminderSent(m, th) && InWindow(th, m.startTime, now)
  }

  /** The morning window, 00:00:00 to 23:59:59 with both ends included, is the current day. */
  lemma MorningWindowIsToday(start: int, now: int)
    ensures InWindow(MorningOf, start, now) <==> DayOf(start) == DayOf(now)
  {
    var day := StartOfDay(now);
    if DayOf(start) == DayOf(now) {
      assert StartOfDay(start) == day;
    } else if day <= start < day + MinutesPerDay {
      WithinDay(DayOf(now), start - day);
    }
  }

  /** Setting one threshold's flag leaves the other thresholds' selections as they were. */
  lemma DueAfterMarkSent(m: Meeting, marked: Threshold, th: Threshold, now: int)
    ensures Due(MarkSent(m, marked), th, now) <==> (th != marked && Due(m, th, now))
  {
  }

  /** One reminder that a pass tried to send, and whether the provider accepted it. */
  datatype ReminderAttempt = ReminderAttempt(meeting: MeetingId, threshold: Threshold, delivered: bool)

  ghost predicate AttemptedFor(attempts: seq<ReminderAttempt>, id: MeetingId, th: Threshold)
  {
    exists k :: 0 <= k < |attempts| && attempts[k].meeting == id && attempts[k].threshold == th
  }

  ghost predicate DeliveredFor(attempts: seq<ReminderAttempt>, id: MeetingId, th: Threshold)
  {
    exists k :: 0 <= k < |attempts| && attempts[k] == ReminderAttempt(id, th, true)
  }

  /** No meeting is sent two reminders for the same threshold. */
  ghost predicate OncePerThreshold(attempts: seq<ReminderAttempt>)
  {
    forall k, l :: 0 <= k < l < |attempts| ==>
      attempts[k].meeting != attempts[l].meeting || attempts[k].threshold != attempts[l].threshold
  }

  /** What appending one attempt does to the log's two queries. */
  lemma AppendAttempt(earlier: seq<ReminderAttempt>, a: ReminderAttempt)
    ensures forall id, th :: AttemptedFor(earlier + [a], id, th) <==>
      AttemptedFor(earlier, id, th) || (a.meeting == id && a.threshold == th)
    ensures forall id, th :: DeliveredFor(earlier + [a], id, th) <==>
      DeliveredFor(earlier, id, th) || a == ReminderAttempt(id, th, true)
  {
    var later := earlier + [a];
    forall id, th | AttemptedFor(later, id, th)
      ensures AttemptedFor(earlier, id, th) || (a.meeting == id && a.threshold == th)
    {
      var k :| 0 <= k < |later| && later[k].meeting == id && later[k].threshold == th;
      if k < |earlier| {
        assert earlier[k] == later[k];
      }
    }
    forall id, th | AttemptedFor(earlier, id, th)
      ensures AttemptedFor(later, id, th)
    {
      var k :| 0 <= k < |earlier| && earlier[k].meeting == id && earlier[k].threshold == th;
      assert later[k] == earlier[k];
    }
    assert later[|earlier|] == a;
    forall id, th | DeliveredFor(later, id, th)
      ensures DeliveredFor(earlier, id, th) || a == ReminderAttempt(id, th, true)
    {
      var k :| 0 <= k < |later| && later[k] == ReminderAttempt(id, th, true);
      if k < |earlier| {
        assert earlier[k] == later[k];
      }
    }
    forall id, th | DeliveredFor(earlier, id, th)
      ensures DeliveredFor(later, id, th)
    {
      var k :| 0 <= k < |earlier| && earlier[k] == ReminderAttempt(id, th, true);
      assert later[k] == earlier[k];
    }
  }

  /**
   * The reminder sender. It is not part of this model's source; what it
   * answers is the provider's.
   */
  method SendSmsReminder(m: Meeting, th: Threshold) returns (ok: bool)
  {
    ok := *;
  }

  /**
   * What one pass does to the rows `before`, giving `after`: only due rows
   * change, each by setting this threshold's flag; sends go only to due rows
   * with a phone, once each; a delivered reminder has its flag set unless the
   * pass ended on the update that followed it; a flag is set only after a
   * delivered reminder or for a row without a phone; and a pass that ran to
   * the end handled every due row.
   */
  ghost predicate PassEffect(before: map<MeetingId, Meeting>, after: map<MeetingId, Meeting>, th: Threshold, now: int,
                             attempts: seq<ReminderAttempt>, aborted: bool)
  {
    && after.Keys == before.Keys
    && (forall id :: id in before ==>
         after[id] == before[id] || (Due(before[id], th, now) && after[id] == MarkSent(before[id], th)))
    && (forall k :: 0 <= k < |attempts| ==>
         && attempts[k].meeting in before && attempts[k].threshold == th
         && Due(before[attempts[k].meeting], th, now) && HasPhone(before[attempts[k].meeting]))
    && OncePerThreshold(attempts)
    && (forall k :: 0 <= k < |attempts| && attempts[k].delivered && !(aborted && k == |attempts| - 1) ==>
         ReminderSent(after[attempts[k].meeting], th))
    && (forall id :: id in before && after[id] != before[id] ==>
         !HasPhone(before[id]) || DeliveredFor(attempts, id, th))
    && (!aborted ==> forall id :: id in before && Due(before[id], th, now) ==>
         && (HasPhone(before[id]) ==> AttemptedFor(attempts, id, th))
         && (ReminderSent(after[id], th) <==> !HasPhone(before[id]) || DeliveredFor(attempts, id, th)))
  }

  /**
   * The body of a pass's loop for one selected row: a row with a phone is
   * sent a reminder and its flag set only if the send succeeded; a row
   * without one has its flag set straight away. `stopped` reports an update
   * that raised, which ends the sweep.
   */
  method RemindMeeting(table: MeetingTable, id: MeetingId, th: Threshold)
    returns (attempt: Option<ReminderAttempt>, stopped: bool)
    requires table.Valid() && id in table.rows
    modifies table
    ensures table.Valid()
    ensures attempt.Some? <==> HasPhone(old(table.rows[id]))
    ensures attempt.Some? ==> attempt.value.meeting == id && attempt.value.threshold == th
    ensures stopped ==> table.rows == old(table.rows)
    ensures !stopped ==> table.rows == Reminded(old(table.rows), id, th, attempt)
  {
    var meeting := table.rows[id];
    stopped := false;
    if HasPhone(meeting) {
      var ok := SendSmsReminder(meeting, th);
      attempt := Some(ReminderAttempt(id, th, ok));
      if ok {
        var written := table.MarkReminderSent(id, th);
        stopped := !written;
      }
    } else {
      attempt := None;
      var written := table.MarkReminderSent(id, th);
      stopped := !written;
    }
  }

  /** The rows after one loop step that did not stop: the flag is set unless a send failed. */
  ghost function Reminded(rows: map<MeetingId, Meeting>, id: MeetingId, th: Threshold, attempt: Option<ReminderAttempt>): map<MeetingId, Meeting>
    requires id in rows
  {
    if attempt.None? || attempt.value.delivered then rows[id := MarkSent(rows[id], th)] else rows
  }

  function Logged(attempts: seq<ReminderAttempt>, attempt: Option<ReminderAttempt>): seq<ReminderAttempt>
  {
    if attempt.Some? then attempts + [attempt.value] else attempts
  }

  /** The state of a pass after it has handled the selected rows in `done`. */
  ghost predicate Progress(before: map<MeetingId, Meeting>, rows: map<MeetingId, Meeting>, th: Threshold, now: int,
                           done: set<MeetingId>, attempts: seq<ReminderAttempt>)
  {
    && rows.Keys == before.Keys
    && (forall id :: id in done ==> id in before && Due(before[id], th, now))
    && (forall id :: id in before && id !in done ==> rows[id] == before[id])
    && (forall id :: id in done ==> rows[id] == before[id] || rows[id] == MarkSent(before[id], th))
    && (forall k :: 0 <= k < |attempts| ==> attempts[k].meeting in done && attempts[k].threshold == th)
    && OncePerThreshold(attempts)
    && (forall id :: id in done ==>
         && (HasPhone(before[id]) <==> AttemptedFor(attempts, id, th))
         && (ReminderSent(rows[id], th) <==> !HasPhone(before[id]) || DeliveredFor(attempts, id, th)))
  }

  /** Handling one more selected row keeps `Progress`. */
  lemma ProgressStep(before: map<MeetingId, Meeting>, rows: map<MeetingId, Meeting>, th: Threshold, now: int,
                     done: set<MeetingId>, attempts: seq<ReminderAttempt>, id: MeetingId, attempt: Option<ReminderAttempt>)
    requires Progress(before, rows, th, now, done, attempts)
    requires id in before && Due(before[id], th, now) && id !in done
    requires attempt.Some? <==> HasPhone(before[id])
    requires attempt.Some? ==> attempt.value.meeting == id && attempt.value.threshold == th
    ensures Progress(before, Reminded(rows, id, th, attempt), th, now, done + {id}, Logged(attempts, attempt))
  {
    var later := Logged(attempts, attempt);
    if attempt.Some? {
      AppendAttempt(attempts, attempt.value);
      assert !AttemptedFor(attempts, id, th);
      forall k, l | 0 <= k < l < |later|
        ensures later[k].meeting != later[l].meeting || later[k].threshold != later[l].threshold
      {
        if l < |attempts| {
          assert later[k] == attempts[k] && later[l] == attempts[l];
        } else {
          assert later[k] == attempts[k];
        }
      }
      forall k | 0 <= k < |later|
        ensures later[k].meeting in done + {id} && later[k].threshold == th
      {
        if k < |attempts| {
          assert later[k] == attempts[k];
        }
      }
    }
  }

  /** A pass that stops on the update after `attempt` leaves the rows as they were. */
  lemma ProgressStopped(before: map<MeetingId, Meeting>, rows: map<MeetingId, Meeting>, th: Threshold, now: int,
                        done: set<MeetingId>, attempts: seq<ReminderAttempt>, id: MeetingId, attempt: Option<ReminderAttempt>)
    requires Progress(before, rows, th, now, done, attempts)
    requires id in before && Due(before[id], th, now) && id !in done
    requires attempt.Some? <==> HasPhone(before[id])
    requires attempt.Some? ==> attempt.value.meeting == id && attempt.value.threshold == th
    ensures PassEffect(before, rows, th, now, Logged(attempts, attempt), true)
  {
    var later := Logged(attempts, attempt);
    ProgressStep(before, rows, th, now, done, attempts, id, attempt);
    forall k | 0 <= k < |later| && later[k].delivered && k != |later| - 1
      ensures ReminderSent(rows[later[k].meeting], th)
    {
      var m := later[k].meeting;
      assert later[k] == ReminderAttempt(m, th, true);
      if attempt.Some? {
        assert later[k] == attempts[k];
      } else {
        assert k < |attempts|;
      }
      assert DeliveredFor(attempts, m, th);
    }
    forall id' | id' in before && rows[id'] != before[id']
      ensures !HasPhone(before[id']) || DeliveredFor(later, id', th)
    {
      if attempt.Some? {
        AppendAttempt(attempts, attempt.value);
      }
    }
  }

  /** A pass that handled every selected row has the whole `PassEffect`. */
  lemma ProgressComplete(before: map<MeetingId, Meeting>, rows: map<MeetingId, Meeting>, th: Threshold, now: int,
                         done: set<MeetingId>, attempts: seq<ReminderAttempt>)
    requires Progress(before, rows, th, now, done, attempts)
    requires forall id :: id in before && Due(before[id], th, now) ==> id in done
    ensures PassEffect(before, rows, th, now, attempts, false)
  {
    forall k | 0 <= k < |attempts| && attempts[k].delivered
      ensures ReminderSent(rows[attempts[k].meeting], th)
    {
      var m := attempts[k].meeting;
      assert attempts[k] == ReminderAttempt(m, th, true);
    }
  }

  /** One threshold's pass: the query, then a loop over the rows it returned. */
  method RunPass(table: MeetingTable, th: Threshold, now: int) returns (attempts: seq<ReminderAttempt>, aborted: bool)
    requires table.Valid()
    modifies table
    ensures table.Valid()
    ensures PassEffect(old(table.rows), table.rows, th, now, attempts, aborted)
  {
    attempts := [];
    aborted := false;
    var due := table.Select(m => Due(m, th, now));
    if due.None? {
      return attempts, true;
    }
    ghost var before := table.rows;
    var pending := due.value;
    ghost var done: set<MeetingId> := {};
    while pending != {}
      invariant table.Valid()
      invariant pending <= due.value && done == due.value - pending
      invariant Progress(before, table.rows, th, now, done, attempts)
      decreases pending
    {
      var id :| id in pending;
      ghost var rows := table.rows;
      var attempt, stopped := RemindMeeting(table, id, th);
      if stopped {
        ProgressStopped(before, rows, th, now, done, attempts, id, attempt);
        return Logged(attempts, attempt), true;
      }
      ProgressStep(before, rows, th, now, done, attempts, id, attempt);
      attempts := Logged(attempts, attempt);
      pending := pending - {id};
      done := done + {id};
    }
    ProgressComplete(before, table.rows, th, now, done, attempts);
  }

  /** The thresholds whose passes a sweep at `now` runs. */
  function Scheduled(now: int): (r: set<Threshold>)
    ensures DayBefore in r && HourBefore in r
    ensures MorningOf in r <==> PassRuns(MorningOf, now)
  {
    if 8 <= HourOf(now) < 9 then {DayBefore, MorningOf, HourBefore} else {DayBefore, HourBefore}
  }

  /**
   * What a sweep made of the passes for the thresholds in `ran` does to the
   * rows `before`: no column but a reminder flag changes and no flag is
   * cleared; a flag is newly set only for a due row of a pass that ran, and
   * only when the row has no phone or its reminder was delivered; sends go
   * to due rows with a phone, at most once per threshold; a delivered reminder
   * has its flag set unless the sweep ended on the update after it; and a
   * sweep that was not cut short handled every due row of every pass.
   */
  ghost predicate SweepEffect(before: map<MeetingId, Meeting>, after: map<MeetingId, Meeting>, now: int,
                              ran: set<Threshold>, attempts: seq<ReminderAttempt>, aborted: bool)
  {
    && OnlyFlagsRise(before, after)
    && FlagsSetForCause(before, after, now, ran, attempts)
    && SentToDueRows(before, now, ran, attempts)
    && DeliveriesRecorded(after, attempts, aborted)
    && (!aborted ==> EveryDueRowHandled(before, after, now, ran, attempts))
  }

  /** No column but a reminder flag changes, and no flag is cleared. */
  ghost predicate OnlyFlagsRise(before: map<MeetingId, Meeting>, after: map<MeetingId, Meeting>)
  {
    && after.Keys == before.Keys
    && (forall id :: id in before ==> SameExceptReminders(before[id], after[id]))
    && (forall id, th :: id in before && ReminderSent(before[id], th) ==> ReminderSent(after[id], th))
  }

  /** A flag is newly set only for a due row of a pass that ran, with no phone or a delivered reminder. */
  ghost predicate FlagsSetForCause(before: map<MeetingId, Meeting>, after: map<MeetingId, Meeting>, now: int,
                                   ran: set<Threshold>, attempts: seq<ReminderAttempt>)
    requires after.Keys == before.Keys
  {
    forall id, th :: id in before && ReminderSent(after[id], th) && !ReminderSent(before[id], th) ==>
      && th in ran && Due(before[id], th, now)
      && (!HasPhone(before[id]) || DeliveredFor(attempts, id, th))
  }

  /** Sends go to due rows with a phone, for passes that ran, at most once per threshold. */
  ghost predicate SentToDueRows(before: map<MeetingId, Meeting>, now: int, ran: set<Threshold>, attempts: seq<ReminderAttempt>)
  {
    && (forall k :: 0 <= k < |attempts| ==>
         && attempts[k].meeting in before && attempts[k].threshold in ran
         && Due(before[attempts[k].meeting], attempts[k].threshold, now)
         && HasPhone(before[attempts[k].meeting]))
    && OncePerThreshold(attempts)
  }

  /** A delivered reminder has its flag set, unless the sweep ended on the update after it. */
  ghost predicate DeliveriesRecorded(after: map<MeetingId, Meeting>, attempts: seq<ReminderAttempt>, aborted: bool)
  {
    forall k :: 0 <= k < |attempts| && attempts[k].delivered && !(aborted && k == |attempts| - 1) ==>
      attempts[k].meeting in after && ReminderSent(after[attempts[k].meeting], attempts[k].threshold)
  }

  /** Every due row of every pass that ran was sent a reminder or had no phone, and its flag tells which succeeded. */
  ghost predicate EveryDueRowHandled(before: map<MeetingId, Meeting>, after: map<MeetingId, Meeting>, now: int,
                                     ran: set<Threshold>, attempts: seq<ReminderAttempt>)
    requires after.Keys == before.Keys
  {
    forall id, th :: id in before && th in ran && Due(before[id], th, now) ==>
      && (HasPhone(before[id]) ==> AttemptedFor(attempts, id, th))
      && (ReminderSent(after[id], th) <==> !HasPhone(before[id]) || DeliveredFor(attempts, id, th))
  }

  /** A single pass is a sweep of one threshold. */
  lemma PassIsSweep(before: map<MeetingId, Meeting>, after: map<MeetingId, Meeting>, th: Threshold, now: int,
                    attempts: seq<ReminderAttempt>, aborted: bool)
    requires PassEffect(before, after, th, now, attempts, aborted)
    ensures SweepEffect(before, after, now, {th}, attempts, aborted)
  {
    forall id, th' | id in before && ReminderSent(after[id], th') && !ReminderSent(before[id], th')
      ensures th' == th && Due(before[id], th, now) && (!HasPhone(before[id]) || DeliveredFor(attempts, id, th))
    {
      assert after[id] != before[id];
    }
    forall k | 0 <= k < |attempts| && attempts[k].delivered && !(aborted && k == |attempts| - 1)
      ensures ReminderSent(after[attempts[k].meeting], attempts[k].threshold)
    {
      assert attempts[k].threshold == th;
    }
  }

  /** Running one more pass, for a threshold not yet run, after a sweep that was not cut short. */
  lemma SweepThenPass(r0: map<MeetingId, Meeting>, r1: map<MeetingId, Meeting>, r2: map<MeetingId, Meeting>, now: int,
                      ran: set<Threshold>, first: seq<ReminderAttempt>, th: Threshold,
                      second: seq<ReminderAttempt>, aborted: bool)
    requires SweepEffect(r0, r1, now, ran, first, false)
    requires th !in ran
    requires PassEffect(r1, r2, th, now, second, aborted)
    ensures SweepEffect(r0, r2, now, ran + {th}, first + second, aborted)
  {
    PassIsSweep(r1, r2, th, now, second, aborted);
    ConcatenatedLog(first, second);
    UntouchedThreshold(r0, r1, now, ran, first, th);
    OnlyFlagsRiseTwice(r0, r1, r2);
    SweepThenPassFlags(r0, r1, r2, now, ran, first, th, second);
    SweepThenPassSends(r0, r1, now, ran, first, th, second);
    SweepThenPassRecorded(r1, r2, first, second, aborted);
    if !aborted {
      SweepThenPassHandled(r0, r1, r2, now, ran, first, th, second);
    }
  }

  /** The passes for `ran` left every flag of another threshold, and so its selection, as it was. */
  lemma UntouchedThreshold(r0: map<MeetingId, Meeting>, r1: map<MeetingId, Meeting>, now: int,
                           ran: set<Threshold>, first: seq<ReminderAttempt>, th: Threshold)
    requires OnlyFlagsRise(r0, r1) && FlagsSetForCause(r0, r1, now, ran, first)
    requires th !in ran
    ensures forall id :: id in r0 ==>
      && ReminderSent(r1[id], th) == ReminderSent(r0[id], th)
      && Due(r1[id], th, now) == Due(r0[id], th, now)
      && HasPhone(r1[id]) == HasPhone(r0[id])
  {
    forall id | id in r0
      ensures Due(r1[id], th, now) == Due(r0[id], th, now) && HasPhone(r1[id]) == HasPhone(r0[id])
    {
      SameExceptRemindersFields(r0[id], r1[id]);
    }
  }

  lemma OnlyFlagsRiseTwice(r0: map<MeetingId, Meeting>, r1: map<MeetingId, Meeting>, r2: map<MeetingId, Meeting>)
    requires OnlyFlagsRise(r0, r1) && OnlyFlagsRise(r1, r2)
    ensures OnlyFlagsRise(r0, r2)
  {
    forall id | id in r0
      ensures SameExceptReminders(r0[id], r2[id])
    {
      SameExceptRemindersFields(r0[id], r1[id]);
      SameExceptRemindersFields(r1[id], r2[id]);
    }
  }

  lemma SweepThenPassFlags(r0: map<MeetingId, Meeting>, r1: map<MeetingId, Meeting>, r2: map<MeetingId, Meeting>, now: int,
                           ran: set<Threshold>, first: seq<ReminderAttempt>, th: Threshold, second: seq<ReminderAttempt>)
    requires OnlyFlagsRise(r0, r1) && OnlyFlagsRise(r1, r2)
    requires FlagsSetForCause(r0, r1, now, ran, first) && FlagsSetForCause(r1, r2, now, {th}, second)
    requires th !in ran
    requires forall id :: id in r0 ==>
      && ReminderSent(r1[id], th) == ReminderSent(r0[id], th)
      && Due(r1[id], th, now) == Due(r0[id], th, now)
      && HasPhone(r1[id]) == HasPhone(r0[id])
    requires forall id, t :: DeliveredFor(first + second, id, t) <==> DeliveredFor(first, id, t) || DeliveredFor(second, id, t)
    ensures FlagsSetForCause(r0, r2, now, ran + {th}, first + second)
  {
  }

  lemma SweepThenPassSends(r0: map<MeetingId, Meeting>, r1: map<MeetingId, Meeting>, now: int,
                           ran: set<Threshold>, first: seq<ReminderAttempt>, th: Threshold, second: seq<ReminderAttempt>)
    requires r1.Keys == r0.Keys
    requires SentToDueRows(r0, now, ran, first) && SentToDueRows(r1, now, {th}, second)
    requires th !in ran
    requires forall id :: id in r0 ==> Due(r1[id], th, now) == Due(r0[id], th, now) && HasPhone(r1[id]) == HasPhone(r0[id])
    ensures SentToDueRows(r0, now, ran + {th}, first + second)
  {
    ConcatenatedOnce(first, second, ran, th);
    var all := first + second;
    forall k | 0 <= k < |all|
      ensures && all[k].meeting in r0 && all[k].threshold in ran + {th}
              && Due(r0[all[k].meeting], all[k].threshold, now) && HasPhone(r0[all[k].meeting])
    {
      if k < |first| {
        assert all[k] == first[k];
      } else {
        assert all[k] == second[k - |first|];
      }
    }
  }

  lemma SweepThenPassRecorded(r1: map<MeetingId, Meeting>, r2: map<MeetingId, Meeting>,
                              first: seq<ReminderAttempt>, second: seq<ReminderAttempt>, aborted: bool)
    requires OnlyFlagsRise(r1, r2)
    requires DeliveriesRecorded(r1, first, false) && DeliveriesRecorded(r2, second, aborted)
    ensures DeliveriesRecorded(r2, first + second, aborted)
  {
    var all := first + second;
    forall k | 0 <= k < |all| && all[k].delivered && !(aborted && k == |all| - 1)
      ensures all[k].meeting in r2 && ReminderSent(r2[all[k].meeting], all[k].threshold)
    {
      if k < |first| {
        assert all[k] == first[k];
      } else {
        assert all[k] == second[k - |first|];
      }
    }
  }

  lemma SweepThenPassHandled(r0: map<MeetingId, Meeting>, r1: map<MeetingId, Meeting>, r2: map<MeetingId, Meeting>, now: int,
                             ran: set<Threshold>, first: seq<ReminderAttempt>, th: Threshold, second: seq<ReminderAttempt>)
    requires OnlyFlagsRise(r0, r1) && OnlyFlagsRise(r1, r2)
    requires EveryDueRowHandled(r0, r1, now, ran, first) && EveryDueRowHandled(r1, r2, now, {th}, second)
    requires FlagsSetForCause(r1, r2, now, {th}, second) && SentToDueRows(r1, now, {th}, second)
    requires SentToDueRows(r0, now, ran, first)
    requires th !in ran
    requires forall id :: id in r0 ==>
      && ReminderSent(r1[id], th) == ReminderSent(r0[id], th)
      && Due(r1[id], th, now) == Due(r0[id], th, now)
      && HasPhone(r1[id]) == HasPhone(r0[id])
    requires forall id, t :: DeliveredFor(first + second, id, t) <==> DeliveredFor(first, id, t) || DeliveredFor(second, id, t)
    requires forall id, t :: AttemptedFor(first + second, id, t) <==> AttemptedFor(first, id, t) || AttemptedFor(second, id, t)
    ensures EveryDueRowHandled(r0, r2, now, ran + {th}, first + second)
  {
    HandledByNewPass(r0, r1, r2, now, ran, first, th, second);
    HandledByEarlierPasses(r0, r1, r2, now, ran, first, th, second);
  }

  /** The due rows of the new pass's threshold are handled by that pass alone. */
  lemma HandledByNewPass(r0: map<MeetingId, Meeting>, r1: map<MeetingId, Meeting>, r2: map<MeetingId, Meeting>, now: int,
                         ran: set<Threshold>, first: seq<ReminderAttempt>, th: Threshold, second: seq<ReminderAttempt>)
    requires r1.Keys == r0.Keys && r2.Keys == r0.Keys
    requires EveryDueRowHandled(r1, r2, now, {th}, second)
    requires forall k :: 0 <= k < |first| ==> first[k].threshold in ran
    requires th !in ran
    requires forall id :: id in r0 ==> Due(r1[id], th, now) == Due(r0[id], th, now) && HasPhone(r1[id]) == HasPhone(r0[id])
    requires forall id, t :: DeliveredFor(first + second, id, t) <==> DeliveredFor(first, id, t) || DeliveredFor(second, id, t)
    requires forall id, t :: AttemptedFor(first + second, id, t) <==> AttemptedFor(first, id, t) || AttemptedFor(second, id, t)
    ensures forall id :: id in r0 && Due(r0[id], th, now) ==>
      && (HasPhone(r0[id]) ==> AttemptedFor(first + second, id, th))
      && (ReminderSent(r2[id], th) <==> !HasPhone(r0[id]) || DeliveredFor(first + second, id, th))
  {
    forall id | id in r0 && Due(r0[id], th, now)
      ensures !DeliveredFor(first, id, th)
    {
      forall k | 0 <= k < |first|
        ensures first[k] != ReminderAttempt(id, th, true)
      {
        assert first[k].threshold in ran;
      }
    }
  }

  /** The due rows of earlier passes keep what those passes did: the new pass sets only its own flags. */
  lemma HandledByEarlierPasses(r0: map<MeetingId, Meeting>, r1: map<MeetingId, Meeting>, r2: map<MeetingId, Meeting>, now: int,
                               ran: set<Threshold>, first: seq<ReminderAttempt>, th: Threshold, second: seq<ReminderAttempt>)
    requires r1.Keys == r0.Keys
    requires OnlyFlagsRise(r1, r2)
    requires FlagsSetForCause(r1, r2, now, {th}, second)
    requires EveryDueRowHandled(r0, r1, now, ran, first)
    requires forall k :: 0 <= k < |second| ==> second[k].threshold == th
    requires th !in ran
    requires forall id, t :: DeliveredFor(first + second, id, t) <==> DeliveredFor(first, id, t) || DeliveredFor(second, id, t)
    requires forall id, t :: AttemptedFor(first + second, id, t) <==> AttemptedFor(first, id, t) || AttemptedFor(second, id, t)
    ensures forall id, t :: id in r0 && t in ran && Due(r0[id], t, now) ==>
      && (HasPhone(r0[id]) ==> AttemptedFor(first + second, id, t))
      && (ReminderSent(r2[id], t) <==> !HasPhone(r0[id]) || DeliveredFor(first + second, id, t))
  {
    forall id, t | id in r0 && t in ran && Due(r0[id], t, now)
      ensures ReminderSent(r2[id], t) == ReminderSent(r1[id], t)
      ensures !DeliveredFor(second, id, t)
    {
      forall k | 0 <= k < |second|
        ensures second[k] != ReminderAttempt(id, t, true)
      {
      }
    }
  }

  /** The two queries on a log made of two logs. */
  lemma ConcatenatedLog(first: seq<ReminderAttempt>, second: seq<ReminderAttempt>)
    ensures forall id, t :: DeliveredFor(first + second, id, t) <==> DeliveredFor(first, id, t) || DeliveredFor(second, id, t)
    ensures forall id, t :: AttemptedFor(first + second, id, t) <==> AttemptedFor(first, id, t) || AttemptedFor(second, id, t)
  {
    var all := first + second;
    forall id, t
      ensures DeliveredFor(first, id, t) ==> DeliveredFor(all, id, t)
      ensures DeliveredFor(second, id, t) ==> DeliveredFor(all, id, t)
      ensures AttemptedFor(first, id, t) ==> AttemptedFor(all, id, t)
      ensures AttemptedFor(second, id, t) ==> AttemptedFor(all, id, t)
    {
      if DeliveredFor(first, id, t) {
        var k :| 0 <= k < |first| && first[k] == ReminderAttempt(id, t, true);
        assert all[k] == first[k];
      }
      if DeliveredFor(second, id, t) {
        var k :| 0 <= k < |second| && second[k] == ReminderAttempt(id, t, true);
        assert all[|first| + k] == second[k];
      }
      if AttemptedFor(first, id, t) {
        var k :| 0 <= k < |first| && first[k].meeting == id && first[k].threshold == t;
        assert all[k] == first[k];
      }
      if AttemptedFor(second, id, t) {
        var k :| 0 <= k < |second| && second[k].meeting == id && second[k].threshold == t;
        assert all[|first| + k] == second[k];
      }
    }
    forall id, t | DeliveredFor(all, id, t)
      ensures DeliveredFor(first, id, t) || DeliveredFor(second, id, t)
    {
      var k :| 0 <= k < |all| && all[k] == ReminderAttempt(id, t, true);
      if k < |first| {
        assert first[k] == all[k];
      } else {
        assert second[k - |first|] == all[k];
      }
    }
    forall id, t | AttemptedFor(all, id, t)
      ensures AttemptedFor(first, id, t) || AttemptedFor(second, id, t)
    {
      var k :| 0 <= k < |all| && all[k].meeting == id && all[k].threshold == t;
      if k < |first| {
        assert first[k] == all[k];
      } else {
        assert second[k - |first|] == all[k];
      }
    }
  }

  /** Logs of passes for different thresholds, each once per threshold, join into one. */
  lemma ConcatenatedOnce(first: seq<ReminderAttempt>, second: seq<ReminderAttempt>, ran: set<Threshold>, th: Threshold)
    requires OncePerThreshold(first) && OncePerThreshold(second)
    requires forall k :: 0 <= k < |first| ==> first[k].threshold in ran
    requires forall k :: 0 <= k < |second| ==> second[k].threshold == th
    requires th !in ran
    ensures OncePerThreshold(first + second)
  {
    var all := first + second;
    forall k, l | 0 <= k < l < |all|
      ensures all[k].meeting != all[l].meeting || all[k].threshold != all[l].threshold
    {
      if l < |first| {
        assert all[k] == first[k] && all[l] == first[l];
      } else if k >= |first| {
        assert all[k] == second[k - |first|] && all[l] == second[l - |first|];
      } else {
        assert all[k] == first[k] && all[l] == second[l - |first|];
      }
    }
  }

  /** The last of the passes in `ran`, in the order a sweep runs them. */
  function LastRun(ran: set<Threshold>): Threshold
  {
    if HourBefore in ran then HourBefore else if MorningOf in ran then MorningOf else DayBefore
  }

  /**
   * When a pass is cut short after a sweep that was not, the due rows of the
   * passes before it stay handled.
   */
  lemma EarlierPassesKept(r0: map<MeetingId, Meeting>, r1: map<MeetingId, Meeting>, r2: map<MeetingId, Meeting>, now: int,
                          ran: set<Threshold>, first: seq<ReminderAttempt>, th: Threshold,
                          second: seq<ReminderAttempt>, aborted: bool)
    requires SweepEffect(r0, r1, now, ran, first, false)
    requires th !in ran
    requires PassEffect(r1, r2, th, now, second, aborted)
    ensures r2.Keys == r0.Keys && EveryDueRowHandled(r0, r2, now, ran, first + second)
  {
    PassIsSweep(r1, r2, th, now, second, aborted);
    ConcatenatedLog(first, second);
    HandledByEarlierPasses(r0, r1, r2, now, ran, first, th, second);
  }

  /**
   * `send_meeting_reminders`: the 24-hour pass, the morning pass between
   * 08:00 and 09:00, then the 1-hour pass; a query or update that raises ends
   * the sweep, so the passes that ran (`ran`) are the scheduled ones up to the
   * one that raised, and every pass before that one was completed.
   */
  method SendMeetingReminders(table: MeetingTable, now: int)
    returns (attempts: seq<ReminderAttempt>, aborted: bool, ghost ran: set<Threshold>)
    requires table.Valid()
    modifies table
    ensures table.Valid()
    ensures SweepEffect(old(table.rows), table.rows, now, ran, attempts, aborted)
    ensures DayBefore in ran && ran <= Scheduled(now)
    ensures HourBefore in ran ==> ran == Scheduled(now)
    ensures !aborted ==> ran == Scheduled(now)
    ensures aborted ==>
      && table.rows.Keys == old(table.rows).Keys
      && EveryDueRowHandled(old(table.rows), table.rows, now, ran - {LastRun(ran)}, attempts)
  {
    ghost var r0 := table.rows;
    var first, stopped := RunPass(table, DayBefore, now);
    PassIsSweep(r0, table.rows, DayBefore, now, first, stopped);
    attempts, aborted, ran := first, stopped, {DayBefore};
    if aborted {
      assert ran - {LastRun(ran)} == {};
      return;
    }
    if 8 <= HourOf(now) < 9 {
      ghost var r1 := table.rows;
      var morning, stoppedMorning := RunPass(table, MorningOf, now);
      SweepThenPass(r0, r1, table.rows, now, ran, attempts, MorningOf, morning, stoppedMorning);
      if stoppedMorning {
        EarlierPassesKept(r0, r1, table.rows, now, ran, attempts, MorningOf, morning, stoppedMorning);
      }
      attempts, aborted := attempts + morning, stoppedMorning;
      ghost var earlier := ran;
      ran := ran + {MorningOf};
      if aborted {
        assert ran - {LastRun(ran)} == earlier;
        return;
      }
    }
    ghost var r2 := table.rows;
    var last, stoppedLast := RunPass(table, HourBefore, now);
    SweepThenPass(r0, r2, table.rows, now, ran, attempts, HourBefore, last, stoppedLast);
    if stoppedLast {
      EarlierPassesKept(r0, r2, table.rows, now, ran, attempts, HourBefore, last, stoppedLast);
    }
    attempts, aborted := attempts + last, stoppedLast;
    ghost var earlier := ran;
    ran := ran + {HourBefore};
    assert ran == Scheduled(now);
    assert ran - {LastRun(ran)} == earlier;
  }

  /**
   * A reminder delivered and recorded by one sweep is not sent again by a
   * later sweep, whenever that runs.
   */
  lemma NoReminderTwice(r0: map<MeetingId, Meeting>, r1: map<MeetingId, Meeting>, r2: map<MeetingId, Meeting>,
                        now1: int, now2: int, ran1: set<Threshold>, first: seq<ReminderAttempt>, aborted1: bool,
                        ran2: set<Threshold>, second: seq<ReminderAttempt>, aborted2: bool, k: int)
    requires SweepEffect(r0, r1, now1, ran1, first, aborted1)
    requires SweepEffect(r1, r2, now2, ran2, second, aborted2)
    requires 0 <= k < |first| && first[k].delivered && !(aborted1 && k == |first| - 1)
    ensures !AttemptedFor(second, first[k].meeting, first[k].threshold)
  {
    assert ReminderSent(r1[first[k].meeting], first[k].threshold);
  }
}
