/**
 * Instants in the one fixed time zone of the deployment (SAST, which has no
 * daylight-saving shift). An instant is a whole number of minutes counted from
 * local midnight of day 0, so calendar days are consecutive blocks of 1440
 * minutes and `datetime.date()` is floor division.
 */
module Clock {

  const MinutesPerHour: int := 60
  const MinutesPerDay: int := 1440

  /** The local calendar day of an instant. */
  function DayOf(t: int): int
  {
    t / MinutesPerDay
  }

  /** Local midnight of the day of `t` (`replace(hour=0, minute=0, second=0)`). */
  function StartOfDay(t: int): (r: int)
    ensures r <= t < r + MinutesPerDay
    ensures r % MinutesPerDay == 0
    ensures DayOf(r) == DayOf(t)
  {
    DayOf(t) * MinutesPerDay
  }

  /** The local hour of an instant (`datetime.hour`). */
  function HourOf(t: int): (h: int)
    ensures 0 <= h < 24
    ensures StartOfDay(t) + h * MinutesPerHour <= t < StartOfDay(t) + (h + 1) * MinutesPerHour
  {
    (t % MinutesPerDay) / MinutesPerHour
  }

  /** The minute within the hour (`datetime.minute`). */
  function MinuteOf(t: int): (m: int)
    ensures 0 <= m < MinutesPerHour
    ensures (t - m) % MinutesPerHour == 0
  {
    t % MinutesPerHour
  }

  /** Day number and offset of an instant written as day * 1440 + offset. */
  lemma WithinDay(day: int, offset: int)
    requires 0 <= offset < MinutesPerDay
    ensures DayOf(day * MinutesPerDay + offset) == day
    ensures (day * MinutesPerDay + offset) % MinutesPerDay == offset
  {
  }

  /** A later instant never falls on an earlier day. */
  lemma DayOfMonotone(a: int, b: int)
    requires a <= b
    ensures DayOf(a) <= DayOf(b)
  {
  }
}
