/** Clock arithmetic. Every clock reading is an integer count of milliseconds in local time;
    calendar days are the integer day numbers `ms / MsPerDay` (floor division). */
module Time {

  const MsPerHour: int := 60 * 60 * 1000
  const MsPerDay: int := 24 * MsPerHour

  /** The calendar day a timestamp falls on (`date.toDateString()` up to naming). */
  function DayOf(ms: int): int {
    ms / MsPerDay
  }

  /** Local midnight at the start of the day of `ms`. */
  function MidnightOf(ms: int): (m: int)
    ensures m <= ms < m + MsPerDay
    ensures DayOf(m) == DayOf(ms)
  {
    DayOf(ms) * MsPerDay
  }

  /** `date.getHours()`. */
  function HourOf(ms: int): (h: int)
    ensures 0 <= h < 24
  {
    (ms % MsPerDay) / MsPerHour
  }

  /** A timestamp falls on day `d` exactly when it lies in `[d * MsPerDay, (d + 1) * MsPerDay)`. */
  lemma DayOfBounds(ms: int, d: int)
    ensures DayOf(ms) == d <==> d * MsPerDay <= ms < d * MsPerDay + MsPerDay
  {
  }

  /** The day of `now - 24h` is the day before the day of `now`. */
  lemma DayBefore(now: int)
    ensures DayOf(now - MsPerDay) == DayOf(now) - 1
  {
    assert now - MsPerDay == (DayOf(now) - 1) * MsPerDay + now % MsPerDay;
  }
}
