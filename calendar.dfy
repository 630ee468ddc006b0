/**
 Time as the components see it. A timestamp is a count of milliseconds on the
 local wall clock, so a calendar day is a whole block of `DayMs` milliseconds
 and formatting a date as `yyyy-MM-dd` amounts to taking its day number. The
 month window that date-fns computes for "now" is handed in as a `Clock`.
 */
module Calendar {

  type Time = int

  const DayMs: int := 86_400_000

  /** The local calendar day a timestamp falls on (Dafny's `/` rounds down, as a calendar does). */
  function DayOf(t: Time): int
  {
    t / DayMs
  }

  lemma DayOfMonotone(a: Time, b: Time)
    requires a <= b
    ensures DayOf(a) <= DayOf(b)
  {
  }

  /** `date.setDate(date.getDate() - i)` moves the same wall-clock time `i` days back. */
  lemma DaysBack(t: Time, i: int)
    ensures DayOf(t - i * DayMs) == DayOf(t) - i
  {
  }

  /**
   The instant `now` and the bounds date-fns returns for `startOfMonth(now)`
   (midnight of the first day) and `endOfMonth(now)` (the last millisecond of
   the last day).
   */
  datatype Clock = Clock(now: Time, monthStart: Time, monthEnd: Time)
  {
    ghost predicate Valid()
    {
      && monthStart % DayMs == 0
      && monthEnd % DayMs == DayMs - 1
      && monthStart <= now <= monthEnd
      && 28 <= DayOf(monthEnd) - DayOf(monthStart) + 1 <= 31
    }

    /** `isWithinInterval(t, { start: monthStart, end: monthEnd })`, both ends included. */
    predicate InMonth(t: Time)
    {
      monthStart <= t <= monthEnd
    }

    /** `now.getDate()`: the day of the month, counted from 1. */
    function DayOfMonth(): (d: int)
      requires Valid()
      ensures 1 <= d <= 31
    {
      DayOfMonotone(monthStart, now);
      DayOfMonotone(now, monthEnd);
      DayOf(now) - DayOf(monthStart) + 1
    }
  }
}
