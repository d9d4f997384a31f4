/**
 * Calendar dates as day numbers. Day 0 is 1970-01-01, a Thursday. Weekdays use
 * Go's numbering of time.Weekday: Sunday is 0 and Saturday is 6.
 */
module Dates {
  type Date = int

  const Sunday := 0
  const Saturday := 6

  function Weekday(d: Date): (w: int)
    ensures 0 <= w < 7
  {
    (d + 4) % 7
  }

  /** Consecutive days have consecutive weekdays, and the week repeats every seven days. */
  lemma WeekdayNext(d: Date)
    ensures Weekday(d + 1) == (Weekday(d) + 1) % 7
    ensures Weekday(d + 7) == Weekday(d)
  {
  }

  /**
   * A commit timestamp: a date, a clock time and the name of the persona's
   * time zone. The zone is carried as an opaque name.
   */
  datatype Timestamp = Timestamp(day: Date, hour: int, minute: int, second: int, zone: string)
}
