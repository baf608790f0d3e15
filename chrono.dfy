/**
 * The slice of `chrono` the bot relies on, on integers.
 *
 * - A time of day (`NaiveTime` parsed from `%H:%M`) is a number of minutes since
 *   midnight; its seconds are always zero.
 * - A date is a day number counted from 0001-01-01 of the proleptic Gregorian
 *   calendar, which was a Monday.
 * - An instant of the local clock (`Local::now()`) is a number of nanoseconds
 *   since 0001-01-01T00:00 local time.
 */
module Chrono {
  import opened Wrappers

  const MinutesPerDay: int := 1440
  const NanosPerMinute: int := 60_000_000_000
  const NanosPerDay: int := 86_400_000_000_000

  type TimeOfDay = t: int | 0 <= t < 1440

  /** `Weekday as usize`: Mon = 0, Tue = 1, ..., Sun = 6. */
  type Weekday = w: int | 0 <= w < 7

  function Hour(t: TimeOfDay): (h: int)
    ensures 0 <= h < 24
  {
    t / 60
  }

  function Minute(t: TimeOfDay): (m: int)
    ensures 0 <= m < 60
  {
    t % 60
  }

  /** The time of day with the given hour and minute. */
  function HourMinute(h: int, m: int): (t: TimeOfDay)
    requires 0 <= h < 24 && 0 <= m < 60
    ensures Hour(t) == h && Minute(t) == m
  {
    h * 60 + m
  }

  /** An `%H:%M` parser: every string either fails or yields a bounded time of day. */
  type TimeParser = string -> Option<TimeOfDay>

  /** `NaiveTime - Duration::minutes(d)`: subtraction that wraps around midnight. */
  function ShiftBack(t: TimeOfDay, d: int): (r: TimeOfDay)
    ensures (r + d) % MinutesPerDay == t
    ensures 0 <= d <= t ==> r == t - d
    ensures t < d <= MinutesPerDay ==> r == t - d + MinutesPerDay
  {
    (t - d) % MinutesPerDay
  }

  /** A calendar date, as its day number. */
  datatype Date = Date(day: int)

  /** `Datelike::weekday`, counted from Monday. */
  function WeekdayOf(d: Date): (w: Weekday)
  {
    d.day % 7
  }

  /** Dates a week apart fall on the same weekday. */
  lemma WeekdayPeriodic(d: Date, weeks: int)
    ensures WeekdayOf(Date(d.day + 7 * weeks)) == WeekdayOf(d)
  {
  }

  /** `date.and_time(t)`: the local instant of time of day `t` on date `d`. */
  function Instant(d: Date, t: TimeOfDay): (i: int)
    ensures DateOf(i) == d
    ensures i - d.day * NanosPerDay == t * NanosPerMinute
  {
    d.day * NanosPerDay + t * NanosPerMinute
  }

  /** The local date of an instant (`Local::today()` read at instant `now`). */
  function DateOf(now: int): (d: Date)
    ensures d.day * NanosPerDay <= now < (d.day + 1) * NanosPerDay
  {
    Date(now / NanosPerDay)
  }
}
