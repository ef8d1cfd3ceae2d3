/** UTC day bucketing of epoch-millisecond timestamps (habitController.js `startOfUtcDay`). */
module UtcDay {

  /** Milliseconds in a UTC day; JavaScript time has no leap seconds. */
  const DAY_MS: int := 86400000

  /** `t` is a UTC midnight. */
  predicate IsDayStart(t: int) {
    t % DAY_MS == 0
  }

  /** The UTC midnight that starts the day holding `t`. Dafny's `%` by a
      positive divisor is the floor remainder, so instants before 1970 round
      down to their midnight as well. */
  function StartOfUtcDay(t: int): (d: int)
    ensures IsDayStart(d)
    ensures d <= t < d + DAY_MS
  {
    t - t % DAY_MS
  }

  /** The number of the UTC day holding `t` (days since 1970-01-01). */
  function DayNumber(t: int): int {
    t / DAY_MS
  }

  lemma StartIsDayNumberTimesDay(t: int)
    ensures StartOfUtcDay(t) == DayNumber(t) * DAY_MS
  {
  }

  /** A midnight `d` with `d <= t < d + DAY_MS` is THE start of t's day. */
  lemma DayStartUnique(t: int, d: int)
    requires IsDayStart(d) && d <= t < d + DAY_MS
    ensures StartOfUtcDay(t) == d
  {
    var s := StartOfUtcDay(t);
    assert d == (d / DAY_MS) * DAY_MS;
    assert s == (s / DAY_MS) * DAY_MS;
    assert d - s == (d / DAY_MS - s / DAY_MS) * DAY_MS;
  }

  /** Bucketing is idempotent. */
  lemma StartOfUtcDayIdempotent(t: int)
    ensures StartOfUtcDay(StartOfUtcDay(t)) == StartOfUtcDay(t)
  {
    DayStartUnique(StartOfUtcDay(t), StartOfUtcDay(t));
  }

  /** Two instants share a bucket exactly when they fall on the same UTC day number. */
  lemma SameDayIffSameDayNumber(a: int, b: int)
    ensures StartOfUtcDay(a) == StartOfUtcDay(b) <==> DayNumber(a) == DayNumber(b)
  {
    StartIsDayNumberTimesDay(a);
    StartIsDayNumberTimesDay(b);
  }

  /** Whole days from one midnight to a later one are the difference of their day numbers. */
  lemma DaysBetweenStarts(from: int, to: int)
    ensures (StartOfUtcDay(to) - StartOfUtcDay(from)) / DAY_MS == DayNumber(to) - DayNumber(from)
  {
    StartIsDayNumberTimesDay(from);
    StartIsDayNumberTimesDay(to);
    assert StartOfUtcDay(to) - StartOfUtcDay(from) == (DayNumber(to) - DayNumber(from)) * DAY_MS;
  }
}
