/**
 * Unix time and weekdays as the schedule command sees them through chrono.
 *
 * A timezone is a chrono `FixedOffset`, identified by its `utc_minus_local`
 * value in seconds: local wall-clock time is UTC time minus that value, so a
 * zone east of Greenwich (IST, five and a half hours ahead) is -19800.
 * Weekdays are numbered from Monday = 0 to Sunday = 6.
 */
module Calendar {

  const SECONDS_PER_MINUTE := 60
  const SECONDS_PER_HOUR := 3600
  const SECONDS_PER_DAY := 86400

  /** Weekday of 1970-01-01, a Thursday, counted from Monday = 0. */
  const EPOCH_WEEKDAY := 3

  /** A `FixedOffset`'s `utc_minus_local`; chrono keeps it strictly within one day. */
  type Offset = o: int | -SECONDS_PER_DAY < o < SECONDS_PER_DAY

  /** Rust's `u32`. */
  type U32 = x: int | 0 <= x < 0x1_0000_0000

  function Abs(x: int): nat {
    if x < 0 then -x else x
  }

  /** Whole days since the epoch of a Unix time (floor division, also before 1970). */
  function DaysSinceEpoch(t: int): int {
    t / SECONDS_PER_DAY
  }

  /**
   * `weekday().num_days_from_monday()` of the instant `now` viewed in the zone
   * with the given `utc_minus_local`.
   */
  function LocalWeekday(now: int, utcMinusLocal: Offset): (d: nat)
    ensures d < 7
  {
    (DaysSinceEpoch(now - utcMinusLocal) + EPOCH_WEEKDAY) % 7
  }

  /** `Utc::now().weekday().num_days_from_monday()`. */
  function UtcWeekday(now: int): (d: nat)
    ensures d < 7
  {
    LocalWeekday(now, 0)
  }

  /** Moving `k` whole days forward moves the weekday `k` places, cyclically. */
  lemma ShiftByDays(t: int, utcMinusLocal: Offset, k: nat)
    ensures LocalWeekday(t + k * SECONDS_PER_DAY, utcMinusLocal) == (LocalWeekday(t, utcMinusLocal) + k) % 7
  {
    var a := t - utcMinusLocal;
    var q, r := a / SECONDS_PER_DAY, a % SECONDS_PER_DAY;
    assert a + k * SECONDS_PER_DAY == (q + k) * SECONDS_PER_DAY + r;
    assert DaysSinceEpoch(a + k * SECONDS_PER_DAY) == q + k;
    var w := (q + EPOCH_WEEKDAY) % 7;
    var m := (q + EPOCH_WEEKDAY) / 7;
    assert q + k + EPOCH_WEEKDAY == 7 * m + (w + k);
    assert (q + k + EPOCH_WEEKDAY) % 7 == (w + k) % 7;
  }

  /**
   * A zone's calendar day differs from the UTC day by at most one, because an
   * offset is less than a day.
   */
  lemma LocalDayNearUtcDay(now: int, utcMinusLocal: Offset)
    ensures -1 <= DaysSinceEpoch(now) - DaysSinceEpoch(now - utcMinusLocal) <= 1
  {
  }

  /** The day after a day of the week, cyclically. */
  lemma NextInCycle(x: int)
    ensures (x + 1) % 7 == (x % 7 + 1) % 7
  {
    assert x + 1 == 7 * (x / 7) + (x % 7 + 1);
  }

  /** The weekday in a zone is the UTC weekday, the one before it, or the one after it. */
  lemma LocalWeekdayNearUtcWeekday(now: int, utcMinusLocal: Offset)
    ensures var u, l := UtcWeekday(now), LocalWeekday(now, utcMinusLocal);
      l == u || l == (u + 1) % 7 || u == (l + 1) % 7
  {
    var qu, ql := DaysSinceEpoch(now), DaysSinceEpoch(now - utcMinusLocal);
    LocalDayNearUtcDay(now, utcMinusLocal);
    if qu == ql + 1 {
      NextInCycle(ql + EPOCH_WEEKDAY);
    } else if ql == qu + 1 {
      NextInCycle(qu + EPOCH_WEEKDAY);
    }
  }

  /**
   * Anchors of the weekday numbering: the epoch was a Thursday, and
   * 2024-06-03 00:00 UTC a Monday, which IST had already reached at
   * 2024-06-02 20:00 UTC.
   */
  lemma KnownWeekdays()
    ensures UtcWeekday(0) == 3
    ensures UtcWeekday(1717372800) == 0 && UtcWeekday(1717372800 - 1) == 6
    ensures LocalWeekday(1717358400, -19800) == 0
  {
  }
}
