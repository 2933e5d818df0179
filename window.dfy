/**
 * `get_time_range`: the `(start, end)` pair of Unix times the schedule is
 * queried for.
 */
module Window {
  import opened Wrappers
  import opened Calendar
  import opened Command

  datatype TimeWindow = TimeWindow(start: int, end: int)

  /**
   * The window for a target weekday, `interval` days wide, seen from `now` in
   * the zone `utcMinusLocal`. The zone only decides today's weekday: the start
   * is `now` itself (chrono's `timestamp()` of a zoned time is still the UTC
   * Unix time), moved forward by whole days when the target day is later this
   * week, and never rolled over to next week.
   */
  function TimeRange(now: int, utcMinusLocal: Offset, targetDay: U32, interval: U32): (w: TimeWindow)
    ensures w.end - w.start == interval * SECONDS_PER_DAY
    ensures w.start == w.end <==> interval == 0
    ensures targetDay <= LocalWeekday(now, utcMinusLocal) ==> w.start == now
    ensures targetDay > LocalWeekday(now, utcMinusLocal) ==>
      w.start == now + (targetDay - LocalWeekday(now, utcMinusLocal)) * SECONDS_PER_DAY
    ensures targetDay < 7 ==> now <= w.start <= now + 6 * SECONDS_PER_DAY
  {
    var currentDay := LocalWeekday(now, utcMinusLocal);
    var daysDiff := if targetDay > currentDay then targetDay - currentDay else 0;
    var start := now + daysDiff * 24 * 3600;
    var end := start + interval * 24 * 3600;
    TimeWindow(start, end)
  }

  /** `get_time_range` of a command: resolve the zone and the day, then compute the window. */
  function GetTimeRange(cmd: ScheduleCommand, env: Env, utils: Utils): (w: TimeWindow)
    ensures w.end - w.start == cmd.interval * SECONDS_PER_DAY
    ensures env.now <= w.start
    ensures ParsesWeekdays(utils) ==> w.start <= env.now + 6 * SECONDS_PER_DAY
  {
    var timezone := GetTimezone(cmd, env, utils);
    var targetDay := GetTargetDay(cmd, env, utils);
    TimeRange(env.now, timezone, targetDay, cmd.interval)
  }

  /**
   * The window starts on the target weekday when that day is still ahead this
   * week, and on today otherwise; so a day already past is not rolled over.
   */
  lemma StartFallsOnTargetDay(now: int, utcMinusLocal: Offset, targetDay: U32, interval: U32)
    requires targetDay < 7
    ensures var today := LocalWeekday(now, utcMinusLocal);
      LocalWeekday(TimeRange(now, utcMinusLocal, targetDay, interval).start, utcMinusLocal)
        == if targetDay > today then targetDay else today
  {
    var today := LocalWeekday(now, utcMinusLocal);
    if targetDay > today {
      ShiftByDays(now, utcMinusLocal, targetDay - today);
    }
  }

  /** Two zones that agree on today's weekday give the same window. */
  lemma ZoneOnlyChoosesToday(now: int, o1: Offset, o2: Offset, targetDay: U32, interval: U32)
    requires LocalWeekday(now, o1) == LocalWeekday(now, o2)
    ensures TimeRange(now, o1, targetDay, interval) == TimeRange(now, o2, targetDay, interval)
  {
  }

  /**
   * Without `--day` the target is today's UTC weekday while "today" is the
   * local weekday; the two can differ by a day, so the window may start a day,
   * or (local Monday against UTC Sunday) six days, after `now`.
   */
  lemma DefaultDayShift(cmd: ScheduleCommand, env: Env, utils: Utils)
    requires cmd.day.None?
    ensures var shift := GetTimeRange(cmd, env, utils).start - env.now;
      shift == 0 || shift == SECONDS_PER_DAY || shift == 6 * SECONDS_PER_DAY
    ensures var utcDay, localDay := UtcWeekday(env.now), LocalWeekday(env.now, GetTimezone(cmd, env, utils));
      var shift := GetTimeRange(cmd, env, utils).start - env.now;
      && (shift == 0 <==> utcDay <= localDay)
      && (shift == SECONDS_PER_DAY <==> utcDay == localDay + 1)
      && (shift == 6 * SECONDS_PER_DAY <==> utcDay == 6 && localDay == 0)
  {
    LocalWeekdayNearUtcWeekday(env.now, GetTimezone(cmd, env, utils));
  }

  /**
   * At 2024-06-02 20:00 UTC (a Sunday; already Monday in IST) a command with
   * neither `--day` nor `--timezone`, run in IST, queries from next Sunday.
   */
  lemma DefaultDaySixDaysAhead(utils: Utils)
    ensures GetTimeRange(ScheduleCommand(None, 1, None), Env(1717358400, IST_OFFSET), utils).start
      == 1717358400 + 6 * SECONDS_PER_DAY
  {
    assert UtcWeekday(1717358400) == 6;
    assert LocalWeekday(1717358400, IST_OFFSET) == 0;
  }

  /** animesh's window test: two days wide, whatever the clock and the zone. */
  lemma TwoDayWindow(env: Env, utils: Utils)
    ensures var w := GetTimeRange(ScheduleCommand(None, 2, None), env, utils);
      w.end - w.start == 2 * 24 * 3600
  {
  }
}
