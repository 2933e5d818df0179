/**
 * The `ScheduleCommand` value and the two resolvers that complete its
 * optional arguments: `get_timezone` and `get_target_day`.
 *
 * The ambient clock (`Utc::now()`) and the operating system's zone
 * (`get_user_timezone()`) are injected through `Env`. The lookups of the
 * `utils` module (`match_timezone`, `parse_day_of_week`) are injected through
 * `Utils`, so every property below holds for any lookup; the values the
 * Rust tests in schedule.rs pin are stated by `Pinned`.
 */
module Command {
  import opened Wrappers
  import opened Calendar

  /** The command's arguments: `--day`, `--days` (the interval) and `--timezone`. */
  datatype ScheduleCommand = ScheduleCommand(day: Option<string>, interval: U32, timezone: Option<string>)

  /** The Unix time of `Utc::now()` and the `utc_minus_local` of `get_user_timezone()`. */
  datatype Env = Env(now: int, localOffset: Offset)

  /** `match_timezone` and `parse_day_of_week`. */
  datatype Utils = Utils(matchTimezone: string -> Option<Offset>, parseDayOfWeek: string -> Option<U32>)

  /** IST, five and a half hours ahead of UTC, as a `utc_minus_local`. */
  const IST_OFFSET: Offset := -(5 * SECONDS_PER_HOUR + 30 * SECONDS_PER_MINUTE)

  /** The lookups' values that animesh's tests fix. */
  predicate Pinned(utils: Utils) {
    && utils.matchTimezone("UTC") == Some(0)
    && utils.matchTimezone("IST") == Some(IST_OFFSET)
    && utils.parseDayOfWeek("monday") == Some(0)
  }

  /** The day parser only ever yields a weekday. */
  ghost predicate ParsesWeekdays(utils: Utils) {
    forall s :: utils.parseDayOfWeek(s).Some? ==> utils.parseDayOfWeek(s).value < 7
  }

  /** Every offset the timezone table knows lies within -14h..+14h. */
  ghost predicate TableWithin14Hours(utils: Utils) {
    forall s :: utils.matchTimezone(s).Some? ==> Within14Hours(utils.matchTimezone(s).value)
  }

  predicate Within14Hours(o: int) {
    -14 * SECONDS_PER_HOUR <= o <= 14 * SECONDS_PER_HOUR
  }

  /** A lookup table that knows exactly the pinned names, showing that `Pinned` can be met. */
  function PinnedUtils(): (utils: Utils)
    ensures Pinned(utils)
    ensures ParsesWeekdays(utils) && TableWithin14Hours(utils)
  {
    Utils(
      (s: string) => if s == "UTC" then Some(0) else if s == "IST" then Some(IST_OFFSET) else None,
      (s: string) => if s == "monday" then Some(0) else None)
  }

  /**
   * `get_timezone`: the zone a recognised `--timezone` names, and otherwise
   * (no token, or one the table does not know) the local zone.
   */
  function GetTimezone(cmd: ScheduleCommand, env: Env, utils: Utils): (o: Offset)
    ensures cmd.timezone.None? ==> o == env.localOffset
    ensures cmd.timezone.Some? && utils.matchTimezone(cmd.timezone.value).None? ==> o == env.localOffset
    ensures cmd.timezone.Some? && utils.matchTimezone(cmd.timezone.value).Some? ==>
      o == utils.matchTimezone(cmd.timezone.value).value
  {
    match cmd.timezone
    case Some(tz) => utils.matchTimezone(tz).GetOr(env.localOffset)
    case None => env.localOffset
  }

  /**
   * `get_target_day`: the weekday a parseable `--day` names, and otherwise
   * (no token, or one the parser rejects) today's weekday in UTC.
   */
  function GetTargetDay(cmd: ScheduleCommand, env: Env, utils: Utils): (d: U32)
    ensures cmd.day.None? ==> d == UtcWeekday(env.now)
    ensures cmd.day.Some? && utils.parseDayOfWeek(cmd.day.value).None? ==> d == UtcWeekday(env.now)
    ensures cmd.day.Some? && utils.parseDayOfWeek(cmd.day.value).Some? ==>
      d == utils.parseDayOfWeek(cmd.day.value).value
  {
    match cmd.day
    case Some(day) => utils.parseDayOfWeek(day).GetOr(UtcWeekday(env.now))
    case None => UtcWeekday(env.now)
  }

  /** The resolved zone stays within -14h..+14h when the local zone and the table do. */
  lemma TimezoneWithin14Hours(cmd: ScheduleCommand, env: Env, utils: Utils)
    requires Within14Hours(env.localOffset) && TableWithin14Hours(utils)
    ensures Within14Hours(GetTimezone(cmd, env, utils))
  {
  }

  /** The resolved target day is a weekday whenever the parser only yields weekdays. */
  lemma TargetDayIsWeekday(cmd: ScheduleCommand, env: Env, utils: Utils)
    requires ParsesWeekdays(utils)
    ensures GetTargetDay(cmd, env, utils) < 7
  {
  }

  /** The resolutions animesh's tests expect: UTC is 0, IST is -19800, Monday is 0. */
  lemma PinnedResolutions(interval: U32, env: Env, utils: Utils)
    requires Pinned(utils)
    ensures GetTimezone(ScheduleCommand(None, interval, Some("UTC")), env, utils) == 0
    ensures GetTimezone(ScheduleCommand(None, interval, Some("IST")), env, utils) == -19800
    ensures GetTargetDay(ScheduleCommand(Some("monday"), interval, None), env, utils) == 0
    ensures GetTargetDay(ScheduleCommand(None, interval, None), env, utils) < 7
  {
  }
}
