# animesh `schedule`: window and relative-time logic in Dafny

This project models the computational core of the `schedule` command of
animesh, a command-line tool that prints an anime airing schedule. The
command resolves its `--timezone` and `--day` arguments. It turns them and
`--days` into a `(start, end)` window of Unix times and queries the airing
schedules in that window. It then prints one row per airing. Each row has a
title, an episode, a status such as "2h ago" or "in 3d", and a red or blue
colour for past and future.

The clock (`Utc::now()`) and the operating system's zone
(`get_user_timezone()`) are parameters (`Command.Env`). The `utils`
lookups `match_timezone` and `parse_day_of_week` are not part of this model.
They are function parameters (`Command.Utils`), so every property holds for
any lookup that meets the hypotheses stated where a lemma needs them. The values animesh's tests pin (UTC is 0, IST is -19800,
"monday" is 0) are the predicate `Command.Pinned`, and
`Command.PinnedUtils` is a lookup that meets it.

A timezone is a chrono `FixedOffset`, identified by its `utc_minus_local`
in seconds. Local wall-clock time is UTC minus that value, so IST is -19800.
Weekdays run from Monday = 0. The local weekday of `now` is
`((now - utcMinusLocal) / 86400 + 3) % 7` with floor division, because
1970-01-01 was a Thursday.

Modules, one per part of `src/commands/schedule.rs`:

- `Calendar`: offsets, `u32`, and weekdays of Unix times.
- `Command`: the command's arguments and the resolvers `get_timezone` and `get_target_day`.
- `Window`: `get_time_range`.
- `RelativeTime`: `format_relative_time`, split into a classification (`Classify`), its text (`Render`) and a reader of the text (`Parse`).
- `TzLabel`: the timezone name in the table header.
- `Rows`: the per-row defaults and status.
- `Text` and `Wrappers`: decimal and `{:02}` rendering, ASCII upper-casing, and `Option`.

## Code and its tests

- At a magnitude of exactly one day the code prints "24h ago" and "in 24h".
  The day bucket needs more than 24 whole hours, which means at least 90000 s.
  The tests at src/commands/schedule.rs:240 and :244 expect "1d ago" and
  "in 1d" there. The model follows the code, and
  `RelativeTime.OneDayPrintsHours` proves that neither expected text occurs.
- With `--days 0` the window has zero width (`start == end`), and the
  model keeps that case (`Window.TimeRange`).
- Without `--day`, the target is today's weekday in UTC, but "today" in the
  window calculation is the local weekday. When the UTC weekday's number is
  the local one plus one (west of UTC, late on a local Monday to Saturday)
  the window starts one day after `now`; late on a local Sunday west of UTC,
  when UTC is already Monday, it starts at `now`; when it is already Monday
  locally but still Sunday in UTC, six days after; otherwise at `now` (`Window.DefaultDayShift`,
  `Window.DefaultDaySixDaysAhead`). A target day that has already passed
  this week is never rolled over to next week.
- The header label takes its sign from `utc_minus_local`, which is UTC minus
  local time, so a local IST zone (local = UTC + 5:30, `utc_minus_local` =
  -19800) prints "UTC-05:30". The usual `UTC±HH:MM` notation writes that
  zone as "UTC+05:30": the printed sign is the opposite of the convention
  (`TzLabel.LabelExamples`).

## Model

| member | source | states |
|---|---|---|
| `Calendar.LocalWeekday` | src/commands/schedule.rs:58-61 | the weekday of `now` in a zone is a weekday, 0..6 |
| `Calendar.UtcWeekday` | src/commands/schedule.rs:48-50 | today's UTC weekday is a weekday, 0..6 |
| `Calendar.ShiftByDays` | src/commands/schedule.rs:68 | adding k whole days to a time advances its weekday by k, cyclically |
| `Calendar.KnownWeekdays` | src/commands/schedule.rs:48-61 | the epoch is a Thursday (3), 2024-06-03 00:00 UTC a Monday (0) and the second before it a Sunday (6), and 2024-06-02 20:00 UTC is already Monday in IST |
| `Calendar.LocalWeekdayNearUtcWeekday` | src/commands/schedule.rs:48-61 | the local weekday equals the UTC weekday or is the one before or after it |
| `Command.PinnedUtils` | src/commands/schedule.rs:207-223 | there is a lookup with UTC = 0, IST = -19800 and monday = 0 that yields only weekdays and offsets within 14h |
| `Command.GetTimezone` | src/commands/schedule.rs:34-43 | no token, or a token the table does not know, gives the local offset; a known token gives its offset |
| `Command.GetTargetDay` | src/commands/schedule.rs:46-52 | no day, or a day the parser rejects, gives today's UTC weekday; a parsed day gives its value |
| `Command.TimezoneWithin14Hours` | src/commands/schedule.rs:202-205 | the resolved offset lies within -14h..+14h when the local offset and the table's offsets do |
| `Command.TargetDayIsWeekday` | src/commands/schedule.rs:216-220 | the target day is below 7 whenever the parser only yields weekdays |
| `Command.PinnedResolutions` | src/commands/schedule.rs:207-223 | with the pinned lookups, "UTC" resolves to 0, "IST" to -19800, "monday" to 0, and no day to a value below 7 |
| `Window.TimeRange` | src/commands/schedule.rs:58-71 | the width is exactly interval days, and zero iff the interval is 0; the start is `now` when the target day is today or earlier, else `now` plus the days still to go; the start lies in `now`..`now`+6 days for a weekday target |
| `Window.GetTimeRange` | src/commands/schedule.rs:55-72 | for every command the width is interval days and the start is not before `now`, and at most six days after it when the parser yields weekdays |
| `Window.StartFallsOnTargetDay` | src/commands/schedule.rs:61-68 | in the resolved zone the window starts on the target weekday when it is later this week, and on today otherwise (no roll-over) |
| `Window.ZoneOnlyChoosesToday` | src/commands/schedule.rs:56-68 | two zones that agree on today's weekday give the same window |
| `Window.DefaultDayShift` | src/commands/schedule.rs:46-68 | without `--day` the start is 0, 1 or 6 days after `now`: `now` iff the UTC weekday is numbered no higher than the local one, one day later iff the UTC weekday is the local one plus 1, six days later iff it is Sunday in UTC and Monday locally |
| `Window.DefaultDaySixDaysAhead` | src/commands/schedule.rs:46-68 | at 2024-06-02 20:00 UTC in IST, with no arguments, the window starts six days later |
| `Window.TwoDayWindow` | src/commands/schedule.rs:226-231 | a two-day command gives a window 2 * 24 * 3600 s wide for every clock and zone |
| `RelativeTime.Classify` | src/commands/schedule.rs:75-104 | past (ago or just now) iff `airingAt < now`; below a minute of magnitude iff just now or now; days iff the magnitude is at least 25 hours, hours iff 1 to under 25 hours, minutes iff under an hour; each count is at least 1 and is the magnitude floor-divided by its unit; the buckets are computed with `NumDays`, `NumHours` and `NumMinutes`, chrono's `Duration::num_days`/`num_hours`/`num_minutes` as truncating division |
| `RelativeTime.Render` | src/commands/schedule.rs:84-101 | the text reads back as its classification; the text of a past or future bucket contains its count followed by its unit letter; a past one starts with a digit and ends in " ago", a future one starts with "in " |
| `RelativeTime.ParseAmount` | src/commands/schedule.rs:84-99 | an accepted amount is exactly the `{}` digits of its count followed by its unit letter |
| `RelativeTime.RenderParse` | src/commands/schedule.rs:84-101 | a text the reader accepts is exactly the `format!` text of what it reads, so counts are written as `{}` writes them (no zero padding) |
| `RelativeTime.ParseExactlyRender` | src/commands/schedule.rs:84-101 | a text reads as a classification iff it is that classification's text, so the contracts that say the status reads back as a classification fix the status text |
| `RelativeTime.PaddedCountsRejected` | src/commands/schedule.rs:84-99 | "in 024h" and "024h ago", which `{}` never prints, are not read as counts |
| `RelativeTime.RenderInjective` | src/commands/schedule.rs:84-101 | different classifications never print the same text |
| `RelativeTime.RenderPastness` | src/commands/schedule.rs:80-101 | a text is "just now" or ends in "ago" exactly for the past classifications |
| `RelativeTime.FormatRelativeTime` | src/commands/schedule.rs:75-104 | the text is "just now" or ends in "ago" iff `airingAt < now`; it is "now" iff the difference is in 0..59 s and "just now" iff in -59..-1 s; the text reads back as the classification of the difference, which by `ParseExactlyRender` makes it exactly that classification's `format!` text |
| `RelativeTime.OneDayPrintsHours` | src/commands/schedule.rs:238-244 | exactly one day before or after `now` prints "24h ago" or "in 24h", which contain neither "1d ago" nor "in 1d" |
| `RelativeTime.OneHourPrintsHours` | src/commands/schedule.rs:239-243 | one hour before `now` prints a text containing "1h ago", and one hour after, one containing "in 1h" |
| `TzLabel.UtcLabel` | src/commands/schedule.rs:117-121 | the label is 9 characters: "UTC", then '+' iff `utc_minus_local` >= 0, two-digit hours below 24, ':', two-digit minutes below 60 |
| `TzLabel.UtcLabelRoundTrip` | src/commands/schedule.rs:117-121 | reading the label back gives the signed offset with its seconds dropped, and the offset itself when it is whole minutes |
| `TzLabel.TzName` | src/commands/schedule.rs:114-122 | with a token, the token upper-cased; without, the label of the local offset |
| `TzLabel.LabelExamples` | src/commands/schedule.rs:114-122 | a local IST zone prints "UTC-05:30", UTC prints "UTC+00:00", and the token "ist" prints "IST" |
| `Rows.BuildRow` | src/commands/schedule.rs:153-170 | the title is the English title, else the romaji one, else "Unknown Title"; a missing episode or airing time is 0; the row is coloured past iff `airingAt < now`, and iff its status text is "just now" or ends in "ago"; the status reads back as the classification of the airing time, so it is exactly that classification's text |
| `Rows.MissingAiringTimeIsPast` | src/commands/schedule.rs:160-170 | an entry without an airing time is shown as past for any clock after the epoch |
| `Text.NatToString` | src/commands/schedule.rs:84-99 | `{}` of a count is a non-empty run of digits, one digit iff below 10, without a leading zero |
| `Text.NatToStringRoundTrip` | src/commands/schedule.rs:84-99 | the digits of a count read back as the count |
| `Text.NatToStringInjective` | src/commands/schedule.rs:84-99 | different counts print differently |
| `Text.ZeroPad2` | src/commands/schedule.rs:121 | `{:02}` of a value gives digits that read back as the value, exactly two of them below 100 |
| `Text.ToUpper` | src/commands/schedule.rs:115 | same length, no lower-case ASCII letter left, each lower-case letter replaced by its capital and every other character kept |
| `Text.ToUpperIdempotent` | src/commands/schedule.rs:115 | upper-casing twice is upper-casing once |

## Left out

- The asynchronous `execute` flow, the `AniListClient` GraphQL query and its variables, and the `serde_json` indexing with its `unwrap` (src/commands/schedule.rs:124-148). These are network I/O and foreign libraries. `Rows.AiringSchedule` is one response entry with its fields already read as options.
- The loop that adds one row per entry and prints the table, the header cell, and the cell colours (src/commands/schedule.rs:151-174). Table rendering is a foreign library; `Rows.BuildRow` models one row and its past/future choice.
- `format_datetime` and `Utc.timestamp_opt(...).unwrap()` (src/commands/schedule.rs:162-163). `display` is not part of this model, so a row carries the airing time, not its display string.
- The warning that `get_timezone` prints to standard error for an unknown token (src/commands/schedule.rs:37). It is output only; the fallback value is modelled.
- The clock is read once, as `Env.now`. The code reads `Utc::now()` separately in `get_target_day`, `get_time_range`, `format_relative_time` and the colour test, so a run that crosses a second or a midnight may see different instants.
- `utils` (`match_timezone`, `parse_day_of_week`, `get_user_timezone`) is not part of this model. Its lookups are parameters. The test-pinned values are the predicate `Command.Pinned`. Two more properties are hypotheses wherever a lemma needs them: `Command.ParsesWeekdays` (the parser yields only weekdays; assumed by `Command.TargetDayIsWeekday` and by the six-day bound of `Window.GetTimeRange`) and `Command.TableWithin14Hours` (known offsets lie within 14 h, as the local one must, for `Command.TimezoneWithin14Hours`).
- The network tests (src/commands/schedule.rs:183-199) and the command-line parsing in src/main.rs.
- Window.TimeRange: uses unbounded integers, so it does not model `i64` overflow of the start and end times.
- RelativeTime.FormatRelativeTime: uses unbounded integers, so it does not model the panic of chrono's `Duration::seconds` outside its range or `i64` overflow of `airing_at - now`.
- Text.ToUpper: maps ASCII letters only. Rust's `to_uppercase` also maps other letters and may lengthen the string.
