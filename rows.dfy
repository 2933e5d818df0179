/**
 * One table row per airing schedule: the defaults for fields the response
 * lacks, the relative time and whether the status is shown as past.
 */
module Rows {
  import opened Wrappers
  import opened RelativeTime

  const UNKNOWN_TITLE := "Unknown Title"

  /**
   * The fields of one `airingSchedules` entry as `as_str()` and `as_i64()`
   * read them: `None` when the field is missing or has another JSON type.
   */
  datatype AiringSchedule = AiringSchedule(
    english: Option<string>,
    romaji: Option<string>,
    episode: Option<int>,
    airingAt: Option<int>)

  /**
   * What a row shows: title, episode, airing time, the relative-time status,
   * and whether that status is coloured as past (red) rather than future (blue).
   */
  datatype Row = Row(title: string, episode: int, airingAt: int, status: string, past: bool)

  /** The row for `schedule` with the clock read as `now`. */
  function BuildRow(schedule: AiringSchedule, now: int): (row: Row)
    ensures schedule.english.Some? ==> row.title == schedule.english.value
    ensures schedule.english.None? && schedule.romaji.Some? ==> row.title == schedule.romaji.value
    ensures schedule.english.None? && schedule.romaji.None? ==> row.title == UNKNOWN_TITLE
    ensures schedule.episode.None? ==> row.episode == 0
    ensures schedule.episode.Some? ==> row.episode == schedule.episode.value
    ensures schedule.airingAt.None? ==> row.airingAt == 0
    ensures schedule.airingAt.Some? ==> row.airingAt == schedule.airingAt.value
    ensures row.past <==> row.airingAt < now
    ensures row.past <==> IsPastText(row.status)
    ensures Parse(row.status) == Some(Classify(row.airingAt, now))
  {
    var title := schedule.english.Or(schedule.romaji).GetOr(UNKNOWN_TITLE);
    var episode := schedule.episode.GetOr(0);
    var airingAt := schedule.airingAt.GetOr(0);
    var relativeTime := FormatRelativeTime(airingAt, now);
    Row(title, episode, airingAt, relativeTime, airingAt < now)
  }

  /** An entry without an airing time is shown as aired at the epoch: past for any later clock. */
  lemma MissingAiringTimeIsPast(schedule: AiringSchedule, now: int)
    requires schedule.airingAt.None? && now > 0
    ensures BuildRow(schedule, now).past
    ensures BuildRow(schedule, now).status != "now"
  {
  }
}
