/**
 * The timezone name shown in the table header ("Schedule (<name>)"):
 * the `--timezone` token upper-cased, or, without one, the local zone as
 * `UTC±HH:MM`, where the sign is that of `utc_minus_local`.
 */
module TzLabel {
  import opened Wrappers
  import opened Text
  import opened Calendar
  import opened Command

  /** `format!("UTC{}{:02}:{:02}", sign, hours, minutes)` of a `utc_minus_local`. */
  function UtcLabel(utcMinusLocal: Offset): (s: string)
    ensures |s| == 9 && s[..3] == "UTC" && s[6] == ':'
    ensures s[3] == (if utcMinusLocal >= 0 then '+' else '-')
    ensures IsNumeral(s[4..6]) && NumeralValue(s[4..6]) < 24
    ensures IsNumeral(s[7..9]) && NumeralValue(s[7..9]) < 60
  {
    var offset := utcMinusLocal;
    var hours := Abs(offset) / 3600;
    var minutes := (Abs(offset) % 3600) / 60;
    var sign := if offset >= 0 then "+" else "-";
    var s := "UTC" + sign + ZeroPad2(hours) + ":" + ZeroPad2(minutes);
    assert s[4..6] == ZeroPad2(hours);
    assert s[7..9] == ZeroPad2(minutes);
    s
  }

  /** Reads a `UTC±HH:MM` label back into signed seconds. */
  function ParseUtcLabel(s: string): Option<int> {
    if |s| == 9 && s[..3] == "UTC" && (s[3] == '+' || s[3] == '-') && s[6] == ':'
       && IsNumeral(s[4..6]) && IsNumeral(s[7..9])
    then
      var magnitude := NumeralValue(s[4..6]) * 3600 + NumeralValue(s[7..9]) * 60;
      Some(if s[3] == '+' then magnitude else -magnitude)
    else
      None
  }

  /**
   * A label reads back as its offset with the seconds dropped; it is exact for
   * every offset that is a whole number of minutes.
   */
  lemma UtcLabelRoundTrip(utcMinusLocal: Offset)
    ensures var a := Abs(utcMinusLocal);
      ParseUtcLabel(UtcLabel(utcMinusLocal)) == Some(if utcMinusLocal >= 0 then a - a % 60 else -(a - a % 60))
    ensures utcMinusLocal % 60 == 0 ==> ParseUtcLabel(UtcLabel(utcMinusLocal)) == Some(utcMinusLocal)
  {
    var s := UtcLabel(utcMinusLocal);
    var a := Abs(utcMinusLocal);
    var h, m := a / 3600, (a % 3600) / 60;
    assert s[4..6] == ZeroPad2(h);
    assert s[7..9] == ZeroPad2(m);
    assert a == h * 3600 + m * 60 + a % 60;
  }

  /** `tz_name` in `execute`, for the zone `get_timezone` resolves. */
  function TzName(cmd: ScheduleCommand, env: Env, utils: Utils): (s: string)
    ensures cmd.timezone.Some? ==> s == ToUpper(cmd.timezone.value)
    ensures cmd.timezone.None? ==> s == UtcLabel(env.localOffset)
  {
    match cmd.timezone
    case Some(tz) => ToUpper(tz)
    case None => UtcLabel(GetTimezone(cmd, env, utils))
  }

  /**
   * A local IST zone prints with a minus sign, its `utc_minus_local` being
   * negative; UTC prints with a plus sign; a token is printed upper-cased
   * even when the table does not know it.
   */
  lemma LabelExamples(interval: U32, now: int, utils: Utils)
    ensures TzName(ScheduleCommand(None, interval, None), Env(now, IST_OFFSET), utils) == "UTC-05:30"
    ensures TzName(ScheduleCommand(None, interval, None), Env(now, 0), utils) == "UTC+00:00"
    ensures TzName(ScheduleCommand(None, interval, Some("ist")), Env(now, 0), utils) == "IST"
  {
    assert ZeroPad2(5) == "05";
    assert ZeroPad2(30) == "30" by {
      assert NatToString(3) == "3";
    }
    assert ZeroPad2(0) == "00";
    assert ToUpper("ist") == "IST";
  }
}
