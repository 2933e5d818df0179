/**
 * `format_relative_time`: an airing time relative to now, such as "2h ago",
 * "in 3d", "just now" or "now".
 *
 * The choice of unit and count is `Classify`; the text for a choice is
 * `Render`; `Parse` reads a text back, so the text determines the choice.
 */
module RelativeTime {
  import opened Wrappers
  import opened Text
  import opened Calendar

  datatype Span = Minute | Hour | Day

  /** How the airing time stands relative to now. */
  datatype Relative =
    | Ago(count: nat, span: Span)
    | JustNow
    | In(count: nat, span: Span)
    | Now

  function SpanSeconds(span: Span): nat {
    match span
    case Minute => SECONDS_PER_MINUTE
    case Hour => SECONDS_PER_HOUR
    case Day => SECONDS_PER_DAY
  }

  function SpanLetter(span: Span): char {
    match span
    case Minute => 'm'
    case Hour => 'h'
    case Day => 'd'
  }

  function SpanOfLetter(c: char): (r: Option<Span>)
    ensures r.Some? ==> SpanLetter(r.value) == c
  {
    if c == 'm' then Some(Minute) else if c == 'h' then Some(Hour) else if c == 'd' then Some(Day) else None
  }

  /** Rust's `/` on integers, which truncates toward zero. */
  function TruncDiv(a: int, b: nat): (q: int)
    requires b > 0
    ensures a >= 0 ==> q == a / b
  {
    if a >= 0 then a / b else -((-a) / b)
  }

  /** `Duration::num_days`, `num_hours` and `num_minutes` of a duration of `secs` seconds. */
  function NumDays(secs: int): int { TruncDiv(secs, SECONDS_PER_DAY) }
  function NumHours(secs: int): int { TruncDiv(secs, SECONDS_PER_HOUR) }
  function NumMinutes(secs: int): int { TruncDiv(secs, SECONDS_PER_MINUTE) }

  /**
   * The unit and count for `diff = airingAt - now`. A past time (negative
   * difference) and a future one (the difference 0 included) are bucketed
   * alike by the magnitude: days once it exceeds 24 whole hours (so from
   * 90000 s, not from 86400 s), then hours from one hour, then minutes from
   * one minute, and below a minute "just now" or "now". Every count is the
   * magnitude divided down by its unit.
   */
  function Classify(airingAt: int, now: int): (r: Relative)
    ensures r.Ago? || r.JustNow? <==> airingAt < now
    ensures r.JustNow? || r.Now? <==> Abs(airingAt - now) < SECONDS_PER_MINUTE
    ensures (r.Ago? || r.In?) ==> r.count >= 1 && r.count == Abs(airingAt - now) / SpanSeconds(r.span)
    ensures (r.Ago? || r.In?) ==>
      && (r.span == Day <==> Abs(airingAt - now) >= 25 * SECONDS_PER_HOUR)
      && (r.span == Hour <==> SECONDS_PER_HOUR <= Abs(airingAt - now) < 25 * SECONDS_PER_HOUR)
      && (r.span == Minute <==> Abs(airingAt - now) < SECONDS_PER_HOUR)
  {
    var diff := airingAt - now;
    if diff < 0 then
      var absDuration := -diff;
      if NumHours(absDuration) > 24 then Ago(NumDays(absDuration), Day)
      else if NumHours(absDuration) > 0 then Ago(NumHours(absDuration), Hour)
      else if NumMinutes(absDuration) > 0 then Ago(NumMinutes(absDuration), Minute)
      else JustNow
    else
      var duration := diff;
      if NumHours(duration) > 24 then In(NumDays(duration), Day)
      else if NumHours(duration) > 0 then In(NumHours(duration), Hour)
      else if NumMinutes(duration) > 0 then In(NumMinutes(duration), Minute)
      else Now
  }

  /** A count followed by a unit letter, such as "24h", the count written as `{}` writes it. */
  function ParseAmount(s: string): (r: Option<(nat, Span)>)
    ensures r.Some? ==> s == NatToString(r.value.0) + [SpanLetter(r.value.1)]
  {
    if |s| >= 2 && IsNumeral(s[..|s| - 1]) && NatToString(NumeralValue(s[..|s| - 1])) == s[..|s| - 1]
       && SpanOfLetter(s[|s| - 1]).Some?
    then
      assert s == s[..|s| - 1] + [s[|s| - 1]];
      Some((NumeralValue(s[..|s| - 1]), SpanOfLetter(s[|s| - 1]).value))
    else
      None
  }

  /** Reads a relative-time text back into its classification. */
  function Parse(s: string): Option<Relative> {
    if s == "just now" then Some(JustNow)
    else if s == "now" then Some(Now)
    else if |s| >= 3 && s[..3] == "in " then
      match ParseAmount(s[3..])
      case Some((n, span)) => Some(In(n, span))
      case None => None
    else if |s| >= 4 && s[|s| - 4..] == " ago" then
      match ParseAmount(s[..|s| - 4])
      case Some((n, span)) => Some(Ago(n, span))
      case None => None
    else None
  }

  lemma AmountRoundTrip(n: nat, span: Span)
    ensures ParseAmount(NatToString(n) + [SpanLetter(span)]) == Some((n, span))
  {
    var digits := NatToString(n);
    var s := digits + [SpanLetter(span)];
    assert s[..|s| - 1] == digits;
    NatToStringRoundTrip(n);
  }

  /**
   * The `format!` text of a classification: a count with its unit letter,
   * followed by " ago" in the past and preceded by "in " in the future.
   * The text reads back as the classification.
   */
  function Render(r: Relative): (s: string)
    ensures Parse(s) == Some(r)
    ensures (r.Ago? || r.In?) ==> Contains(s, NatToString(r.count) + [SpanLetter(r.span)])
    ensures r.Ago? ==> OccursAt(s, " ago", |s| - 4) && IsDigit(s[0])
    ensures r.In? ==> OccursAt(s, "in ", 0)
  {
    match r
    case Ago(n, span) =>
      var amount := NatToString(n) + [SpanLetter(span)];
      var s := amount + " ago";
      assert OccursAt(s, amount, 0);
      assert s[0] == NatToString(n)[0];
      assert s[..3] != "in " by { assert s[..3][0] == s[0]; }
      assert s[|s| - 4..] == " ago";
      assert s[..|s| - 4] == amount;
      AmountRoundTrip(n, span);
      s
    case JustNow => "just now"
    case In(n, span) =>
      var amount := NatToString(n) + [SpanLetter(span)];
      var s := "in " + amount;
      assert OccursAt(s, amount, 3);
      assert s[0] == 'i';
      assert s != "just now" && s != "now";
      assert s[..3] == "in ";
      assert s[3..] == amount;
      AmountRoundTrip(n, span);
      assert ParseAmount(s[3..]) == Some((n, span));
      s
    case Now => "now"
  }

  /**
   * Whatever `Parse` accepts is exactly the text of what it returns, so
   * `Parse(s) == Some(r)` holds of one text only, `Render(r)`.
   */
  lemma RenderParse(s: string)
    ensures Parse(s).Some? ==> Render(Parse(s).value) == s
  {
    if s == "just now" || s == "now" {
    } else if |s| >= 3 && s[..3] == "in " {
      var amount := ParseAmount(s[3..]);
      if amount.Some? {
        var (n, span) := amount.value;
        assert Parse(s) == Some(In(n, span));
        assert s == "in " + s[3..];
      }
    } else if |s| >= 4 && s[|s| - 4..] == " ago" {
      var amount := ParseAmount(s[..|s| - 4]);
      if amount.Some? {
        var (n, span) := amount.value;
        assert Parse(s) == Some(Ago(n, span));
        assert s == s[..|s| - 4] + " ago";
      }
    }
  }

  /** A text reads as a classification exactly when it is that classification's text. */
  lemma ParseExactlyRender(s: string, r: Relative)
    ensures Parse(s) == Some(r) <==> s == Render(r)
  {
    RenderParse(s);
  }

  /** A zero-padded count, which `{}` never prints, is not read as a count. */
  lemma PaddedCountsRejected()
    ensures Parse("in 024h") == None && Parse("024h ago") == None
  {
    assert NatToString(24) == "24" by {
      assert NatToString(2) == "2";
    }
    assert "in 024h"[3..] == "024h";
    assert "024h"[..3] == "024";
    assert NumeralValue("024") == 24 by {
      assert "024"[..2] == "02" && "02"[..1] == "0";
    }
    assert "024h ago"[..4] == "024h";
  }

  /** Different classifications never print the same text. */
  lemma RenderInjective(r1: Relative, r2: Relative)
    ensures Render(r1) == Render(r2) ==> r1 == r2
  {
  }

  /** A text that reads as the past: "just now" or one ending in "ago". */
  predicate IsPastText(s: string) {
    s == "just now" || (|s| >= 3 && s[|s| - 3..] == "ago")
  }

  /** `format_relative_time(airingAt)` with the clock read as `now`. */
  function FormatRelativeTime(airingAt: int, now: int): (s: string)
    ensures IsPastText(s) <==> airingAt < now
    ensures s == "now" <==> 0 <= airingAt - now < SECONDS_PER_MINUTE
    ensures s == "just now" <==> -SECONDS_PER_MINUTE < airingAt - now < 0
    ensures Parse(s) == Some(Classify(airingAt, now))
  {
    var r := Classify(airingAt, now);
    RenderPastness(r);
    RenderInjective(r, Now);
    RenderInjective(r, JustNow);
    Render(r)
  }

  /** The text reads as the past exactly for the past classifications. */
  lemma RenderPastness(r: Relative)
    ensures IsPastText(Render(r)) <==> r.Ago? || r.JustNow?
  {
    match r
    case In(n, span) =>
      var s := Render(r);
      assert s[|s| - 1] == SpanLetter(span);
    case Ago(n, span) =>
      var s := Render(r);
      assert s[|s| - 3..] == "ago";
    case JustNow =>
    case Now =>
  }

  /**
   * At exactly one day the count is in hours: animesh's tests expect
   * "1d ago" and "in 1d" here, the code prints "24h ago" and "in 24h".
   */
  lemma OneDayPrintsHours(now: int)
    ensures FormatRelativeTime(now - SECONDS_PER_DAY, now) == "24h ago"
    ensures FormatRelativeTime(now + SECONDS_PER_DAY, now) == "in 24h"
    ensures !Contains(FormatRelativeTime(now - SECONDS_PER_DAY, now), "1d ago")
    ensures !Contains(FormatRelativeTime(now + SECONDS_PER_DAY, now), "in 1d")
  {
    assert Classify(now - SECONDS_PER_DAY, now) == Ago(24, Hour);
    assert Classify(now + SECONDS_PER_DAY, now) == In(24, Hour);
    assert NatToString(24) == "24" by {
      assert NatToString(2) == "2";
    }
    HoursTextsLackDays();
  }

  lemma HoursTextsLackDays()
    ensures !Contains("24h ago", "1d ago") && !Contains("in 24h", "in 1d")
  {
    var past, future := "24h ago", "in 24h";
    forall i | 0 <= i <= |past| - 6 ensures !OccursAt(past, "1d ago", i) {
      assert past[i..i + 6][1] != "1d ago"[1];
    }
    forall i | 0 <= i <= |future| - 5 ensures !OccursAt(future, "in 1d", i) {
      assert future[i..i + 5][4] != "in 1d"[4];
    }
  }

  /** animesh's passing cases: one hour either way prints "1h ago" and "in 1h". */
  lemma OneHourPrintsHours(now: int)
    ensures Contains(FormatRelativeTime(now - SECONDS_PER_HOUR, now), "1h ago")
    ensures Contains(FormatRelativeTime(now + SECONDS_PER_HOUR, now), "in 1h")
  {
    assert OccursAt(FormatRelativeTime(now - SECONDS_PER_HOUR, now), "1h ago", 0);
    assert OccursAt(FormatRelativeTime(now + SECONDS_PER_HOUR, now), "in 1h", 0);
  }
}
