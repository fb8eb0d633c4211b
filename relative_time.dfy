/**
 * The relative timestamps of the activity feed, the notification centre and
 * the collaboration panel: a difference in milliseconds is floored to
 * minutes, then hours, then days, and named by the first bucket it fits.
 */
module RelativeTime {
  import opened Wrappers
  import opened Text

  const MinuteMs: nat := 60000
  const HourMs: nat := 3600000
  const DayMs: nat := 86400000
  const WeekMs: nat := 604800000

  /** How long ago something happened, as the formatters describe it. */
  datatype Age = JustNow | MinutesAgo(n: nat) | HoursAgo(n: nat) | DaysAgo(n: nat) | CalendarDate

  /**
   * `formatDate` of the feed and of the notification centre for a difference
   * `diffMs = now - date`: `Math.floor` is Dafny's division by a positive
   * divisor.  A week or more falls back to a calendar date.
   */
  function AgeOf(diffMs: int): (r: Age)
    ensures r == JustNow <==> diffMs < 60000
    ensures r.MinutesAgo? ==> 1 <= r.n < 60
    ensures r.HoursAgo? ==> 1 <= r.n < 24
    ensures r.DaysAgo? ==> 1 <= r.n < 7
  {
    var mins := diffMs / 60000;
    var hours := mins / 60;
    var days := hours / 24;
    if mins < 1 then JustNow
    else if mins < 60 then MinutesAgo(mins)
    else if hours < 24 then HoursAgo(hours)
    else if days < 7 then DaysAgo(days)
    else CalendarDate
  }

  /** `formatLastActive` for a difference `diffMs`: the same buckets with no upper cap. */
  function LastActiveAge(diffMs: int): (r: Age)
    ensures !r.CalendarDate?
  {
    var mins := diffMs / 60000;
    if mins < 1 then JustNow
    else if mins < 60 then MinutesAgo(mins)
    else
      var hours := mins / 60;
      if hours < 24 then HoursAgo(hours)
      else DaysAgo(hours / 24)
  }

  /** Whole hours of whole minutes are whole hours of milliseconds. */
  lemma HoursOfMinutes(x: int)
    ensures (x / 60000) / 60 == x / 3600000
  {
    var q, r := x / 60000, x % 60000;
    var q2, r2 := q / 60, q % 60;
    assert x == q2 * 3600000 + (r2 * 60000 + r);
  }

  /** Whole days of whole hours are whole days of milliseconds. */
  lemma DaysOfHours(x: int)
    ensures (x / 3600000) / 24 == x / 86400000
  {
    var q, r := x / 3600000, x % 3600000;
    var q2, r2 := q / 24, q % 24;
    assert x == q2 * 86400000 + (r2 * 3600000 + r);
  }

  /** The buckets, stated directly as ranges of milliseconds. */
  lemma AgeRanges(diffMs: int)
    ensures AgeOf(diffMs) == JustNow <==> diffMs < MinuteMs
    ensures AgeOf(diffMs).MinutesAgo? <==> MinuteMs <= diffMs < HourMs
    ensures AgeOf(diffMs).HoursAgo? <==> HourMs <= diffMs < DayMs
    ensures AgeOf(diffMs).DaysAgo? <==> DayMs <= diffMs < WeekMs
    ensures AgeOf(diffMs) == CalendarDate <==> diffMs >= WeekMs
    ensures AgeOf(diffMs).MinutesAgo? ==> AgeOf(diffMs).n == diffMs / MinuteMs
    ensures AgeOf(diffMs).HoursAgo? ==> AgeOf(diffMs).n == diffMs / HourMs
    ensures AgeOf(diffMs).DaysAgo? ==> AgeOf(diffMs).n == diffMs / DayMs
  {
    HoursOfMinutes(diffMs);
    DaysOfHours(diffMs);
  }

  /** Without a cap, the last-active label agrees with the capped one below a week and says days beyond it. */
  lemma LastActiveRanges(diffMs: int)
    ensures AgeOf(diffMs) != CalendarDate ==> LastActiveAge(diffMs) == AgeOf(diffMs)
    ensures diffMs >= WeekMs ==> LastActiveAge(diffMs) == DaysAgo(diffMs / DayMs) && diffMs / DayMs >= 7
  {
    HoursOfMinutes(diffMs);
    DaysOfHours(diffMs);
  }

  /** Anything in the future reads "Just now". */
  lemma FutureIsJustNow(diffMs: int)
    requires diffMs < 0
    ensures AgeOf(diffMs) == JustNow && LastActiveAge(diffMs) == JustNow
  {
  }

  /** The text of a bucket; the calendar date is locale formatting, which is not modelled. */
  function Label(a: Age): (r: Option<string>)
    ensures r.None? <==> a == CalendarDate
    ensures a == JustNow ==> r == Some("Just now")
    ensures a.MinutesAgo? ==> r == Some(NatToString(a.n) + "m ago")
    ensures a.HoursAgo? ==> r == Some(NatToString(a.n) + "h ago")
    ensures a.DaysAgo? ==> r == Some(NatToString(a.n) + "d ago")
  {
    match a
    case JustNow => Some("Just now")
    case MinutesAgo(n) => Some(NatToString(n) + "m ago")
    case HoursAgo(n) => Some(NatToString(n) + "h ago")
    case DaysAgo(n) => Some(NatToString(n) + "d ago")
    case CalendarDate => None
  }

  /** `xm ago` names one number. */
  lemma SuffixedInjective(m: nat, n: nat, u: char, v: char)
    requires NatToString(m) + [u] + " ago" == NatToString(n) + [v] + " ago"
    requires !IsDigit(u) && !IsDigit(v)
    ensures m == n && u == v
  {
    var a, b := NatToString(m), NatToString(n);
    assert |a| == |b|;
    assert a == (a + [u] + " ago")[..|a|];
    assert b == (b + [v] + " ago")[..|b|];
    NatToStringInjective(m, n);
    assert (a + [u] + " ago")[|a|] == u;
  }

  /** A label starts with a digit exactly when it counts something, so "Just now" stands apart. */
  lemma LabelHead(a: Age)
    requires Label(a).Some?
    ensures |Label(a).value| > 0 && (a.JustNow? <==> !IsDigit(Label(a).value[0]))
  {
    if !a.JustNow? {
      var d := NatToString(a.n);
      assert IsDigit(d[0]);
      assert Label(a).value[0] == d[0];
    }
  }

  /** Different buckets never print the same text: a label can be read back. */
  lemma LabelInjective(a: Age, b: Age)
    requires Label(a).Some? && Label(a) == Label(b)
    ensures a == b
  {
    LabelHead(a);
    LabelHead(b);
    if !a.JustNow? {
      SuffixEquals(a, b);
    }
  }

  /** "Just now" is the label of the first bucket only. */
  lemma LabelJustNow(a: Age)
    ensures Label(a) == Some("Just now") <==> a == JustNow
  {
    if Label(a) == Some("Just now") {
      LabelInjective(a, JustNow);
    }
  }

  lemma SuffixEquals(a: Age, b: Age)
    requires !a.JustNow? && !b.JustNow? && !a.CalendarDate? && !b.CalendarDate?
    requires Label(a) == Label(b)
    ensures a == b
  {
    var u := if a.MinutesAgo? then 'm' else if a.HoursAgo? then 'h' else 'd';
    var v := if b.MinutesAgo? then 'm' else if b.HoursAgo? then 'h' else 'd';
    assert Label(a).value == NatToString(a.n) + [u] + " ago";
    assert Label(b).value == NatToString(b.n) + [v] + " ago";
    SuffixedInjective(a.n, b.n, u, v);
  }
}
