/** The client's notification panel (NotificationPanel.tsx): the relative
    age label of a notification, the first three technology chips with a
    "+N more" chip, and the count badge. Times are whole milliseconds; the
    current time is a parameter. */
module NotificationPanel {
  import opened Wrappers
  import opened Entities
  import Decimal

  const MsPerMinute := 60000

  datatype Age = JustNow | MinutesAgo(minutes: nat) | HoursAgo(hours: nat) | DaysAgo(days: nat)

  /** The bucket `formatTime` picks for a notification stamped `at`, seen at
      `now`: floor divisions of the difference, in minutes, hours and days. */
  function AgeOf(now: int, at: int): (a: Age)
    ensures a == JustNow <==> now - at < MsPerMinute
    ensures a.MinutesAgo? ==> 1 <= a.minutes < 60 && a.minutes == (now - at) / MsPerMinute
    ensures a.HoursAgo? ==> 1 <= a.hours < 24 && a.hours == (now - at) / (60 * MsPerMinute)
    ensures a.DaysAgo? ==> a.days >= 1 && a.days == (now - at) / (24 * 60 * MsPerMinute)
  {
    var minutes := (now - at) / MsPerMinute;
    if minutes < 1 then JustNow
    else if minutes < 60 then MinutesAgo(minutes)
    else
      var hours := minutes / 60;
      if hours < 24 then HoursAgo(hours)
      else
        DaysAgo(hours / 24)
  }

  /** The label text: "Just now", "{m}m ago", "{h}h ago" or "{d}d ago". */
  function Label(a: Age): (s: string)
    ensures s == "Just now" <==> a.JustNow?
  {
    match a
    case JustNow => "Just now"
    case MinutesAgo(m) => Unit(m, "m ago")
    case HoursAgo(h) => Unit(h, "h ago")
    case DaysAgo(d) => Unit(d, "d ago")
  }

  /** A count followed by its unit; it starts with a digit. */
  function Unit(n: nat, unit: string): (s: string)
    ensures |s| > |unit| && Decimal.IsDigit(s[0])
    ensures s[..|s| - |unit|] == Decimal.Show(n) && s[|s| - |unit|..] == unit
  {
    Decimal.Show(n) + unit
  }

  /** `formatTime`. */
  function FormatTime(now: int, at: int): (s: string)
    ensures s == "Just now" <==> now - at < MsPerMinute
  {
    Label(AgeOf(now, at))
  }

  /** The number a non-"Just now" label carries, and its unit text. */
  function Count(a: Age): nat {
    match a
    case JustNow => 0
    case MinutesAgo(m) => m
    case HoursAgo(h) => h
    case DaysAgo(d) => d
  }

  function UnitText(a: Age): string {
    match a
    case JustNow => ""
    case MinutesAgo(_) => "m ago"
    case HoursAgo(_) => "h ago"
    case DaysAgo(_) => "d ago"
  }

  /** Every other label is the decimal count followed by its unit, and the
      count reads back from the label. */
  lemma {:induction false} LabelReadsBack(a: Age)
    requires !a.JustNow?
    ensures var s := Label(a); var u := UnitText(a);
      |s| > |u| && s[|s| - |u|..] == u && Decimal.AllDigits(s[..|s| - |u|]) &&
      Decimal.Value(s[..|s| - |u|]) == Count(a)
  {
    Decimal.ValueOfShow(Count(a));
  }

  /** `technologies.slice(0, 3)`. */
  function VisibleChips(technologies: seq<string>): (r: seq<string>)
    ensures |r| == if |technologies| < 3 then |technologies| else 3
    ensures r == technologies[..|r|]
  {
    if |technologies| <= 3 then technologies else technologies[..3]
  }

  /** The "+N more" chip, shown exactly when there are more than three. */
  function MoreChip(technologies: seq<string>): (r: Option<nat>)
    ensures r.Some? <==> |technologies| > 3
    ensures r.Some? ==> |VisibleChips(technologies)| + r.value == |technologies|
  {
    if |technologies| > 3 then Some(|technologies| - 3) else None
  }

  /** The count badge, shown exactly when there is a notification. */
  function Badge(notifications: seq<Notification>): (r: Option<nat>)
    ensures r.Some? <==> |notifications| > 0
    ensures r.Some? ==> r.value == |notifications|
  {
    if |notifications| > 0 then Some(|notifications|) else None
  }
}
