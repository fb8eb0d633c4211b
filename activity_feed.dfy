/**
 * The feed of followed projects (`components/social/activity-feed.tsx`): a
 * sorted copy of the projects and the relative date of each card.
 */
module ActivityFeed {
  import opened Wrappers
  import opened Sorting
  import opened Types
  import RelativeTime
  import opened Text

  /** The score of the "trending" order: views plus two per like. */
  function Engagement(p: Project): int {
    p.views + p.likes * 2
  }

  /** `sortedProjects` for the chosen mode; an unknown mode is the comparator that answers 0. */
  function SortedProjects(ps: seq<Project>, filterBy: string): (r: seq<Project>)
    ensures |r| == |ps| && multiset(r) == multiset(ps)
    ensures filterBy == "recent" ==> Descending(r, (p: Project) => p.createdAt)
    ensures filterBy == "popular" ==> Descending(r, (p: Project) => p.likes)
    ensures filterBy == "trending" ==> Descending(r, Engagement)
    ensures filterBy != "recent" && filterBy != "popular" && filterBy != "trending" ==> r == ps
  {
    match filterBy
    case "recent" => SortDesc(ps, (p: Project) => p.createdAt)
    case "popular" => SortDesc(ps, (p: Project) => p.likes)
    case "trending" => SortDesc(ps, Engagement)
    case _ =>
      SortConstantKey(ps, (p: Project) => 0);
      SortAsc(ps, (p: Project) => 0)
  }

  /** A feed already in the chosen order is shown as it is. */
  lemma SortedFeedUnchanged(ps: seq<Project>)
    requires Descending(ps, Engagement)
    ensures SortedProjects(ps, "trending") == ps
  {
    SortDescFixed(ps, Engagement);
  }

  /** `formatDate(date)` at time `now`; `None` stands for the calendar date shown after a week. */
  function FormatDate(date: int, now: int): (r: Option<string>)
    ensures r == Some("Just now") <==> now - date < RelativeTime.MinuteMs
    ensures RelativeTime.MinuteMs <= now - date < RelativeTime.HourMs ==>
      r == Some(NatToString((now - date) / RelativeTime.MinuteMs) + "m ago")
    ensures RelativeTime.HourMs <= now - date < RelativeTime.DayMs ==>
      r == Some(NatToString((now - date) / RelativeTime.HourMs) + "h ago")
    ensures RelativeTime.DayMs <= now - date < RelativeTime.WeekMs ==>
      r == Some(NatToString((now - date) / RelativeTime.DayMs) + "d ago")
    ensures r.None? <==> now - date >= RelativeTime.WeekMs
  {
    RelativeTime.AgeRanges(now - date);
    RelativeTime.LabelJustNow(RelativeTime.AgeOf(now - date));
    RelativeTime.Label(RelativeTime.AgeOf(now - date))
  }
}
