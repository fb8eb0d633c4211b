/**
 * The notification popover (`components/notifications/notification-center.tsx`):
 * the unread counter and its badge, the tab filter, the empty-state text and
 * the relative dates.  Marking and deleting are the caller's callbacks.
 */
module NotificationCenter {
  import opened Wrappers
  import opened Text
  import opened Lists
  import opened Types
  import RelativeTime

  predicate IsUnread(n: Notification) {
    !n.read
  }

  /** `unreadCount` */
  function UnreadCount(ns: seq<Notification>): (r: nat)
    ensures r <= |ns|
    ensures r == 0 <==> forall i :: 0 <= i < |ns| ==> ns[i].read
  {
    |Filter(ns, IsUnread)|
  }

  /** Whether a notification belongs on the tab named `tab`. */
  predicate OnTab(n: Notification, tab: string) {
    if tab == "all" then true else if tab == "unread" then !n.read else n.kind.Name() == tab
  }

  /** `filteredNotifications`, in their original order. */
  function FilteredNotifications(ns: seq<Notification>, tab: string): (r: seq<Notification>)
    ensures Sublist(r, ns)
    ensures tab == "all" ==> r == ns
    ensures tab == "unread" ==> |r| == UnreadCount(ns) && forall i :: 0 <= i < |r| ==> !r[i].read
    ensures tab != "all" && tab != "unread" ==> forall i :: 0 <= i < |r| ==> r[i].kind.Name() == tab
    ensures forall i :: 0 <= i < |ns| && OnTab(ns[i], tab) ==> ns[i] in r
  {
    if tab == "all" then
      FilterAll(ns, (n: Notification) => OnTab(n, tab));
      Filter(ns, (n: Notification) => OnTab(n, tab))
    else if tab == "unread" then
      FilterSame(ns, (n: Notification) => OnTab(n, tab), IsUnread);
      Filter(ns, (n: Notification) => OnTab(n, tab))
    else
      Filter(ns, (n: Notification) => OnTab(n, tab))
  }

  /** Two tests that agree give the same filter. */
  lemma {:induction false} FilterSame(ns: seq<Notification>, p: Notification -> bool, q: Notification -> bool)
    requires forall n :: p(n) == q(n)
    ensures Filter(ns, p) == Filter(ns, q)
  {
    if ns != [] {
      FilterSame(ns[1..], p, q);
    }
  }

  /** The red badge on the bell; `None` when it is hidden. */
  function Badge(unread: nat): (r: Option<string>)
    ensures r.None? <==> unread == 0
    ensures r == Some("9+") <==> unread > 9
    ensures 0 < unread <= 9 ==> r == Some(NatToString(unread))
  {
    if unread == 0 then None else if unread > 9 then Some("9+") else Some(NatToString(unread))
  }

  /** "Mark all as read" is offered exactly when something is unread. */
  predicate MarkAllShown(ns: seq<Notification>) {
    UnreadCount(ns) > 0
  }

  /** The per-item mark button and blue dot are shown on unread items only. */
  predicate MarkOneShown(n: Notification) {
    !n.read
  }

  /** The message under "No notifications". */
  function EmptyText(tab: string): (r: string)
    ensures tab == "all" ==> r == "You don't have any notifications yet"
    ensures tab == "unread" ==> r == "You don't have any unread notifications"
    ensures tab != "all" && tab != "unread" ==> r == "You don't have any " + tab + " notifications"
  {
    if tab == "all" then "You don't have any notifications yet"
    else if tab == "unread" then "You don't have any unread notifications"
    else "You don't have any " + tab + " notifications"
  }

  /** `formatDate(date)` at time `now`, the same buckets as the activity feed. */
  function FormatDate(date: int, now: int): (r: Option<string>)
    ensures r == Some("Just now") <==> now - date < RelativeTime.MinuteMs
    ensures RelativeTime.MinuteMs <= now - date < RelativeTime.HourMs ==>
      r == Some(NatToString((now - date) / RelativeTime.MinuteMs) + "m ago")
    ensures RelativeTime.HourMs <= now - date < RelativeTime.DayMs ==>
      r == Some(NatToString((now - date) / RelativeTime.HourMs) + "h ago")
    ensures RelativeTime.DayMs <= now - date < RelativeTime.WeekMs ==>
      r == Some(NatToString((now - date) / RelativeTime.DayMs) + "d ago")
    ensures r.None? <==> now - date >= RelativeTime.WeekMs
  {
    RelativeTime.AgeRanges(now - date);
    RelativeTime.LabelJustNow(RelativeTime.AgeOf(now - date));
    RelativeTime.Label(RelativeTime.AgeOf(now - date))
  }

  /** A type tab never shows a notification of another type, and the tabs of two kinds share nothing. */
  lemma KindTabsDisjoint(ns: seq<Notification>, a: NotificationKind, b: NotificationKind)
    requires a != b
    ensures forall i, j :: 0 <= i < |FilteredNotifications(ns, a.Name())| && 0 <= j < |FilteredNotifications(ns, b.Name())| ==>
      FilteredNotifications(ns, a.Name())[i] != FilteredNotifications(ns, b.Name())[j]
  {
    NotificationNamesDistinct(a, b);
    assert a.Name() != "all" && a.Name() != "unread" && b.Name() != "all" && b.Name() != "unread";
  }
}
