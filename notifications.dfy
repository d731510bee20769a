/**
 * The notifications page (src/pages/Notifications.tsx): a list of notification
 * records held as page state, three transitions that replace it (mark one read,
 * mark all read, delete), a view filter, the counters shown above the list and
 * the mappings from a notification's type and priority to its icon and border.
 */
module Notifications {
  import opened Collections
  import opened Text

  /** One notification; `kind` is the record's `type` field. */
  datatype Notification = Notification(
    id: int,
    kind: string,
    title: string,
    message: string,
    time: string,
    read: bool,
    priority: string)

  /** The icon shapes the page draws next to a notification. */
  datatype Glyph = CheckCircle | AlertCircle | Cross | Info

  datatype Icon = Icon(glyph: Glyph, color: string)

  /** The text colour class each icon shape is drawn with. */
  function GlyphColor(g: Glyph): string {
    match g
    case CheckCircle => "text-green-500"
    case AlertCircle => "text-yellow-500"
    case Cross => "text-red-500"
    case Info => "text-blue-500"
  }

  /** `getIcon`: one icon per known type, the info icon for everything else. */
  function GetIcon(kind: string): (r: Icon)
    ensures r.glyph == CheckCircle <==> kind == "success"
    ensures r.glyph == AlertCircle <==> kind == "warning"
    ensures r.glyph == Cross <==> kind == "error"
    ensures r.glyph == Info <==> kind != "success" && kind != "warning" && kind != "error"
    ensures r.color == GlyphColor(r.glyph)
  {
    match kind
    case "success" => Icon(CheckCircle, "text-green-500")
    case "warning" => Icon(AlertCircle, "text-yellow-500")
    case "error" => Icon(Cross, "text-red-500")
    case _ => Icon(Info, "text-blue-500")
  }

  /** `getPriorityColor`: red for high, yellow for medium, blue for anything else. */
  function PriorityColor(priority: string): (r: string)
    ensures r == "border-l-red-500" <==> priority == "high"
    ensures r == "border-l-yellow-500" <==> priority == "medium"
    ensures r == "border-l-blue-500" <==> priority != "high" && priority != "medium"
  {
    match priority
    case "high" => "border-l-red-500"
    case "medium" => "border-l-yellow-500"
    case _ => "border-l-blue-500"
  }

  /** The list the page starts with. */
  const SeedNotifications: seq<Notification> :=
    [ Notification(1, "success", "Revenue Goal Achieved",
        "Monthly revenue target of $125,000 has been reached 3 days early.", "2 minutes ago", false, "high"),
      Notification(2, "warning", "Low Inventory Alert",
        "Product \"Wireless Earbuds Pro\" has only 5 units remaining in stock.", "15 minutes ago", false, "medium"),
      Notification(3, "info", "New User Registration",
        "127 new users registered in the last 24 hours.", "1 hour ago", true, "low"),
      Notification(4, "error", "Payment Processing Error",
        "Failed to process 3 payments. Manual review required.", "2 hours ago", false, "high"),
      Notification(5, "info", "Weekly Report Ready",
        "Your weekly analytics report is ready for download.", "3 hours ago", true, "low"),
      Notification(6, "success", "Backup Completed",
        "Daily database backup completed successfully.", "6 hours ago", true, "low"),
      Notification(7, "warning", "High Server Load",
        "Server CPU usage is at 85%. Consider scaling resources.", "8 hours ago", false, "medium"),
      Notification(8, "info", "Feature Update",
        "New dashboard widgets are now available in the analytics section.", "1 day ago", true, "low") ]

  // ----- the three transitions, as functions of the list -----

  function ReadIfId(id: int): Notification -> Notification {
    (n: Notification) => if n.id == id then n.(read := true) else n
  }

  function MarkRead(n: Notification): Notification {
    n.(read := true)
  }

  /** `markAsRead(id)`: the list after setting `read` on the entries with that id. */
  function MarkedAsRead(s: seq<Notification>, id: int): seq<Notification> {
    Map(ReadIfId(id), s)
  }

  /** `markAllAsRead()`: the list after setting `read` on every entry. */
  function AllMarkedRead(s: seq<Notification>): seq<Notification> {
    Map(MarkRead, s)
  }

  function HasId(id: int): Notification -> bool {
    (n: Notification) => n.id == id
  }

  function OtherId(id: int): Notification -> bool {
    (n: Notification) => n.id != id
  }

  /** `deleteNotification(id)`: the list without the entries with that id. */
  function Deleted(s: seq<Notification>, id: int): seq<Notification> {
    Filter(OtherId(id), s)
  }

  // ----- the view filter and the counters -----

  predicate IsUnread(n: Notification) {
    !n.read
  }

  predicate IsHigh(n: Notification) {
    n.priority == "high"
  }

  predicate IsRead(n: Notification) {
    n.read
  }

  predicate NotHigh(n: Notification) {
    n.priority != "high"
  }

  /** The "Today" card counts entries whose time mentions hours or minutes. */
  predicate IsToday(n: Notification) {
    Contains(n.time, "hour") || Contains(n.time, "minute")
  }

  function UnreadWithId(id: int): Notification -> bool {
    (n: Notification) => n.id == id && !n.read
  }

  /** `filteredNotifications` for the selected filter value. */
  function View(s: seq<Notification>, filter: string): seq<Notification> {
    if filter == "unread" then Filter(IsUnread, s)
    else if filter == "high" then Filter(IsHigh, s)
    else s
  }

  /** `unreadCount`, also the number on the red badge. */
  function UnreadCount(s: seq<Notification>): nat {
    |Filter(IsUnread, s)|
  }

  /** The "High Priority" card. */
  function HighCount(s: seq<Notification>): nat {
    |Filter(IsHigh, s)|
  }

  /** The "Today" card. */
  function TodayCount(s: seq<Notification>): nat {
    |Filter(IsToday, s)|
  }

  /** No two notifications share an id, as in the seed list. */
  predicate UniqueIds(s: seq<Notification>) {
    forall i, j :: 0 <= i < j < |s| ==> s[i].id != s[j].id
  }

  // ----- properties -----

  /**
   * Marking one id read keeps length and order; it sets `read` on exactly the entries
   * with that id and leaves every other entry and every other field as it was.
   */
  lemma MarkAsReadSpec(s: seq<Notification>, id: int)
    ensures |MarkedAsRead(s, id)| == |s|
    ensures forall i :: 0 <= i < |s| ==>
      MarkedAsRead(s, id)[i] == s[i].(read := s[i].read || s[i].id == id)
  {
  }

  /** Marking the same id twice is the same as marking it once. */
  lemma MarkAsReadIdempotent(s: seq<Notification>, id: int)
    ensures MarkedAsRead(MarkedAsRead(s, id), id) == MarkedAsRead(s, id)
  {
  }

  /** Marking an id that no entry has leaves the list as it was. */
  lemma MarkAsReadAbsent(s: seq<Notification>, id: int)
    requires forall i :: 0 <= i < |s| ==> s[i].id != id
    ensures MarkedAsRead(s, id) == s
  {
  }

  /** The unread count drops by exactly the number of unread entries carrying the id. */
  lemma {:induction false} MarkAsReadUnreadCount(s: seq<Notification>, id: int)
    ensures UnreadCount(MarkedAsRead(s, id)) + |Filter(UnreadWithId(id), s)| == UnreadCount(s)
  {
    if s != [] {
      MarkAsReadUnreadCount(s[1..], id);
      var r := MarkedAsRead(s, id);
      assert r == [ReadIfId(id)(s[0])] + MarkedAsRead(s[1..], id);
      FilterConcat(IsUnread, [ReadIfId(id)(s[0])], MarkedAsRead(s[1..], id));
    }
  }

  /** With unique ids, marking an unread entry read lowers the badge by exactly one. */
  lemma MarkAsReadUnreadCountUnique(s: seq<Notification>, k: nat)
    requires UniqueIds(s)
    requires k < |s| && !s[k].read
    ensures UnreadCount(MarkedAsRead(s, s[k].id)) == UnreadCount(s) - 1
  {
    var id := s[k].id;
    MarkAsReadUnreadCount(s, id);
    AtMostOneWithId(s, id);
    FilterMonotone(UnreadWithId(id), HasId(id), s);
    SubsequenceLength(Filter(UnreadWithId(id), s), Filter(HasId(id), s));
    FilterMembership(UnreadWithId(id), s, s[k]);
  }

  /** With unique ids, marking any id read lowers the badge by at most one. */
  lemma MarkAsReadUnreadBounds(s: seq<Notification>, id: int)
    requires UniqueIds(s)
    ensures UnreadCount(s) - 1 <= UnreadCount(MarkedAsRead(s, id)) <= UnreadCount(s)
  {
    MarkAsReadUnreadCount(s, id);
    AtMostOneWithId(s, id);
    FilterMonotone(UnreadWithId(id), HasId(id), s);
    SubsequenceLength(Filter(UnreadWithId(id), s), Filter(HasId(id), s));
  }

  /** With unique ids, deleting any id removes at most one entry. */
  lemma DeleteRemovesAtMostOne(s: seq<Notification>, id: int)
    requires UniqueIds(s)
    ensures |s| - 1 <= |Deleted(s, id)| <= |s|
    ensures UniqueIds(Deleted(s, id))
  {
    AtMostOneWithId(s, id);
    DeleteSpec(s, id);
    SubsequenceUnique(Deleted(s, id), s);
  }

  /**
   * Marking entries read leaves every time untouched, so the "Today" card keeps its
   * number.
   */
  lemma {:induction false} TodayCountUnchangedByRead(s: seq<Notification>, id: int)
    ensures TodayCount(MarkedAsRead(s, id)) == TodayCount(s)
    ensures TodayCount(AllMarkedRead(s)) == TodayCount(s)
  {
    if s != [] {
      TodayCountUnchangedByRead(s[1..], id);
      assert MarkedAsRead(s, id)[1..] == MarkedAsRead(s[1..], id);
      assert AllMarkedRead(s)[1..] == AllMarkedRead(s[1..]);
    }
  }

  /** With unique ids, at most one entry carries a given id. */
  lemma {:induction false} AtMostOneWithId(s: seq<Notification>, id: int)
    requires UniqueIds(s)
    ensures |Filter(HasId(id), s)| <= 1
  {
    if s != [] {
      AtMostOneWithId(s[1..], id);
      if s[0].id == id {
        assert forall i :: 0 <= i < |s[1..]| ==> !HasId(id)(s[1..][i]) by {
          forall i | 0 <= i < |s[1..]| ensures s[1..][i].id != id {
            assert s[1..][i] == s[i + 1];
          }
        }
        FilterEmpty(HasId(id), s[1..]);
      }
    }
  }

  /** After marking all read, every entry is read and nothing else has changed. */
  lemma MarkAllAsReadSpec(s: seq<Notification>)
    ensures |AllMarkedRead(s)| == |s|
    ensures forall i :: 0 <= i < |s| ==> AllMarkedRead(s)[i] == s[i].(read := true)
    ensures UnreadCount(AllMarkedRead(s)) == 0
  {
    FilterEmpty(IsUnread, AllMarkedRead(s));
  }

  /** Marking all read is the same as marking each entry's own id read. */
  lemma MarkAllAsReadCoversEveryId(s: seq<Notification>)
    ensures forall i :: 0 <= i < |s| ==> AllMarkedRead(s)[i] == MarkedAsRead(s, s[i].id)[i]
  {
  }

  /**
   * Deleting an id removes exactly the entries with that id: the survivors are an
   * order-preserving subsequence, none has the id, every other entry survives, and
   * the survivors plus the removed entries account for the whole list.
   */
  lemma DeleteSpec(s: seq<Notification>, id: int)
    ensures IsSubsequence(Deleted(s, id), s)
    ensures forall i :: 0 <= i < |Deleted(s, id)| ==> Deleted(s, id)[i].id != id
    ensures forall n :: n in Deleted(s, id) <==> n in s && n.id != id
    ensures |Deleted(s, id)| + |Filter(HasId(id), s)| == |s|
  {
    FilterIsSubsequence(OtherId(id), s);
    forall n ensures n in Deleted(s, id) <==> n in s && n.id != id {
      FilterMembership(OtherId(id), s, n);
    }
    FilterPartition(OtherId(id), HasId(id), s);
  }

  /** Deleting an id no entry has is a no-op. */
  lemma DeleteAbsent(s: seq<Notification>, id: int)
    requires forall i :: 0 <= i < |s| ==> s[i].id != id
    ensures Deleted(s, id) == s
  {
    FilterKeepsAll(OtherId(id), s);
  }

  /** Deleting the same id twice is the same as deleting it once. */
  lemma DeleteIdempotent(s: seq<Notification>, id: int)
    ensures Deleted(Deleted(s, id), id) == Deleted(s, id)
  {
    FilterIdempotent(OtherId(id), s);
  }

  /** With unique ids, deleting a present id removes exactly one entry and keeps ids unique. */
  lemma DeleteUnique(s: seq<Notification>, k: nat)
    requires UniqueIds(s) && k < |s|
    ensures |Deleted(s, s[k].id)| == |s| - 1
    ensures UniqueIds(Deleted(s, s[k].id))
  {
    var id := s[k].id;
    DeleteSpec(s, id);
    AtMostOneWithId(s, id);
    FilterMembership(HasId(id), s, s[k]);
    SubsequenceUnique(Deleted(s, id), s);
  }

  /** A subsequence of a list with unique ids has unique ids. */
  lemma {:induction false} SubsequenceUnique(a: seq<Notification>, b: seq<Notification>)
    requires IsSubsequence(a, b) && UniqueIds(b)
    ensures UniqueIds(a)
    decreases |b|
  {
    if a != [] {
      assert forall i, j :: 0 <= i < j < |b[1..]| ==> b[1..][i] == b[i + 1] && b[1..][j] == b[j + 1];
      if a[0] == b[0] && IsSubsequence(a[1..], b[1..]) {
        SubsequenceUnique(a[1..], b[1..]);
        SubsequenceMembers(a[1..], b[1..]);
        forall j | 0 < j < |a| ensures a[0].id != a[j].id {
          assert a[j] == a[1..][j - 1];
          assert a[j] in b[1..];
        }
        forall i, j | 0 <= i < j < |a| ensures a[i].id != a[j].id {
          if i > 0 {
            assert a[i] == a[1..][i - 1] && a[j] == a[1..][j - 1];
          }
        }
      } else {
        SubsequenceUnique(a, b[1..]);
      }
    }
  }

  /** Marking read keeps ids unique, since ids are untouched. */
  lemma MarkAsReadKeepsIds(s: seq<Notification>, id: int)
    requires UniqueIds(s)
    ensures UniqueIds(MarkedAsRead(s, id)) && UniqueIds(AllMarkedRead(s))
  {
  }

  /**
   * The view is always an order-preserving subsequence of the list: the unread
   * entries for "unread", the high-priority entries for "high", everything otherwise.
   */
  lemma ViewSpec(s: seq<Notification>, filter: string)
    ensures IsSubsequence(View(s, filter), s)
    ensures filter == "unread" ==> forall n :: n in View(s, filter) <==> n in s && !n.read
    ensures filter == "high" ==> forall n :: n in View(s, filter) <==> n in s && n.priority == "high"
    ensures filter == "unread" ==> |View(s, filter)| + |Filter(IsRead, s)| == |s|
    ensures filter == "high" ==> |View(s, filter)| + |Filter(NotHigh, s)| == |s|
    ensures filter != "unread" && filter != "high" ==> View(s, filter) == s
  {
    if filter == "unread" {
      FilterIsSubsequence(IsUnread, s);
      forall n ensures n in View(s, filter) <==> n in s && !n.read {
        FilterMembership(IsUnread, s, n);
      }
      FilterPartition(IsUnread, IsRead, s);
    } else if filter == "high" {
      FilterIsSubsequence(IsHigh, s);
      forall n ensures n in View(s, filter) <==> n in s && n.priority == "high" {
        FilterMembership(IsHigh, s, n);
      }
      FilterPartition(IsHigh, NotHigh, s);
    } else {
      SubsequenceReflexive(s);
    }
  }

  /**
   * The counters agree with the view: the unread count is the length of the
   * "unread" view and never exceeds the total, the high-priority count is the length
   * of the "high" view, and the badge is hidden exactly when every entry is read.
   */
  lemma CountsSpec(s: seq<Notification>)
    ensures UnreadCount(s) == |View(s, "unread")| <= |s|
    ensures HighCount(s) == |View(s, "high")| <= |s|
    ensures TodayCount(s) <= |s|
    ensures UnreadCount(s) == 0 <==> forall i :: 0 <= i < |s| ==> s[i].read
  {
    FilterEmpty(IsUnread, s);
  }

  /** The seed list has unique ids. */
  lemma SeedUniqueIds()
    ensures UniqueIds(SeedNotifications)
  {
    var s := SeedNotifications;
    forall k | 0 <= k < |s| ensures s[k].id == k + 1 { }
  }

  /** Times in minutes or hours count as today. */
  lemma TodayExamples(n: Notification)
    ensures n.time == "2 minutes ago" ==> IsToday(n)
    ensures n.time == "8 hours ago" ==> IsToday(n)
  {
    if n.time == "2 minutes ago" {
      assert "minute" <= n.time[2..];
    } else if n.time == "8 hours ago" {
      assert "hour" <= n.time[2..];
    }
  }

  /** "1 day ago" mentions neither, so it does not count as today. */
  lemma DayAgoNotToday(n: Notification)
    ensures n.time == "1 day ago" ==> !IsToday(n)
  {
    if n.time == "1 day ago" {
      ContainsFirstChar(n.time, "hour");
      ContainsFirstChar(n.time, "minute");
    }
  }

  /** The page's notification state. */
  class NotificationCenter {
    var notifications: seq<Notification>
    var filter: string

    /** The ids in the list are unique, as in the initial list, and every handler keeps them so. */
    ghost predicate Valid()
      reads this
    {
      UniqueIds(notifications)
    }

    constructor ()
      ensures Valid()
      ensures notifications == SeedNotifications && filter == "all"
    {
      notifications := SeedNotifications;
      filter := "all";
      SeedUniqueIds();
    }

    /** Choosing an option in the filter drop-down. */
    method SetFilter(value: string)
      requires Valid()
      modifies this
      ensures Valid()
      ensures filter == value && notifications == old(notifications)
    {
      filter := value;
    }

    method MarkAsRead(id: int)
      requires Valid()
      modifies this
      ensures Valid()
      ensures notifications == MarkedAsRead(old(notifications), id)
      ensures |notifications| == |old(notifications)|
      ensures forall i :: 0 <= i < |notifications| ==>
        notifications[i] == old(notifications)[i].(read := old(notifications)[i].read || old(notifications)[i].id == id)
      ensures UnreadCount(old(notifications)) - 1 <= UnreadCount(notifications) <= UnreadCount(old(notifications))
      ensures filter == old(filter)
    {
      MarkAsReadKeepsIds(notifications, id);
      MarkAsReadUnreadBounds(notifications, id);
      notifications := MarkedAsRead(notifications, id);
    }

    method MarkAllAsRead()
      requires Valid()
      modifies this
      ensures Valid()
      ensures notifications == AllMarkedRead(old(notifications))
      ensures |notifications| == |old(notifications)|
      ensures forall i :: 0 <= i < |notifications| ==> notifications[i] == old(notifications)[i].(read := true)
      ensures UnreadCount(notifications) == 0
      ensures filter == old(filter)
    {
      MarkAsReadKeepsIds(notifications, 0);
      notifications := AllMarkedRead(notifications);
      MarkAllAsReadSpec(old(notifications));
    }

    method DeleteNotification(id: int)
      requires Valid()
      modifies this
      ensures Valid()
      ensures notifications == Deleted(old(notifications), id)
      ensures IsSubsequence(notifications, old(notifications))
      ensures forall n :: n in notifications <==> n in old(notifications) && n.id != id
      ensures |old(notifications)| - 1 <= |notifications| <= |old(notifications)|
      ensures filter == old(filter)
    {
      DeleteRemovesAtMostOne(notifications, id);
      notifications := Deleted(notifications, id);
      DeleteSpec(old(notifications), id);
    }

    /** `filteredNotifications`: what the list section shows. */
    function Visible(): seq<Notification>
      reads this
    {
      View(notifications, filter)
    }
  }
}
