/**
 * The notification list: the all/unread filter, the unread count, what a
 * click on a row asks the application to do, the type-to-icon and
 * type-to-colour tables and the "time ago" buckets. Everything here is a
 * pure function of the notification list, the chosen filter and "now".
 */
module NotificationsCard {
  import opened Collections
  import opened Entities

  /** `notifications.filter(n => !n.read)`: the unread notifications, in list order. */
  function Unread(ns: seq<Notification>): (r: seq<Notification>)
    ensures IsSubsequence(r, ns)
    ensures forall n :: multiset(r)[n] == if n.read then 0 else multiset(ns)[n]
    ensures forall n :: n in r <==> n in ns && !n.read
  {
    if ns == [] then []
    else
      assert ns == [ns[0]] + ns[1..];
      var rest := Unread(ns[1..]);
      assert rest != [] ==> rest[0] in rest;
      if ns[0].read then rest else [ns[0]] + rest
  }

  /** `notifications.filter(n => !n.read).length` */
  function UnreadCount(ns: seq<Notification>): (c: nat)
    ensures c <= |ns|
    ensures c == 0 <==> forall n :: n in ns ==> n.read
  {
    var u := Unread(ns);
    assert u != [] ==> u[0] in u;
    SubsequenceLength(u, ns);
    |u|
  }

  /** The count splits into the first notification and the rest. */
  lemma UnreadCountCons(ns: seq<Notification>)
    requires ns != []
    ensures UnreadCount(ns) == (if ns[0].read then 0 else 1) + UnreadCount(ns[1..])
  {
  }

  /** The card's local `filter` state: it is only ever 'all' or 'unread'. */
  datatype Filter = All | UnreadOnly

  /** `filteredNotifications`: the rows the card shows. */
  function Displayed(ns: seq<Notification>, filter: Filter): (r: seq<Notification>)
    ensures filter == All ==> r == ns
    ensures filter == UnreadOnly ==>
      IsSubsequence(r, ns) && (forall n :: n in r <==> n in ns && !n.read) && |r| == UnreadCount(ns)
  {
    if filter == UnreadOnly then Unread(ns) else ns
  }

  /** The "Mark all" button is rendered only while something is unread. */
  function ShowMarkAll(ns: seq<Notification>): (shown: bool)
    ensures shown <==> exists i :: 0 <= i < |ns| && !ns[i].read
  {
    UnreadCount(ns) > 0
  }

  /** What the card asks of its parent, in the order it asks. */
  datatype CardIntent = MarkAsRead(id: Id) | Forward(notification: Notification)

  /**
   * A click on a row: mark it read only if it is unread, then forward the
   * click when the parent supplied a click handler (`onNotificationClick?.`).
   */
  function RowClick(n: Notification, hasClickHandler: bool): (r: seq<CardIntent>)
    ensures MarkAsRead(n.id) in r <==> !n.read
    ensures forall k :: 0 <= k < |r| && r[k].MarkAsRead? ==> k == 0 && r[k].id == n.id
    ensures hasClickHandler <==> |r| > 0 && r[|r| - 1] == Forward(n)
    ensures |r| == (if n.read then 0 else 1) + (if hasClickHandler then 1 else 0)
  {
    (if n.read then [] else [MarkAsRead(n.id)]) + (if hasClickHandler then [Forward(n)] else [])
  }

  /**
   * The hover button, rendered only on unread rows: it marks the row read and
   * stops the click from reaching the row, so nothing is forwarded.
   */
  function DismissClick(n: Notification): (r: seq<CardIntent>)
    requires !n.read
    ensures |r| == 1 && r[0].MarkAsRead? && r[0].id == n.id
    ensures forall k :: 0 <= k < |r| ==> !r[k].Forward?
  {
    [MarkAsRead(n.id)]
  }

  datatype Icon = UserPlus | Heart | MessageCircle | Briefcase | Users | Bell

  /** `getNotificationIcon`; comments and messages share an icon, unknown types get the bell. */
  function IconFor(kind: NotificationType): (icon: Icon)
    ensures icon == Bell <==> kind.OtherType?
    ensures icon == MessageCircle <==> kind == CommentType || kind == MessageType
    ensures icon == UserPlus <==> kind == ConnectionType
    ensures icon == Heart <==> kind == LikeType
    ensures icon == Briefcase <==> kind == OpportunityType
    ensures icon == Users <==> kind == ClubType
  {
    match kind
    case ConnectionType => UserPlus
    case LikeType => Heart
    case CommentType => MessageCircle
    case MessageType => MessageCircle
    case OpportunityType => Briefcase
    case ClubType => Users
    case OtherType(_) => Bell
  }

  const DefaultColor: string := "bg-gray-100 text-gray-600"

  /** `getNotificationColor`: the badge colour classes of a type. */
  function ColorFor(kind: NotificationType): (c: string)
    ensures c == DefaultColor <==> kind.OtherType?
  {
    match kind
    case ConnectionType => "bg-primary/10 text-primary"
    case LikeType => "bg-destructive/10 text-destructive"
    case CommentType => "bg-secondary/10 text-secondary"
    case MessageType => "bg-purple-100 text-purple-600"
    case OpportunityType => "bg-accent/10 text-accent"
    case ClubType => "bg-blue-100 text-blue-600"
    case OtherType(_) => DefaultColor
  }

  /** Unlike the icons, the six known types all get different colours. */
  lemma ColorsDistinguishTypes(a: NotificationType, b: NotificationType)
    ensures ColorFor(a) == ColorFor(b) <==> a == b || (a.OtherType? && b.OtherType?)
  {
  }

  /** `Math.floor((now - timestamp) / 1000)` on millisecond clocks. */
  function ElapsedSeconds(timestamp: int, now: int): (d: int)
    ensures d * 1000 <= now - timestamp < (d + 1) * 1000
  {
    (now - timestamp) / 1000
  }

  /** What `formatTimestamp` shows; `OnDate` carries the locale-formatted date. */
  datatype Ago = JustNow | MinutesAgo(minutes: nat) | HoursAgo(hours: nat) | DaysAgo(days: nat) | OnDate(text: string)

  /**
   * `formatTimestamp`: under a minute (including timestamps in the future) is
   * "Just now"; then whole minutes, hours and days up to a week; after that
   * the calendar date, which `calendar` (the locale formatter) supplies.
   */
  function FormatTimestamp(timestamp: int, now: int, calendar: int -> string): (r: Ago)
    ensures var d := ElapsedSeconds(timestamp, now);
      && (r.JustNow? <==> d < 60)
      && (r.MinutesAgo? <==> 60 <= d < 3600)
      && (r.HoursAgo? <==> 3600 <= d < 86400)
      && (r.DaysAgo? <==> 86400 <= d < 604800)
      && (r.OnDate? <==> 604800 <= d)
      && (r.MinutesAgo? ==> 1 <= r.minutes < 60 && r.minutes * 60 <= d < (r.minutes + 1) * 60)
      && (r.HoursAgo? ==> 1 <= r.hours < 24 && r.hours * 3600 <= d < (r.hours + 1) * 3600)
      && (r.DaysAgo? ==> 1 <= r.days < 7 && r.days * 86400 <= d < (r.days + 1) * 86400)
      && (r.OnDate? ==> r.text == calendar(timestamp))
  {
    var d := ElapsedSeconds(timestamp, now);
    if d < 60 then JustNow
    else if d < 3600 then MinutesAgo(d / 60)
    else if d < 86400 then HoursAgo(d / 3600)
    else if d < 604800 then DaysAgo(d / 86400)
    else OnDate(calendar(timestamp))
  }
}
