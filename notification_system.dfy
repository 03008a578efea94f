/**
 * `NotificationSystem` and its `useNotifications` store: the list of
 * notifications (newest first), the unread counter and its badge, and the
 * relative-time text of each entry.
 */
module NotificationSystem {
  import opened Optional
  import opened JsText

  datatype Kind = Success | Warning | Info | Error

  /** One notification; `timestamp` is the creation time in milliseconds since the epoch. */
  datatype Notification = Notification(id: string, kind: Kind, title: string, message: string, timestamp: int, read: bool)

  // ---------------------------------------------------------------------------
  // Unread counter and badge

  /** `notifications.filter(n => !n.read).length`. */
  function UnreadCount(ns: seq<Notification>): (n: nat)
    ensures n <= |ns|
    ensures n == 0 <==> forall i :: 0 <= i < |ns| ==> ns[i].read
  {
    if ns == [] then 0 else (if ns[0].read then 0 else 1) + UnreadCount(ns[1..])
  }

  /** The unread entries whose id is `id`. */
  function UnreadWithId(ns: seq<Notification>, id: string): nat
  {
    if ns == [] then 0 else (if !ns[0].read && ns[0].id == id then 1 else 0) + UnreadWithId(ns[1..], id)
  }

  /** The badge on the bell: hidden at 0, "9+" above 9, otherwise the count. */
  function Badge(unread: nat): Option<string>
  {
    if unread > 0 then Some(if unread > 9 then "9+" else NatToString(unread)) else None
  }

  /** The badge shows exactly when something is unread, and reads back as the count up to 9. */
  lemma BadgeText(unread: nat)
    ensures Badge(unread).None? <==> unread == 0
    ensures unread > 9 ==> Badge(unread) == Some("9+")
    ensures 1 <= unread <= 9 ==> |Badge(unread).value| == 1 && ParseNat(Badge(unread).value) == unread
  {
    if 1 <= unread <= 9 {
      ParseNatToString(unread);
    }
  }

  // ---------------------------------------------------------------------------
  // The list operations of `useNotifications`

  /** `prev.map(n => n.id === id ? { ...n, read: true } : n)`. */
  function MarkedAsRead(ns: seq<Notification>, id: string): (r: seq<Notification>)
    ensures |r| == |ns|
    ensures forall i :: 0 <= i < |ns| ==> r[i] == if ns[i].id == id then ns[i].(read := true) else ns[i]
  {
    if ns == [] then []
    else [if ns[0].id == id then ns[0].(read := true) else ns[0]] + MarkedAsRead(ns[1..], id)
  }

  /** Marking as read lowers the unread count by exactly the unread entries with that id. */
  lemma {:induction false} MarkedAsReadUnread(ns: seq<Notification>, id: string)
    ensures UnreadWithId(ns, id) <= UnreadCount(ns)
    ensures UnreadCount(MarkedAsRead(ns, id)) == UnreadCount(ns) - UnreadWithId(ns, id)
  {
    if ns != [] {
      MarkedAsReadUnread(ns[1..], id);
      assert MarkedAsRead(ns, id)[1..] == MarkedAsRead(ns[1..], id);
    }
  }

  /** Marking as read never raises the unread count, and afterwards no entry with that id is unread. */
  lemma MarkedAsReadEffect(ns: seq<Notification>, id: string)
    ensures UnreadCount(MarkedAsRead(ns, id)) <= UnreadCount(ns)
    ensures forall i :: 0 <= i < |ns| && ns[i].id == id ==> MarkedAsRead(ns, id)[i].read
  {
    MarkedAsReadUnread(ns, id);
  }

  /** Marking the same id twice is marking it once. */
  lemma MarkedAsReadIdempotent(ns: seq<Notification>, id: string)
    ensures MarkedAsRead(MarkedAsRead(ns, id), id) == MarkedAsRead(ns, id)
  {
  }

  // ---------------------------------------------------------------------------
  // Relative time

  /** `formatTime`, given `now.getTime() - date.getTime()` in milliseconds. */
  function FormatTime(diff: int): string
  {
    var minutes := diff / 60000;   // Math.floor: the divisor is positive
    if minutes < 1 then "Just now"
    else if minutes < 60 then NatToString(minutes) + "m ago"
    else if minutes < 1440 then NatToString(minutes / 60) + "h ago"
    else NatToString(minutes / 1440) + "d ago"
  }

  /** The four buckets of `formatTime` in milliseconds; a negative difference is "Just now". */
  lemma FormatTimeBuckets(diff: int)
    ensures diff < 60000 ==> FormatTime(diff) == "Just now"
    ensures 60000 <= diff < 3600000 ==>
      1 <= diff / 60000 < 60 && FormatTime(diff) == NatToString(diff / 60000) + "m ago"
    ensures 3600000 <= diff < 86400000 ==>
      1 <= diff / 3600000 < 24 && FormatTime(diff) == NatToString(diff / 3600000) + "h ago"
    ensures 86400000 <= diff ==>
      1 <= diff / 86400000 && FormatTime(diff) == NatToString(diff / 86400000) + "d ago"
  {
  }

  /** The unit letter of a text of at least one minute. */
  function UnitOf(diff: int): char
  {
    var minutes := diff / 60000;
    if minutes < 60 then 'm' else if minutes < 1440 then 'h' else 'd'
  }

  /** The number in a text of at least one minute. */
  function AmountOf(diff: int): nat
    requires diff >= 0
  {
    var minutes := diff / 60000;
    if minutes < 60 then minutes else if minutes < 1440 then minutes / 60 else minutes / 1440
  }

  /** From one minute on, the text is the number, the unit letter and " ago". */
  lemma FormatTimeShape(diff: int)
    requires diff >= 60000
    ensures FormatTime(diff) == NatToString(AmountOf(diff)) + [UnitOf(diff)] + " ago"
  {
  }

  /** The unit and the number in milliseconds. */
  lemma UnitRanges(diff: int)
    requires diff >= 60000
    ensures UnitOf(diff) == 'm' <==> diff < 3600000
    ensures UnitOf(diff) == 'd' <==> 86400000 <= diff
    ensures diff < 3600000 ==> AmountOf(diff) == diff / 60000
    ensures 3600000 <= diff < 86400000 ==> AmountOf(diff) == diff / 3600000
    ensures 86400000 <= diff ==> AmountOf(diff) == diff / 86400000
  {
  }

  /** The same text means the same number and unit: the unit letter sits right after the digits. */
  lemma SameTextSameAmount(a: int, b: int)
    requires 60000 <= a && 60000 <= b
    requires FormatTime(a) == FormatTime(b)
    ensures AmountOf(a) == AmountOf(b) && UnitOf(a) == UnitOf(b)
  {
    FormatTimeShape(a);
    FormatTimeShape(b);
    var t := FormatTime(a);
    var da, db := NatToString(AmountOf(a)), NatToString(AmountOf(b));
    assert t == da + [UnitOf(a)] + " ago" == db + [UnitOf(b)] + " ago";
    assert t[..|da|] == da && t[..|db|] == db;
    assert da == db;
    assert t[|da|] == UnitOf(a) && t[|db|] == UnitOf(b);
    NatToStringInjective(AmountOf(a), AmountOf(b));
  }

  /** Two differences render alike only when they fall in the same bucket with the same count. */
  lemma FormatTimeSameText(a: int, b: int)
    requires 60000 <= a && 60000 <= b
    requires FormatTime(a) == FormatTime(b)
    ensures a < 3600000 <==> b < 3600000
    ensures a < 86400000 <==> b < 86400000
    ensures a < 3600000 ==> a / 60000 == b / 60000
    ensures 3600000 <= a < 86400000 ==> a / 3600000 == b / 3600000
    ensures 86400000 <= a ==> a / 86400000 == b / 86400000
  {
    SameTextSameAmount(a, b);
    UnitRanges(a);
    UnitRanges(b);
  }

  // ---------------------------------------------------------------------------
  // The bell panel

  /** "No notifications yet" is shown exactly when the list is empty. */
  predicate ShowsEmptyState(ns: seq<Notification>)
  {
    |ns| == 0
  }

  /** The "Clear All" button is shown exactly when the list is not empty. */
  predicate ShowsClearAll(ns: seq<Notification>)
  {
    |ns| > 0
  }

  /** Exactly one of the empty state and the "Clear All" button is shown. */
  lemma EmptyStateOrClearAll(ns: seq<Notification>)
    ensures ShowsEmptyState(ns) != ShowsClearAll(ns)
    ensures ShowsEmptyState(ns) <==> ns == []
  {
  }

  // ---------------------------------------------------------------------------
  // The store

  /** The state of `useNotifications`: the list, newest first. */
  class NotificationStore {
    var notifications: seq<Notification>

    constructor ()
      ensures notifications == []
    {
      notifications := [];
    }

    /**
     * `addNotification`: prepend a new unread entry. The random id and the
     * current time are parameters; the toast it also shows is not modelled.
     */
    method AddNotification(id: string, kind: Kind, title: string, message: string, now: int)
      modifies this
      ensures notifications == [Notification(id, kind, title, message, now, false)] + old(notifications)
      ensures |notifications| == |old(notifications)| + 1 && notifications[1..] == old(notifications)
      ensures UnreadCount(notifications) == UnreadCount(old(notifications)) + 1
    {
      var notification := Notification(id, kind, title, message, now, false);
      notifications := [notification] + notifications;
      assert notifications[1..] == old(notifications);
    }

    /** `markAsRead`: set `read` on every entry with this id. */
    method MarkAsRead(id: string)
      modifies this
      ensures notifications == MarkedAsRead(old(notifications), id)
      ensures UnreadCount(notifications) <= UnreadCount(old(notifications))
    {
      MarkedAsReadEffect(notifications, id);
      notifications := MarkedAsRead(notifications, id);
    }

    /** `clearAll`. */
    method ClearAll()
      modifies this
      ensures notifications == []
    {
      notifications := [];
    }
  }
}
