/** The notification store (src/lib/store/notificationStore.ts): the list of notifications,
    newest first, and the derived count of unread ones. Each action replaces both fields;
    the new lists are given by the functions below, which model the `map`/`filter` calls.
    The current time (`new Date().toISOString()`) is a parameter. */
module NotificationStore {
  import opened Wrappers
  import opened Types

  /** An ISO timestamp as `toISOString` produces it: never empty. */
  type Timestamp = s: string | s != "" witness "1970-01-01T00:00:00.000Z"

  /** `notifications.filter(n => !n.isRead).length`. */
  function CountUnread(s: seq<Notification>): (r: nat)
    ensures r <= |s|
  {
    if s == [] then 0 else (if s[0].isRead then 0 else 1) + CountUnread(s[1..])
  }

  /** The item that `markAsRead` puts in place of a matching one. */
  function Read(n: Notification, now: Timestamp): Notification {
    n.(isRead := true, readAt := Some(now))
  }

  /** The list `markAsRead(id)` builds. */
  function MarkRead(s: seq<Notification>, id: string, now: Timestamp): seq<Notification> {
    if s == [] then []
    else [if s[0].notificationId == id then Read(s[0], now) else s[0]] + MarkRead(s[1..], id, now)
  }

  /** `readAt: n.readAt || now`: an existing non-empty timestamp is kept. */
  function KeepOrNow(readAt: Option<string>, now: Timestamp): Option<string> {
    if readAt.Some? && readAt.value != "" then readAt else Some(now)
  }

  /** The list `markAllAsRead` builds. */
  function MarkAll(s: seq<Notification>, now: Timestamp): seq<Notification> {
    if s == [] then []
    else [s[0].(isRead := true, readAt := KeepOrNow(s[0].readAt, now))] + MarkAll(s[1..], now)
  }

  /** The list `removeNotification(id)` builds. */
  function Remove(s: seq<Notification>, id: string): seq<Notification> {
    if s == [] then []
    else if s[0].notificationId == id then Remove(s[1..], id)
    else [s[0]] + Remove(s[1..], id)
  }

  predicate HasId(s: seq<Notification>, id: string) {
    exists i :: 0 <= i < |s| && s[i].notificationId == id
  }

  // ---------------------------------------------------------------------------------
  // Properties of the list operations

  lemma {:induction false} CountUnreadAppend(a: seq<Notification>, b: seq<Notification>)
    ensures CountUnread(a + b) == CountUnread(a) + CountUnread(b)
  {
    if a == [] {
      assert a + b == b;
    } else {
      assert (a + b)[0] == a[0];
      assert (a + b)[1..] == a[1..] + b;
      CountUnreadAppend(a[1..], b);
    }
  }

  /** `markAsRead` keeps length and order and changes exactly the items with that id,
      also an item already read (its `readAt` is overwritten). */
  lemma {:induction false} MarkReadAt(s: seq<Notification>, id: string, now: Timestamp)
    ensures |MarkRead(s, id, now)| == |s|
    ensures forall i :: 0 <= i < |s| ==>
      MarkRead(s, id, now)[i] == if s[i].notificationId == id then Read(s[i], now) else s[i]
  {
    if s != [] {
      MarkReadAt(s[1..], id, now);
    }
  }

  /** `markAsRead` of an id nobody has changes nothing. */
  lemma {:induction false} MarkReadUnknownId(s: seq<Notification>, id: string, now: Timestamp)
    requires !HasId(s, id)
    ensures MarkRead(s, id, now) == s
  {
    if s != [] {
      MarkReadUnknownId(s[1..], id, now);
    }
  }

  /** `markAsRead` never increases the unread count, and leaves no unread item with that id. */
  lemma {:induction false} MarkReadCount(s: seq<Notification>, id: string, now: Timestamp)
    ensures CountUnread(MarkRead(s, id, now)) <= CountUnread(s)
    ensures forall i :: 0 <= i < |MarkRead(s, id, now)| && MarkRead(s, id, now)[i].notificationId == id ==>
      MarkRead(s, id, now)[i].isRead
  {
    MarkReadAt(s, id, now);
    if s != [] {
      MarkReadCount(s[1..], id, now);
    }
  }

  /** `markAllAsRead` makes every item read, keeps it otherwise as it was, and keeps a
      non-empty `readAt`. */
  lemma {:induction false} MarkAllAt(s: seq<Notification>, now: Timestamp)
    ensures |MarkAll(s, now)| == |s|
    ensures forall i :: 0 <= i < |s| ==>
      MarkAll(s, now)[i] == s[i].(isRead := true, readAt := KeepOrNow(s[i].readAt, now))
  {
    if s != [] {
      MarkAllAt(s[1..], now);
    }
  }

  lemma {:induction false} MarkAllLeavesNoUnread(s: seq<Notification>, now: Timestamp)
    ensures CountUnread(MarkAll(s, now)) == 0
  {
    if s != [] {
      MarkAllLeavesNoUnread(s[1..], now);
    }
  }

  /** A second `markAllAsRead`, at whatever time, changes nothing. */
  lemma {:induction false} MarkAllIdempotent(s: seq<Notification>, now: Timestamp, later: Timestamp)
    ensures MarkAll(MarkAll(s, now), later) == MarkAll(s, now)
  {
    if s != [] {
      MarkAllIdempotent(s[1..], now, later);
    }
  }

  /** `removeNotification` keeps exactly the items with another id. */
  lemma {:induction false} RemoveMembers(s: seq<Notification>, id: string, n: Notification)
    ensures n in Remove(s, id) <==> n in s && n.notificationId != id
  {
    if s != [] {
      RemoveMembers(s[1..], id, n);
      assert s == [s[0]] + s[1..];
    }
  }

  /** `removeNotification` keeps the relative order of the rest: removing from a
      concatenation removes from each part. */
  lemma {:induction false} RemoveAppend(a: seq<Notification>, b: seq<Notification>, id: string)
    ensures Remove(a + b, id) == Remove(a, id) + Remove(b, id)
  {
    if a == [] {
      assert a + b == b;
    } else {
      assert (a + b)[0] == a[0];
      assert (a + b)[1..] == a[1..] + b;
      RemoveAppend(a[1..], b, id);
      if a[0].notificationId != id {
        assert [a[0]] + (Remove(a[1..], id) + Remove(b, id)) == ([a[0]] + Remove(a[1..], id)) + Remove(b, id);
      }
    }
  }

  /** Removing twice gives what removing once gives. */
  lemma {:induction false} RemoveIdempotent(s: seq<Notification>, id: string)
    ensures Remove(Remove(s, id), id) == Remove(s, id)
    ensures |Remove(s, id)| <= |s|
  {
    if s != [] {
      RemoveIdempotent(s[1..], id);
    }
  }

  // ---------------------------------------------------------------------------------
  // The store

  class NotificationStore {
    var notifications: seq<Notification>
    var unreadCount: nat

    /** The derived field agrees with the list. */
    ghost predicate Valid()
      reads this
    {
      unreadCount == CountUnread(notifications)
    }

    /** The initial state: no notifications, nothing unread. */
    constructor ()
      ensures notifications == [] && unreadCount == 0
      ensures Valid()
    {
      notifications, unreadCount := [], 0;
    }

    /** `addNotification`: the new item first, the old list after it, no de-duplication. */
    method AddNotification(n: Notification)
      modifies this
      ensures notifications == [n] + old(notifications)
      ensures |notifications| == |old(notifications)| + 1
      ensures Valid()
    {
      var updated := [n] + notifications;
      assert updated[1..] == notifications;
      notifications, unreadCount := updated, CountUnread(updated);
    }

    method MarkAsRead(id: string, now: Timestamp)
      modifies this
      ensures notifications == MarkRead(old(notifications), id, now)
      ensures |notifications| == |old(notifications)|
      ensures Valid()
    {
      MarkReadAt(notifications, id, now);
      var updated := MarkRead(notifications, id, now);
      notifications, unreadCount := updated, CountUnread(updated);
    }

    /** `markAllAsRead`: every item read, and the count set to 0 directly. */
    method MarkAllAsRead(now: Timestamp)
      modifies this
      ensures notifications == MarkAll(old(notifications), now)
      ensures unreadCount == 0
      ensures Valid()
    {
      MarkAllLeavesNoUnread(notifications, now);
      notifications, unreadCount := MarkAll(notifications, now), 0;
    }

    method RemoveNotification(id: string)
      modifies this
      ensures notifications == Remove(old(notifications), id)
      ensures Valid()
    {
      var updated := Remove(notifications, id);
      notifications, unreadCount := updated, CountUnread(updated);
    }

    /** `setNotifications`: replace the list and recount. */
    method SetNotifications(s: seq<Notification>)
      modifies this
      ensures notifications == s
      ensures Valid()
    {
      notifications, unreadCount := s, CountUnread(s);
    }

    /** `updateUnreadCount`: recount; the list is untouched. */
    method UpdateUnreadCount()
      modifies this
      ensures notifications == old(notifications)
      ensures Valid()
    {
      unreadCount := CountUnread(notifications);
    }
  }
}
