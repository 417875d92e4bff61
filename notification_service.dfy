/**
 * The in-app notification store: an ordered list of notifications, newest
 * first, and an unread counter that every operation recomputes from the list.
 * Toasts are the transient pop-ups; the store records only what it shows.
 */
module Notifications {
  import opened Common

  datatype Kind = Success | Error | Warning | Info

  /** A stored notification; `timestamp` stands for the `Date` it was created at. */
  datatype Notification = Notification(
    id: string,
    title: string,
    message: string,
    kind: Kind,
    timestamp: int,
    read: bool)

  /** A toast the service puts on screen (its DOM and lifetime are not modelled). */
  datatype Toast = Toast(title: string, message: string, kind: Kind)

  predicate IsUnread(n: Notification) { !n.read }

  /** The `n => n.id !== id` test of `removeNotification`. */
  function IdIsNot(id: string): Notification -> bool
  {
    (n: Notification) => n.id != id
  }

  /** `filter(n => !n.read).length` */
  function UnreadCount(ns: seq<Notification>): (c: nat)
    ensures c <= |ns|
  {
    |Filter(ns, IsUnread)|
  }

  /** The entry as `markAsRead(id)` leaves it. */
  function MarkOne(n: Notification, id: string): Notification
  {
    if n.id == id then n.(read := true) else n
  }

  /** The list after `markAsRead(id)`. */
  function MarkRead(ns: seq<Notification>, id: string): (r: seq<Notification>)
    ensures |r| == |ns|
  {
    seq(|ns|, i requires 0 <= i < |ns| => MarkOne(ns[i], id))
  }

  /** The list after `markAllAsRead()`. */
  function MarkAllRead(ns: seq<Notification>): (r: seq<Notification>)
    ensures |r| == |ns|
  {
    seq(|ns|, i requires 0 <= i < |ns| => ns[i].(read := true))
  }

  /** The list after `removeNotification(id)`. */
  function Without(ns: seq<Notification>, id: string): seq<Notification>
  {
    Filter(ns, IdIsNot(id))
  }

  /**
   * markAsRead changes nothing but the read flags, and sets exactly those
   * of the entries with the given id; length and order are kept.
   */
  lemma MarkReadEffect(ns: seq<Notification>, id: string)
    ensures |MarkRead(ns, id)| == |ns|
    ensures forall i :: 0 <= i < |ns| ==> MarkRead(ns, id)[i].(read := ns[i].read) == ns[i]
    ensures forall i :: 0 <= i < |ns| ==> MarkRead(ns, id)[i].read == (ns[i].read || ns[i].id == id)
  {
  }

  /** Marking the same id read twice is marking it once. */
  lemma MarkReadIdempotent(ns: seq<Notification>, id: string)
    ensures MarkRead(MarkRead(ns, id), id) == MarkRead(ns, id)
  {
  }

  /** After markAsRead(id) the unread entries are the unread entries with another id, in order. */
  lemma {:induction false} MarkReadUnread(ns: seq<Notification>, id: string)
    ensures Filter(MarkRead(ns, id), IsUnread) == Filter(Without(ns, id), IsUnread)
  {
    if ns != [] {
      MarkReadUnread(ns[1..], id);
      assert MarkRead(ns, id)[1..] == MarkRead(ns[1..], id);
      var head := if ns[0].id != id then [ns[0]] else [];
      assert Without(ns, id) == head + Without(ns[1..], id);
      FilterConcat(head, Without(ns[1..], id), IsUnread);
    }
  }

  /** markAllAsRead keeps every field but the flag, and leaves nothing unread. */
  lemma MarkAllReadEffect(ns: seq<Notification>)
    ensures forall i :: 0 <= i < |ns| ==> MarkAllRead(ns)[i].(read := ns[i].read) == ns[i]
    ensures forall i :: 0 <= i < |ns| ==> MarkAllRead(ns)[i].read
    ensures UnreadCount(MarkAllRead(ns)) == 0
  {
    FilterNone(MarkAllRead(ns), IsUnread);
  }

  /**
   * removeNotification(id) keeps exactly the entries with another id, in
   * their old order; removing an id that is not there changes nothing.
   */
  lemma WithoutEffect(ns: seq<Notification>, id: string)
    ensures forall i :: 0 <= i < |Without(ns, id)| ==> Without(ns, id)[i].id != id
    ensures forall i :: 0 <= i < |ns| && ns[i].id != id ==> ns[i] in Without(ns, id)
    ensures forall n :: n in Without(ns, id) ==> n in ns
    ensures IsSubsequence(Without(ns, id), ns)
    ensures (forall i :: 0 <= i < |ns| ==> ns[i].id != id) ==> Without(ns, id) == ns
  {
    FilterIsSubsequence(ns, IdIsNot(id));
    if forall i :: 0 <= i < |ns| ==> ns[i].id != id {
      FilterAll(ns, IdIsNot(id));
    }
  }

  /** Putting an unread entry in front adds one to the unread count. */
  lemma UnreadCountPrepend(n: Notification, ns: seq<Notification>)
    requires !n.read
    ensures UnreadCount([n] + ns) == UnreadCount(ns) + 1
  {
    assert ([n] + ns)[1..] == ns;
  }

  class NotificationService {
    var notifications: seq<Notification>
    var unreadCount: nat

    /** The counter agrees with the list. */
    ghost predicate Valid()
      reads this
    {
      unreadCount == UnreadCount(notifications)
    }

    constructor ()
      ensures Valid() && notifications == [] && unreadCount == 0
    {
      notifications := [];
      unreadCount := 0;
    }

    /** `updateUnreadCount()` */
    method UpdateUnreadCount()
      modifies this`unreadCount
      ensures Valid()
    {
      unreadCount := UnreadCount(notifications);
    }

    /** `addNotification`: the id and the timestamp are the caller's `Date.now()` and `new Date()`. */
    method AddNotification(title: string, message: string, kind: Kind, id: string, timestamp: int)
      modifies this
      ensures Valid()
      ensures notifications == [Notification(id, title, message, kind, timestamp, false)] + old(notifications)
      ensures old(Valid()) ==> unreadCount == old(unreadCount) + 1
    {
      var n := Notification(id, title, message, kind, timestamp, false);
      UnreadCountPrepend(n, notifications);
      notifications := [n] + notifications;
      UpdateUnreadCount();
    }

    method MarkAsRead(id: string)
      modifies this
      ensures Valid()
      ensures notifications == MarkRead(old(notifications), id)
      ensures unreadCount == UnreadCount(Without(old(notifications), id))
    {
      MarkReadUnread(notifications, id);
      notifications := MarkRead(notifications, id);
      UpdateUnreadCount();
    }

    method MarkAllAsRead()
      modifies this
      ensures Valid()
      ensures notifications == MarkAllRead(old(notifications))
      ensures unreadCount == 0
    {
      MarkAllReadEffect(notifications);
      notifications := MarkAllRead(notifications);
      UpdateUnreadCount();
    }

    method RemoveNotification(id: string)
      modifies this
      ensures Valid()
      ensures notifications == Without(old(notifications), id)
    {
      notifications := Without(notifications, id);
      UpdateUnreadCount();
    }

    method ClearAll()
      modifies this
      ensures Valid()
      ensures notifications == [] && unreadCount == 0
    {
      notifications := [];
      UpdateUnreadCount();
    }

    /** `success`: stores one unread success entry and shows a toast. */
    method ShowSuccess(title: string, message: string, id: string, timestamp: int) returns (t: Toast)
      modifies this
      ensures Valid()
      ensures notifications == [Notification(id, title, message, Success, timestamp, false)] + old(notifications)
      ensures t == Toast(title, message, Success)
    {
      AddNotification(title, message, Success, id, timestamp);
      t := Toast(title, message, Success);
    }

    /** `error`: a toast only; the list and the counter are not touched (no modifies clause). */
    method ShowError(title: string, message: string) returns (t: Toast)
      ensures t.kind == Error && t.title == title && t.message == message
    {
      t := Toast(title, message, Error);
    }

    /** `warning`: a toast only. */
    method ShowWarning(title: string, message: string) returns (t: Toast)
      ensures t.kind == Warning && t.title == title && t.message == message
    {
      t := Toast(title, message, Warning);
    }

    /** `info`: a toast only. */
    method ShowInfo(title: string, message: string) returns (t: Toast)
      ensures t.kind == Info && t.title == title && t.message == message
    {
      t := Toast(title, message, Info);
    }
  }
}
