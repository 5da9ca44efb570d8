/** User notifications with a read flag; newest first. */
module Notifications {
  import opened Wrappers
  import opened Seqs

  datatype NotificationType = OrderStatus | LockerNotice | Package | System

  /** The optional extra data an event can carry. */
  datatype Metadata = Metadata(orderId: Option<string>, lockerId: Option<string>, status: Option<string>)

  datatype Notification = Notification(
    id: string,
    kind: NotificationType,
    title: string,
    message: string,
    orderId: Option<string>,
    lockerId: Option<string>,
    status: Option<string>,
    read: bool,
    createdAt: int)

  predicate IsUnread(n: Notification) { !n.read }

  /** `getUnreadCount`: how many notifications have not been read. */
  function UnreadCount(ns: seq<Notification>): (count: nat)
    ensures count <= |ns|
    ensures count == 0 <==> forall i :: 0 <= i < |ns| ==> ns[i].read
  {
    Count(ns, IsUnread)
  }

  /**
   * The notification `addNotification` builds: unread, with the given content, and each
   * piece of metadata copied when present (absent metadata leaves all three absent).
   */
  function NewNotification(kind: NotificationType, title: string, message: string, metadata: Option<Metadata>,
                           id: string, now: int): (n: Notification)
    ensures !n.read && n.kind == kind && n.title == title && n.message == message
    ensures n.id == id && n.createdAt == now
    ensures metadata.None? ==> n.orderId.None? && n.lockerId.None? && n.status.None?
    ensures metadata.Some? ==> n.orderId == metadata.value.orderId && n.lockerId == metadata.value.lockerId &&
                               n.status == metadata.value.status
  {
    var orderId := if metadata.Some? then metadata.value.orderId else None;
    var lockerId := if metadata.Some? then metadata.value.lockerId else None;
    var status := if metadata.Some? then metadata.value.status else None;
    Notification(id, kind, title, message, orderId, lockerId, status, false, now)
  }

  /** Adding a notification raises the unread count by exactly one. */
  lemma AddRaisesUnread(ns: seq<Notification>, n: Notification)
    requires !n.read
    ensures UnreadCount([n] + ns) == UnreadCount(ns) + 1
  {
    assert ([n] + ns)[1..] == ns;
  }

  /** `markAsRead`: every notification with the id is marked read. */
  function MarkRead(ns: seq<Notification>, notificationId: string): (r: seq<Notification>)
    ensures |r| == |ns|
    ensures forall i :: 0 <= i < |ns| && ns[i].id != notificationId ==> r[i] == ns[i]
    ensures forall i :: 0 <= i < |ns| && ns[i].id == notificationId ==> r[i] == ns[i].(read := true)
  {
    seq(|ns|, i requires 0 <= i < |ns| => if ns[i].id == notificationId then ns[i].(read := true) else ns[i])
  }

  lemma MarkReadIdempotent(ns: seq<Notification>, notificationId: string)
    ensures MarkRead(MarkRead(ns, notificationId), notificationId) == MarkRead(ns, notificationId)
  {
  }

  /** Marking one notification read never raises the unread count. */
  lemma {:induction false} MarkReadNeverAddsUnread(ns: seq<Notification>, notificationId: string)
    ensures UnreadCount(MarkRead(ns, notificationId)) <= UnreadCount(ns)
  {
    if ns != [] {
      var r := MarkRead(ns, notificationId);
      var rest := MarkRead(ns[1..], notificationId);
      assert r[1..] == rest by {
        forall i | 0 <= i < |rest| ensures r[1..][i] == rest[i] {
          assert ns[1..][i] == ns[i + 1];
        }
      }
      MarkReadNeverAddsUnread(ns[1..], notificationId);
    }
  }

  /** `markAllAsRead`: every notification is marked read and nothing else changes. */
  function MarkAllRead(ns: seq<Notification>): (r: seq<Notification>)
    ensures |r| == |ns|
    ensures forall i :: 0 <= i < |ns| ==> r[i] == ns[i].(read := true)
    ensures UnreadCount(r) == 0
  {
    seq(|ns|, i requires 0 <= i < |ns| => ns[i].(read := true))
  }

  /** `deleteNotification`: the notifications without the id, in stored order. */
  function WithoutNotification(ns: seq<Notification>, notificationId: string): (r: seq<Notification>)
    ensures forall n :: n in r <==> n in ns && n.id != notificationId
    ensures forall n :: multiset(r)[n] == if n.id != notificationId then multiset(ns)[n] else 0
    ensures IsSubsequence(r, ns)
  {
    Filter(ns, (n: Notification) => n.id != notificationId)
  }

  /** `getNotificationsByType`: exactly the notifications of that type, in stored order. */
  function ByType(ns: seq<Notification>, kind: NotificationType): (r: seq<Notification>)
    ensures forall n :: n in r <==> n in ns && n.kind == kind
    ensures forall n :: multiset(r)[n] == if n.kind == kind then multiset(ns)[n] else 0
    ensures IsSubsequence(r, ns)
  {
    Filter(ns, (n: Notification) => n.kind == kind)
  }

  class NotificationCenter {
    var notifications: seq<Notification>

    constructor(stored: seq<Notification>)
      ensures notifications == stored
    {
      notifications := stored;
    }

    /** `addNotification`; `id` stands for the clock-and-random identifier. */
    method AddNotification(kind: NotificationType, title: string, message: string, metadata: Option<Metadata>,
                           id: string, now: int) returns (notification: Notification)
      modifies this
      ensures notification == NewNotification(kind, title, message, metadata, id, now)
      ensures notifications == [notification] + old(notifications)
      ensures UnreadCount(notifications) == UnreadCount(old(notifications)) + 1
    {
      notification := NewNotification(kind, title, message, metadata, id, now);
      AddRaisesUnread(notifications, notification);
      notifications := [notification] + notifications;
    }

    method MarkAsRead(notificationId: string)
      modifies this
      ensures notifications == MarkRead(old(notifications), notificationId)
    {
      notifications := MarkRead(notifications, notificationId);
    }

    method MarkAllAsRead()
      modifies this
      ensures notifications == MarkAllRead(old(notifications))
    {
      notifications := MarkAllRead(notifications);
    }

    method DeleteNotification(notificationId: string)
      modifies this
      ensures notifications == WithoutNotification(old(notifications), notificationId)
    {
      notifications := WithoutNotification(notifications, notificationId);
    }

    method ClearAllNotifications()
      modifies this
      ensures notifications == []
    {
      notifications := [];
    }

    function GetUnreadCount(): (count: nat)
      reads this
      ensures count == UnreadCount(notifications)
      ensures count <= |notifications|
    {
      UnreadCount(notifications)
    }

    function GetNotificationsByType(kind: NotificationType): (r: seq<Notification>)
      reads this
      ensures r == ByType(notifications, kind)
      ensures forall n :: n in r <==> n in notifications && n.kind == kind
    {
      ByType(notifications, kind)
    }
  }
}
