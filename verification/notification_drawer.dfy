/** The notification drawer's state (components/NotificationDrawer.tsx): the
    list of notifications and whether the drawer is open, with the actions
    that mark notifications read or clear them, and the unread count shown
    in the badge. */
module NotificationDrawer {
  import opened Seqs
  import opened NotificationItem

  datatype Notification = Notification(
    id: string,
    title: string,
    message: string,
    kind: NotificationType,
    timestamp: int,
    read: bool)

  function IsUnread(n: Notification): bool { !n.read }

  /** `unreadCount`: how many notifications are not read. */
  function UnreadCount(ns: seq<Notification>): (count: nat)
    ensures count <= |ns|
  {
    |Filter(IsUnread, ns)|
  }

  /** No notification is unread exactly when the count is 0. */
  lemma {:induction false} UnreadCountZero(ns: seq<Notification>)
    ensures UnreadCount(ns) == 0 <==> forall i :: 0 <= i < |ns| ==> ns[i].read
  {
    if ns != [] {
      UnreadCountZero(ns[1..]);
      assert forall i :: 1 <= i < |ns| ==> ns[i] == ns[1..][i - 1];
    }
  }

  /** `markAsRead(id)`: the notifications with that id become read; every
      other field, every other notification, the length and the order stay
      as they were. */
  function MarkedRead(ns: seq<Notification>, id: string): (r: seq<Notification>)
    ensures |r| == |ns|
    ensures forall i :: 0 <= i < |ns| ==> r[i].read == (ns[i].read || ns[i].id == id)
    ensures forall i :: 0 <= i < |ns| ==> r[i].(read := ns[i].read) == ns[i]
  {
    seq(|ns|, i requires 0 <= i < |ns| => if ns[i].id == id then ns[i].(read := true) else ns[i])
  }

  /** `markAllAsRead`: every notification becomes read, nothing else
      changes. */
  function AllMarkedRead(ns: seq<Notification>): (r: seq<Notification>)
    ensures |r| == |ns|
    ensures forall i :: 0 <= i < |ns| ==> r[i].read
    ensures forall i :: 0 <= i < |ns| ==> r[i].(read := ns[i].read) == ns[i]
  {
    seq(|ns|, i requires 0 <= i < |ns| => ns[i].(read := true))
  }

  /** Marking the same id read twice is marking it once. */
  lemma MarkedReadIdempotent(ns: seq<Notification>, id: string)
    ensures MarkedRead(MarkedRead(ns, id), id) == MarkedRead(ns, id)
  {
    var once := MarkedRead(ns, id);
    var twice := MarkedRead(once, id);
    forall i | 0 <= i < |ns| ensures twice[i] == once[i] {
      assert twice[i].(read := once[i].read) == once[i];
    }
  }

  function IsUnreadWithId(id: string): Notification -> bool
  {
    (n: Notification) => !n.read && n.id == id
  }

  /** The unread notifications that carry `id`. */
  function UnreadWithId(ns: seq<Notification>, id: string): nat
  {
    |Filter(IsUnreadWithId(id), ns)|
  }

  /** Marking `id` read lowers the unread count by exactly the number of
      unread notifications with that id, so it never raises it. */
  lemma {:induction false} MarkedReadUnreadCount(ns: seq<Notification>, id: string)
    ensures UnreadCount(MarkedRead(ns, id)) == UnreadCount(ns) - UnreadWithId(ns, id)
    ensures UnreadCount(MarkedRead(ns, id)) <= UnreadCount(ns)
  {
    if ns != [] {
      var r := MarkedRead(ns, id);
      MarkedReadUnreadCount(ns[1..], id);
      assert r[1..] == MarkedRead(ns[1..], id) by {
        var t := MarkedRead(ns[1..], id);
        forall i | 0 <= i < |t| ensures r[1..][i] == t[i] {
          assert r[i + 1].(read := ns[i + 1].read) == ns[i + 1];
          assert t[i].(read := ns[1..][i].read) == ns[1..][i];
        }
      }
      assert r[0].(read := ns[0].read) == ns[0];
    }
  }

  /** After `markAllAsRead` nothing is unread. */
  lemma AllMarkedReadUnreadCount(ns: seq<Notification>)
    ensures UnreadCount(AllMarkedRead(ns)) == 0
  {
    UnreadCountZero(AllMarkedRead(ns));
  }

  class Drawer {
    var notifications: seq<Notification>
    var isOpen: bool

    /** The drawer starts closed, showing the initial notifications. */
    constructor (initial: seq<Notification>)
      ensures notifications == initial && !isOpen
    {
      notifications := initial;
      isOpen := false;
    }

    method OpenDrawer()
      modifies this
      ensures isOpen && notifications == old(notifications)
    {
      isOpen := true;
    }

    method CloseDrawer()
      modifies this
      ensures !isOpen && notifications == old(notifications)
    {
      isOpen := false;
    }

    method MarkAsRead(id: string)
      modifies this
      ensures notifications == MarkedRead(old(notifications), id)
      ensures UnreadCount(notifications) == old(UnreadCount(notifications)) - UnreadWithId(old(notifications), id)
      ensures isOpen == old(isOpen)
    {
      MarkedReadUnreadCount(notifications, id);
      notifications := MarkedRead(notifications, id);
    }

    method MarkAllAsRead()
      modifies this
      ensures notifications == AllMarkedRead(old(notifications))
      ensures UnreadCount(notifications) == 0
      ensures isOpen == old(isOpen)
    {
      AllMarkedReadUnreadCount(notifications);
      notifications := AllMarkedRead(notifications);
    }

    method ClearAllNotifications()
      modifies this
      ensures notifications == [] && UnreadCount(notifications) == 0
      ensures isOpen == old(isOpen)
    {
      notifications := [];
    }

    /** A tap marks the tapped notification read if it was unread; a tap on
        a read notification changes nothing. */
    method HandleNotificationPress(notification: Notification)
      modifies this
      ensures !notification.read ==> notifications == MarkedRead(old(notifications), notification.id)
      ensures notification.read ==> notifications == old(notifications)
      ensures isOpen == old(isOpen)
    {
      if !notification.read {
        MarkAsRead(notification.id);
      }
    }
  }
}
