/** The notification centre: the list of notifications and the unread
    counter, the realtime handlers that change them, and the read updates
    sent to the database. */
module NotificationsHook {
  import opened Wrappers
  import Seqs

  datatype NotificationType = Info | Success | Warning | Error

  datatype Notification = Notification(
    id: string,
    title: string,
    message: string,
    kind: NotificationType,
    relatedTo: Option<string>,
    relatedId: Option<string>,
    isRead: bool,
    createdAt: string)

  predicate IsUnread(n: Notification) { !n.isRead }

  /** `list.filter((n) => !n.is_read).length`. */
  function UnreadCount(list: seq<Notification>): nat {
    Seqs.Count(list, IsUnread)
  }

  /** The initial query: the table is given newest first, and at most the
      first 50 rows come back. */
  function NewestFifty(tableNewestFirst: seq<Notification>): (r: seq<Notification>)
    ensures |r| <= 50 && |r| <= |tableNewestFirst|
    ensures r == tableNewestFirst[..|r|]
    ensures |tableNewestFirst| <= 50 ==> r == tableNewestFirst
    ensures |tableNewestFirst| > 50 ==> |r| == 50
  {
    Seqs.Take(tableNewestFirst, 50)
  }

  /** `prev.map((n) => n.id === updated.id ? updated : n)`: every element
      with the updated id is replaced, in place; the others stay. */
  function ReplaceById(list: seq<Notification>, updated: Notification): (r: seq<Notification>)
    ensures |r| == |list|
    ensures forall i :: 0 <= i < |list| ==> r[i] == if list[i].id == updated.id then updated else list[i]
  {
    seq(|list|, i requires 0 <= i < |list| => if list[i].id == updated.id then updated else list[i])
  }

  /** An update for a notification not in the list changes nothing, and a
      read update leaves no unread copy of that notification behind. */
  lemma ReplaceByIdEffects(list: seq<Notification>, updated: Notification)
    ensures (forall i :: 0 <= i < |list| ==> list[i].id != updated.id) ==> ReplaceById(list, updated) == list
    ensures updated.isRead ==> forall i :: 0 <= i < |list| && list[i].id == updated.id ==> ReplaceById(list, updated)[i].isRead
    ensures updated.isRead ==> UnreadCount(ReplaceById(list, updated)) <= UnreadCount(list)
  {
    if updated.isRead {
      UnreadNotIncreased(list, updated);
    }
  }

  lemma {:induction false} UnreadNotIncreased(list: seq<Notification>, updated: Notification)
    requires updated.isRead
    ensures UnreadCount(ReplaceById(list, updated)) <= UnreadCount(list)
  {
    if list != [] {
      var r := ReplaceById(list, updated);
      assert r[1..] == ReplaceById(list[1..], updated);
      UnreadNotIncreased(list[1..], updated);
    }
  }

  datatype ToastVariant = Default | Destructive

  datatype Toast = Toast(title: string, description: string, variant: ToastVariant)

  /** The toast for a new notification. */
  function InsertToast(n: Notification): (t: Toast)
    ensures t.title == n.title && t.description == n.message
    ensures t.variant == Destructive <==> n.kind == Error
  {
    Toast(n.title, n.message, if n.kind == Error then Destructive else Default)
  }

  /** Which rows a read update selects. */
  datatype ReadTarget = ById(id: string) | AllUnread

  /** `update({ is_read: true })` with its `eq` filter. */
  datatype ReadUpdate = ReadUpdate(target: ReadTarget)

  predicate Selects(q: ReadUpdate, n: Notification) {
    match q.target
    case ById(id) => n.id == id
    case AllUnread => !n.isRead
  }

  /** The table after the database applies a read update: the selected rows
      are read, nothing else changes. */
  function ApplyReadUpdate(table: seq<Notification>, q: ReadUpdate): (r: seq<Notification>)
    ensures |r| == |table|
    ensures forall i :: 0 <= i < |table| ==>
      r[i] == if Selects(q, table[i]) then table[i].(isRead := true) else table[i]
  {
    seq(|table|, i requires 0 <= i < |table| =>
      if Selects(q, table[i]) then table[i].(isRead := true) else table[i])
  }

  /** Marking all as read leaves no unread row; marking one leaves it read
      and the other rows as they were. */
  lemma ReadUpdateEffects(table: seq<Notification>, id: string)
    ensures UnreadCount(ApplyReadUpdate(table, ReadUpdate(AllUnread))) == 0
    ensures forall i :: 0 <= i < |table| ==>
      (table[i].id == id ==> ApplyReadUpdate(table, ReadUpdate(ById(id)))[i].isRead)
      && (table[i].id != id ==> ApplyReadUpdate(table, ReadUpdate(ById(id)))[i] == table[i])
  {
    Seqs.FilterNone(ApplyReadUpdate(table, ReadUpdate(AllUnread)), IsUnread);
  }

  /** The hook's state: the notifications shown, newest first, and the
      unread counter of the bell. */
  class NotificationCenter {
    var notifications: seq<Notification>
    var unreadCount: int

    /** The counter agrees with the list. */
    predicate CountAccurate()
      reads this
    {
      unreadCount == UnreadCount(notifications)
    }

    constructor ()
      ensures notifications == [] && unreadCount == 0
      ensures CountAccurate()
    {
      notifications, unreadCount := [], 0;
    }

    /** The initial fetch: on error nothing changes; otherwise the list is
        the rows returned and the counter their unread number. */
    method Loaded(result: Option<seq<Notification>>)
      modifies this
      ensures result.None? ==> notifications == old(notifications) && unreadCount == old(unreadCount)
      ensures result.Some? ==> notifications == result.value && CountAccurate()
    {
      if result.Some? {
        notifications := result.value;
        unreadCount := UnreadCount(result.value);
      }
    }

    /** The INSERT handler: the notification goes on top, the counter goes
        up by one whether or not it is read, and a toast announces it. The
        counter stays accurate exactly when the new notification is unread. */
    method OnInsert(n: Notification) returns (toast: Toast)
      modifies this
      ensures notifications == [n] + old(notifications)
      ensures unreadCount == old(unreadCount) + 1
      ensures toast == InsertToast(n)
      ensures old(CountAccurate()) ==> (CountAccurate() <==> !n.isRead)
    {
      var prev := notifications;
      notifications := [n] + prev;
      unreadCount := unreadCount + 1;
      toast := InsertToast(n);
      assert notifications[0] == n && notifications[1..] == prev;
    }

    /** The UPDATE handler: each notification with the updated id is
        replaced in place and the counter is recomputed from the list. */
    method OnUpdate(updated: Notification)
      modifies this
      ensures notifications == ReplaceById(old(notifications), updated)
      ensures CountAccurate()
    {
      notifications := ReplaceById(notifications, updated);
      unreadCount := UnreadCount(notifications);
    }

    /** `markAsRead`: the update sent for one notification; the local state
        waits for the UPDATE event. */
    method MarkAsRead(id: string) returns (q: ReadUpdate)
      ensures q == ReadUpdate(ById(id))
      ensures forall n :: Selects(q, n) <==> n.id == id
    {
      q := ReadUpdate(ById(id));
    }

    /** `markAllAsRead`: the update sent for every unread notification. */
    method MarkAllAsRead() returns (q: ReadUpdate)
      ensures q == ReadUpdate(AllUnread)
      ensures forall n :: Selects(q, n) <==> !n.isRead
    {
      q := ReadUpdate(AllUnread);
    }
  }
}
