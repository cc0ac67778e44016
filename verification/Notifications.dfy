/**
 * The notification centre (frontend/src/components/NotificationCenter.js):
 * marking a notification read and the three-way filter over the list.
 */
module Notifications {
  import opened Lists

  datatype Notification = Notification(id: int, title: string, description: string, status: string)

  const Unread: string := "unread"
  const Read: string := "read"
  const Completed: string := "completed"

  /** The two starting notifications; the first one's texts come from the translation table. */
  function InitialNotifications(reminderTitle: string, reminderDescription: string): (r: seq<Notification>)
    ensures |r| == 2 && r[0].id == 1 && r[1].id == 2
    ensures forall i :: 0 <= i < |r| ==> r[i].status == Unread
  {
    [
      Notification(1, reminderTitle, reminderDescription, Unread),
      Notification(2, "系统更新", "系统将在今晚12点进行更新", Unread)
    ]
  }

  /** One notification after `markAsRead(id)`. */
  function MarkOne(n: Notification, id: int): Notification {
    if n.id == id then n.(status := Read) else n
  }

  /** `markAsRead(id)`: the notifications with that id become read, every other one is kept as it was. */
  function MarkAsRead(notifications: seq<Notification>, id: int): (r: seq<Notification>)
    ensures |r| == |notifications|
    ensures forall i :: 0 <= i < |r| && notifications[i].id == id ==> r[i] == notifications[i].(status := Read)
    ensures forall i :: 0 <= i < |r| && notifications[i].id != id ==> r[i] == notifications[i]
  {
    if notifications == [] then []
    else [MarkOne(notifications[0], id)] + MarkAsRead(notifications[1..], id)
  }

  /** Marking twice is marking once. */
  lemma {:induction false} MarkAsReadIdempotent(notifications: seq<Notification>, id: int)
    ensures MarkAsRead(MarkAsRead(notifications, id), id) == MarkAsRead(notifications, id)
  {
    var once := MarkAsRead(notifications, id);
    var twice := MarkAsRead(once, id);
    assert forall i :: 0 <= i < |twice| ==> twice[i] == once[i];
  }

  /** An id no notification carries leaves the list unchanged. */
  lemma {:induction false} MarkUnknownUnchanged(notifications: seq<Notification>, id: int)
    requires forall i :: 0 <= i < |notifications| ==> notifications[i].id != id
    ensures MarkAsRead(notifications, id) == notifications
  {
    var r := MarkAsRead(notifications, id);
    assert forall i :: 0 <= i < |r| ==> r[i] == notifications[i];
  }

  /** Whether filter `filter` shows notification `n`. */
  function Shows(filter: string): Notification -> bool {
    (n: Notification) =>
      if filter == "all" then true
      else if filter == "confirmed" then n.status == Read
      else if filter == "completed" then n.status == Completed
      else false
  }

  /** `filteredNotifications`. */
  function Filtered(notifications: seq<Notification>, filter: string): (r: seq<Notification>)
    ensures |r| <= |notifications|
    ensures forall i :: 0 <= i < |r| ==> Shows(filter)(r[i])
  {
    Filter(notifications, Shows(filter))
  }

  /**
   * "all" shows the whole list; "confirmed" exactly the read ones; "completed"
   * exactly the completed ones; any other filter nothing.
   */
  lemma FilterMeaning(notifications: seq<Notification>, filter: string)
    ensures filter == "all" ==> Filtered(notifications, filter) == notifications
    ensures filter == "confirmed" ==>
      forall n :: n in Filtered(notifications, filter) <==> n in notifications && n.status == Read
    ensures filter == "completed" ==>
      forall n :: n in Filtered(notifications, filter) <==> n in notifications && n.status == Completed
    ensures filter !in {"all", "confirmed", "completed"} ==> Filtered(notifications, filter) == []
  {
    if filter == "all" {
      FilterKeepsAll(notifications, Shows(filter));
    }
    forall n {
      FilterMembership(notifications, Shows(filter), n);
    }
    if filter !in {"all", "confirmed", "completed"} && Filtered(notifications, filter) != [] {
      var r := Filtered(notifications, filter);
      FilterMembership(notifications, Shows(filter), r[0]);
      assert false;
    }
  }

  /** The mark-read button is offered only on unread notifications. */
  predicate MarkReadOffered(n: Notification) {
    n.status == Unread
  }

  /** After marking, the notification is on the "confirmed" tab and no longer offers the button. */
  lemma MarkedIsConfirmed(notifications: seq<Notification>, id: int, i: nat)
    requires i < |notifications| && notifications[i].id == id
    ensures !MarkReadOffered(MarkAsRead(notifications, id)[i])
    ensures MarkAsRead(notifications, id)[i] in Filtered(MarkAsRead(notifications, id), "confirmed")
  {
    var r := MarkAsRead(notifications, id);
    FilterMembership(r, Shows("confirmed"), r[i]);
  }
}
