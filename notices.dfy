/** Notifications: the three records the handlers create, the read toggles
    of markNotificationAsRead and markAllNotificationsAsRead, and the
    recipient filter of getUserNotifications. */
module Notices {
  import opened Common
  import opened Models

  /** The titles of the two notices about an application: applyForJob's
      to the job's creator, updateApplicationStatus's to the applicant. */
  const ReceivedTitle: string := "New Job Application"
  const StatusTitle: string := "Application Status Updated"

  /** A notice about an application, unread, sent to `recipient`. */
  function AboutApplication(id: Id, recipient: Id, application: Id, title: string): (n: Notification)
    ensures n.id == id && n.recipient == recipient && n.relatedId == application
    ensures n.kind == ApplicationNotice && n.onModel == OnApplication && !n.isRead
    ensures n.title == title
  {
    Notification(id, recipient, ApplicationNotice, title, application, OnApplication, false)
  }

  /** The notice payForJobPosting sends to the payer. */
  function PaymentSucceeded(id: Id, payer: Id, payment: Id): (n: Notification)
    ensures n.id == id && n.recipient == payer && n.relatedId == payment
    ensures n.kind == PaymentNotice && n.onModel == OnPayment && !n.isRead
    ensures n.title == "Payment Successful"
  {
    Notification(id, payer, PaymentNotice, "Payment Successful", payment, OnPayment, false)
  }

  /** The position of the notification with this id, if any: the first
      one, which is the only one when ids are unique. */
  function IndexOf(ns: seq<Notification>, id: Id): (r: Option<nat>)
    ensures r.Some? ==> r.value < |ns| && ns[r.value].id == id
    ensures r.Some? ==> forall k :: 0 <= k < r.value ==> ns[k].id != id
    ensures r.None? ==> forall k :: 0 <= k < |ns| ==> ns[k].id != id
  {
    if ns == [] then None
    else if ns[0].id == id then Some(0)
    else
      var t := IndexOf(ns[1..], id);
      if t.None? then None else Some(t.value + 1)
  }

  /** `findByIdAndUpdate(id, {isRead: true})`: that notification becomes
      read, whoever its recipient is; None when no notification has the id. */
  function MarkRead(ns: seq<Notification>, id: Id): (r: Option<seq<Notification>>)
    ensures r.None? <==> (forall k :: 0 <= k < |ns| ==> ns[k].id != id)
    ensures r.Some? ==> |r.value| == |ns|
    ensures r.Some? ==> var i := IndexOf(ns, id).value;
                        r.value == ns[i := ns[i].(isRead := true)]
  {
    var i := IndexOf(ns, id);
    if i.None? then None else Some(ns[i.value := ns[i.value].(isRead := true)])
  }

  /** Marking a notification read twice is the same as once. */
  lemma MarkReadIdempotent(ns: seq<Notification>, id: Id)
    requires MarkRead(ns, id).Some?
    ensures MarkRead(MarkRead(ns, id).value, id) == MarkRead(ns, id)
  {
    var i := IndexOf(ns, id).value;
    var ns' := MarkRead(ns, id).value;
    SameIndex(ns, ns', id, i);
    assert ns'[i := ns'[i].(isRead := true)] == ns';
  }

  /** A change of the read flag keeps every id where it was. */
  lemma SameIndex(ns: seq<Notification>, ns': seq<Notification>, id: Id, i: nat)
    requires |ns| == |ns'| && forall k :: 0 <= k < |ns| ==> ns'[k].id == ns[k].id
    requires IndexOf(ns, id) == Some(i)
    ensures IndexOf(ns', id) == Some(i)
  {
    assert ns'[i].id == id;
    assert forall k :: 0 <= k < i ==> ns'[k].id != id by {
      forall k | 0 <= k < i ensures ns'[k].id != id {
        assert ns[k].id != id;
      }
    }
  }

  /** `updateMany({recipient, isRead: false}, {isRead: true})`. */
  function MarkAllRead(ns: seq<Notification>, recipient: Id): (r: seq<Notification>)
    ensures |r| == |ns|
    ensures forall k :: 0 <= k < |ns| && ns[k].recipient == recipient ==> r[k] == ns[k].(isRead := true)
    ensures forall k :: 0 <= k < |ns| && ns[k].recipient != recipient ==> r[k] == ns[k]
  {
    seq(|ns|, k requires 0 <= k < |ns| =>
      if ns[k].recipient == recipient && !ns[k].isRead then ns[k].(isRead := true) else ns[k])
  }

  /** After marking all read, none of the caller's notifications is unread,
      and a second call changes nothing. */
  lemma MarkAllReadLeavesNoneUnread(ns: seq<Notification>, recipient: Id)
    ensures forall k :: 0 <= k < |ns| && ns[k].recipient == recipient ==> MarkAllRead(ns, recipient)[k].isRead
    ensures MarkAllRead(MarkAllRead(ns, recipient), recipient) == MarkAllRead(ns, recipient)
  {
  }

  /** The notifications of one recipient, in stored order. */
  function ForRecipient(ns: seq<Notification>, recipient: Id): (r: seq<Notification>)
    ensures |r| <= |ns|
    ensures forall n :: n in r <==> n in ns && n.recipient == recipient
  {
    if ns == [] then []
    else if ns[0].recipient == recipient then [ns[0]] + ForRecipient(ns[1..], recipient)
    else ForRecipient(ns[1..], recipient)
  }

  /** A new notification shows up in its recipient's list only. */
  lemma {:induction false} ForRecipientAppend(ns: seq<Notification>, n: Notification, recipient: Id)
    ensures ForRecipient(ns + [n], recipient) ==
            ForRecipient(ns, recipient) + (if n.recipient == recipient then [n] else [])
  {
    if ns == [] {
      assert [] + [n] == [n];
      assert [n][1..] == [];
    } else {
      assert (ns + [n])[0] == ns[0] && (ns + [n])[1..] == ns[1..] + [n];
      ForRecipientAppend(ns[1..], n, recipient);
    }
  }
}
