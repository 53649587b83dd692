/**
 * A push notification's read and delivery state, and the two collection
 * queries over a user's notifications: counting the unread ones and marking
 * them all read.
 *
 * `Notification` is the in-memory document whose instance methods update
 * its fields; `Doc` is the same document as a value, the form in which the
 * collection holds it. Each instance method is stated as the function on
 * `Doc` it applies, so the collection's bulk update and a single
 * `markAsRead` are one definition.
 */
module Notifications {
  import opened Wrappers
  import opened Seqs

  /** The `deliveryStatus` enumeration. */
  datatype DeliveryStatus = Pending | Sent | Delivered | Failed

  function StatusName(s: DeliveryStatus): (name: string)
    ensures name in {"pending", "sent", "delivered", "failed"}
  {
    match s
    case Pending => "pending"
    case Sent => "sent"
    case Delivered => "delivered"
    case Failed => "failed"
  }

  /** The stored names of the statuses are pairwise different. */
  lemma StatusNamesDistinct(a: DeliveryStatus, b: DeliveryStatus)
    ensures StatusName(a) == StatusName(b) ==> a == b
  {
  }

  /** Thirty days, the default lifetime of a notification. */
  const ExpiryWindow := 30 * 24 * 60 * 60 * 1000

  datatype Doc = Doc(
    userId: string,
    title: string,
    body: string,
    isRead: bool,
    readAt: Option<int>,
    isSent: bool,
    sentAt: Option<int>,
    deliveryStatus: DeliveryStatus,
    fcmMessageId: Option<string>,
    error: Option<string>,
    expiresAt: Option<int>)

  /** A document as created: unread, unsent, pending, with no expiry yet. */
  function Created(userId: string, title: string, body: string): (d: Doc)
    ensures d.userId == userId && d.title == title && d.body == body
    ensures !d.isRead && !d.isSent && d.deliveryStatus == Pending
    ensures d.readAt.None? && d.sentAt.None? && d.fcmMessageId.None? && d.error.None? && d.expiresAt.None?
  {
    Doc(userId, title, body, false, None, false, None, Pending, None, None, None)
  }

  /** `markAsRead`: read, and read now. */
  function MarkedRead(d: Doc, now: int): (r: Doc)
    ensures r.isRead && r.readAt == Some(now)
    ensures r.(isRead := d.isRead, readAt := d.readAt) == d
  {
    d.(isRead := true, readAt := Some(now))
  }

  /** `markAsSent(messageId)`: `None` for the default `null`. The message id
      is recorded only when it is truthy, so an empty one is not. */
  function MarkedSent(d: Doc, messageId: Option<string>, now: int): (r: Doc)
    ensures r.isSent && r.sentAt == Some(now) && r.deliveryStatus == Sent
    ensures messageId.Some? && messageId.value != "" ==> r.fcmMessageId == messageId
    ensures messageId.None? || messageId.value == "" ==> r.fcmMessageId == d.fcmMessageId
    ensures r.(isSent := d.isSent, sentAt := d.sentAt, deliveryStatus := d.deliveryStatus,
               fcmMessageId := d.fcmMessageId) == d
  {
    var sent := d.(isSent := true, sentAt := Some(now), deliveryStatus := Sent);
    if messageId.Some? && messageId.value != "" then sent.(fcmMessageId := messageId) else sent
  }

  function MarkedDelivered(d: Doc): (r: Doc)
    ensures r.deliveryStatus == Delivered
    ensures r.(deliveryStatus := d.deliveryStatus) == d
  {
    d.(deliveryStatus := Delivered)
  }

  /** `markAsFailed(error)`: `None` for an error that is `undefined`. */
  function MarkedFailed(d: Doc, error: Option<string>): (r: Doc)
    ensures r.deliveryStatus == Failed && r.error == error
    ensures r.(deliveryStatus := d.deliveryStatus, error := d.error) == d
  {
    d.(deliveryStatus := Failed, error := error)
  }

  /** The pre-save hook: a document without an expiry expires in 30 days. */
  function WithExpiry(d: Doc, now: int): (r: Doc)
    ensures d.expiresAt.None? ==> r.expiresAt == Some(now + ExpiryWindow)
    ensures d.expiresAt.Some? ==> r == d
    ensures r.(expiresAt := d.expiresAt) == d
  {
    if d.expiresAt.None? then d.(expiresAt := Some(now + ExpiryWindow)) else d
  }

  class Notification {
    var userId: string
    var title: string
    var body: string
    var isRead: bool
    var readAt: Option<int>
    var isSent: bool
    var sentAt: Option<int>
    var deliveryStatus: DeliveryStatus
    var fcmMessageId: Option<string>
    var error: Option<string>
    var expiresAt: Option<int>

    /** The document's fields as a value. */
    function State(): Doc
      reads this
    {
      Doc(userId, title, body, isRead, readAt, isSent, sentAt, deliveryStatus,
          fcmMessageId, error, expiresAt)
    }

    constructor(userId: string, title: string, body: string)
      ensures State() == Created(userId, title, body)
    {
      this.userId := userId;
      this.title := title;
      this.body := body;
      isRead := false;
      readAt := None;
      isSent := false;
      sentAt := None;
      deliveryStatus := Pending;
      fcmMessageId := None;
      error := None;
      expiresAt := None;
    }

    method MarkAsRead(now: int)
      modifies this
      ensures State() == MarkedRead(old(State()), now)
    {
      isRead := true;
      readAt := Some(now);
    }

    method MarkAsSent(messageId: Option<string>, now: int)
      modifies this
      ensures State() == MarkedSent(old(State()), messageId, now)
    {
      isSent := true;
      sentAt := Some(now);
      deliveryStatus := Sent;
      if messageId.Some? && messageId.value != "" {
        fcmMessageId := messageId;
      }
    }

    method MarkAsDelivered()
      modifies this
      ensures State() == MarkedDelivered(old(State()))
    {
      deliveryStatus := Delivered;
    }

    method MarkAsFailed(error: Option<string>)
      modifies this
      ensures State() == MarkedFailed(old(State()), error)
    {
      deliveryStatus := Failed;
      this.error := error;
    }

    method PreSave(now: int)
      modifies this
      ensures State() == WithExpiry(old(State()), now)
    {
      if expiresAt.None? {
        expiresAt := Some(now + ExpiryWindow);
      }
    }
  }

  // ------------------------------------------------ the collection

  predicate IsUnreadOf(d: Doc, userId: string) {
    d.userId == userId && !d.isRead
  }

  function UnreadOf(userId: string): Doc -> bool {
    d => IsUnreadOf(d, userId)
  }

  /** `countDocuments({ userId, isRead: false })`. */
  function UnreadCount(docs: seq<Doc>, userId: string): (n: nat)
    ensures n <= |docs|
  {
    |Filter(docs, UnreadOf(userId))|
  }

  /** What `updateMany({ userId, isRead: false }, { $set: { isRead: true,
      readAt: now } })` does to one document. */
  function ReadIfUnreadDoc(d: Doc, userId: string, now: int): Doc {
    if IsUnreadOf(d, userId) then MarkedRead(d, now) else d
  }

  function ReadIfUnread(userId: string, now: int): Doc -> Doc {
    d => ReadIfUnreadDoc(d, userId, now)
  }

  function AllMarkedRead(docs: seq<Doc>, userId: string, now: int): (r: seq<Doc>)
    ensures |r| == |docs|
  {
    Map(docs, ReadIfUnread(userId, now))
  }

  class Collection {
    var docs: seq<Doc>

    constructor()
      ensures docs == []
    {
      docs := [];
    }

    function GetUnreadCount(userId: string): nat
      reads this
    {
      UnreadCount(docs, userId)
    }

    method MarkAllAsRead(userId: string, now: int)
      modifies this
      ensures docs == AllMarkedRead(old(docs), userId, now)
      ensures GetUnreadCount(userId) == 0
    {
      docs := Map(docs, ReadIfUnread(userId, now));
      MarkAllLeavesNoUnread(old(docs), userId, now);
    }
  }

  /** After marking all read, none of the user's notifications is unread. */
  lemma {:induction false} MarkAllLeavesNoUnread(docs: seq<Doc>, userId: string, now: int)
    ensures UnreadCount(AllMarkedRead(docs, userId, now), userId) == 0
  {
    var r := AllMarkedRead(docs, userId, now);
    forall d | d in r ensures !UnreadOf(userId)(d) {
      var i :| 0 <= i < |r| && r[i] == d;
      assert r[i] == ReadIfUnreadDoc(docs[i], userId, now);
    }
    FilterNone(r, UnreadOf(userId));
  }

  /** Marking all read touches only the user's unread notifications: other
      users' notifications and ones already read, with their `readAt`, stay
      as they were, and the ones it touches change only in `isRead` and
      `readAt`. */
  lemma MarkAllTouchesOnlyUnread(docs: seq<Doc>, userId: string, now: int, i: nat)
    requires i < |docs|
    ensures docs[i].userId != userId || docs[i].isRead ==> AllMarkedRead(docs, userId, now)[i] == docs[i]
    ensures docs[i].userId == userId && !docs[i].isRead ==>
              AllMarkedRead(docs, userId, now)[i] == MarkedRead(docs[i], now)
  {
    assert AllMarkedRead(docs, userId, now)[i] == ReadIfUnreadDoc(docs[i], userId, now);
  }

  /** Other users' unread counts are not affected. */
  lemma {:induction false} MarkAllKeepsOthersCounts(docs: seq<Doc>, userId: string, other: string, now: int)
    requires other != userId
    ensures UnreadCount(AllMarkedRead(docs, userId, now), other) == UnreadCount(docs, other)
    decreases |docs|
  {
    if |docs| > 0 {
      var t := docs[..|docs| - 1];
      MarkAllKeepsOthersCounts(t, userId, other, now);
      var r := AllMarkedRead(docs, userId, now);
      assert r[..|r| - 1] == AllMarkedRead(t, userId, now);
      var last := docs[|docs| - 1];
      assert r[|r| - 1] == ReadIfUnreadDoc(last, userId, now);
      assert IsUnreadOf(r[|r| - 1], other) == IsUnreadOf(last, other);
    }
  }

  /** The count is the number of the user's notifications that are unread. */
  lemma UnreadCountExactly(docs: seq<Doc>, userId: string, d: Doc)
    ensures d in Filter(docs, UnreadOf(userId)) <==> d in docs && d.userId == userId && !d.isRead
    ensures UnreadCount(docs + [d], userId) ==
            UnreadCount(docs, userId) + (if d.userId == userId && !d.isRead then 1 else 0)
  {
    FilterMembership(docs, UnreadOf(userId), d);
    FilterSnoc(docs, d, UnreadOf(userId));
  }

  /** Reading a notification of the user that was unread lowers the count by one. */
  lemma {:induction false} MarkOneRead(docs: seq<Doc>, userId: string, i: nat, now: int)
    requires i < |docs| && docs[i].userId == userId && !docs[i].isRead
    ensures UnreadCount(docs[i := MarkedRead(docs[i], now)], userId) == UnreadCount(docs, userId) - 1
  {
    var p := UnreadOf(userId);
    var s := docs[i := MarkedRead(docs[i], now)];
    assert docs == docs[..i] + [docs[i]] + docs[i + 1..];
    assert s == docs[..i] + [s[i]] + docs[i + 1..];
    FilterAppend(docs[..i] + [docs[i]], docs[i + 1..], p);
    FilterAppend(docs[..i] + [s[i]], docs[i + 1..], p);
    FilterSnoc(docs[..i], docs[i], p);
    FilterSnoc(docs[..i], s[i], p);
  }

  /** The delivery status always is one of the four, whatever the order of
      the calls: `markAsSent` after `markAsDelivered` moves it back to sent. */
  lemma SentAfterDelivered(d: Doc, now: int)
    ensures MarkedSent(MarkedDelivered(d), None, now).deliveryStatus == Sent
  {
  }
}
