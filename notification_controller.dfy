/** The notification handlers: the caller's notifications with the unread count, marking one or
    all of them read, and deleting one. */
module NotificationController {
  import opened Common
  import opened Seqs
  import opened Paging
  import opened ConnectionRequestModel
  import opened NotificationModel
  import opened Store

  const NotificationNotFound: string := "Notification not found"

  // ---------------------------------------------------------------------------------------
  // The listing

  /** `{ userId: caller }`, with `isRead: isRead === "true"` whenever the parameter is given. */
  function ShownTo(caller: Id, isRead: Option<string>): Notification -> bool {
    (n: Notification) => n.userId == caller && (isRead.None? || n.isRead == (isRead.value == "true"))
  }

  /** `{ userId: caller, isRead: false }`. */
  function UnreadOf(caller: Id): Notification -> bool {
    (n: Notification) => n.userId == caller && !n.isRead
  }

  /** A listed notification, with the connection request it is about when one is attached. */
  datatype NotificationView = NotificationView(notification: Notification, connectionRequest: Option<ConnectionRequest>)

  /** The answer of the listing: the page of views and the caller's unread count. */
  datatype NotificationPage = NotificationPage(listing: Listing<NotificationView>, unreadCount: nat)

  /** The notification kinds about a connection request. */
  predicate AboutRequest(n: Notification) {
    && (n.kind == ConnectionRequestType || n.kind == RequestAcceptedType || n.kind == RequestRejectedType)
    && n.relatedType == Some(RelatedConnectionRequest)
    && n.relatedId.Some?
  }

  /** The request attached to a notification: for one about a connection request, the stored
      request it names, if any; nothing for any other notification. */
  function Attached(n: Notification, requests: seq<ConnectionRequest>): (r: Option<ConnectionRequest>)
    ensures r.Some? ==> AboutRequest(n) && r.value in requests && Some(r.value.id) == n.relatedId
    ensures r.None? <==> !AboutRequest(n) || forall j | 0 <= j < |requests| :: Some(requests[j].id) != n.relatedId
  {
    if AboutRequest(n) then
      match RequestIndex(requests, n.relatedId.value)
      case None => None
      case Some(i) => Some(requests[i])
    else None
  }

  function Views(ns: seq<Notification>, requests: seq<ConnectionRequest>): (r: seq<NotificationView>)
    ensures |r| == |ns|
    ensures forall k | 0 <= k < |ns| :: r[k] == NotificationView(ns[k], Attached(ns[k], requests))
  {
    seq(|ns|, k requires 0 <= k < |ns| => NotificationView(ns[k], Attached(ns[k], requests)))
  }

  /** The notifications a page of views shows, in page order. */
  function NotificationsOf(vs: seq<NotificationView>): (r: seq<Notification>)
    ensures |r| == |vs| && forall k | 0 <= k < |vs| :: r[k] == vs[k].notification
  {
    seq(|vs|, k requires 0 <= k < |vs| => vs[k].notification)
  }

  lemma ViewsShowTheirNotifications(ns: seq<Notification>, requests: seq<ConnectionRequest>)
    ensures NotificationsOf(Views(ns, requests)) == ns
  {
    assert forall k | 0 <= k < |ns| :: NotificationsOf(Views(ns, requests))[k] == ns[k];
  }

  /** `getMyNotifications`: a page (20 by default) of the caller's notifications, newest first
      and optionally only read or only unread ones, each with its connection request attached
      when it is about one, and the number of the caller's unread notifications. */
  function MyNotifications(ns: seq<Notification>, requests: seq<ConnectionRequest>, caller: Id,
                           isRead: Option<string>, q: PageQuery): (r: Reply<NotificationPage>)
    ensures r.Ok? <==> PageLimit(q, 20) == 0 || PageNumber(q) >= 1
    ensures r.Fail? ==> r == Fail(500, NegativeSkipError)
    ensures r.Ok? ==>
      && r.code == 200
      && r.body.unreadCount == Count(ns, UnreadOf(caller))
      && r.body.listing.total == Count(ns, ShownTo(caller, isRead))
      && r.body.listing.totalPages == TotalPages(Count(ns, ShownTo(caller, isRead)), PageLimit(q, 20))
      && (PageLimit(q, 20) > 0 ==> |r.body.listing.items| <= PageLimit(q, 20))
      && forall k | 0 <= k < |r.body.listing.items| ::
           var v := r.body.listing.items[k];
           && v.notification in ns && v.notification.userId == caller
           && (isRead.Some? ==> v.notification.isRead == (isRead.value == "true"))
           && v.connectionRequest == Attached(v.notification, requests)
    ensures r.Ok? ==> NewestPage(NotificationsOf(r.body.listing.items), Filter(ns, ShownTo(caller, isRead)), q, 20)
  {
    var page := NewestFirst(Filter(ns, ShownTo(caller, isRead)), q, 20);
    match page
    case Fail(code, error) => Fail(code, error)
    case Ok(_, listing) =>
      assert forall k | 0 <= k < |listing.items| :: listing.items[k] in listing.items;
      ViewsShowTheirNotifications(listing.items, requests);
      assert NewestPage(NotificationsOf(Views(listing.items, requests)), Filter(ns, ShownTo(caller, isRead)), q, 20);
      Ok(200, NotificationPage(Listing(Views(listing.items, requests), listing.totalPages, listing.currentPage, listing.total),
                               Count(ns, UnreadOf(caller))))
  }

  /** The unread count does not depend on the filter or the page asked for. */
  lemma UnreadCountIgnoresQuery(ns: seq<Notification>, requests: seq<ConnectionRequest>, caller: Id,
                                isRead: Option<string>, q: PageQuery, isRead': Option<string>, q': PageQuery)
    requires MyNotifications(ns, requests, caller, isRead, q).Ok?
    requires MyNotifications(ns, requests, caller, isRead', q').Ok?
    ensures MyNotifications(ns, requests, caller, isRead, q).body.unreadCount
         == MyNotifications(ns, requests, caller, isRead', q').body.unreadCount
  {
  }

  /** Any value of `isRead` other than `"true"`, even `"yes"` or an empty one, lists the
      unread notifications; leaving it out lists both. */
  lemma IsReadParameter(caller: Id, n: Notification)
    requires n.userId == caller
    ensures ShownTo(caller, Some("yes"))(n) <==> !n.isRead
    ensures ShownTo(caller, Some(""))(n) <==> !n.isRead
    ensures ShownTo(caller, Some("true"))(n) <==> n.isRead
    ensures ShownTo(caller, None)(n)
  {
  }

  // ---------------------------------------------------------------------------------------
  // Marking read and deleting

  /** `{ _id: notificationId, userId: caller }`. */
  function Owned(notificationId: Id, caller: Id): Notification -> bool {
    (n: Notification) => n.id == notificationId && n.userId == caller
  }

  /** The notifications after `findOneAndUpdate({ _id, userId: caller }, { isRead: true })`:
      `None` when the caller owns no notification with that id. */
  function ReadOne(ns: seq<Notification>, notificationId: Id, caller: Id): (r: Option<seq<Notification>>)
    ensures r.None? <==> forall j | 0 <= j < |ns| :: !(ns[j].id == notificationId && ns[j].userId == caller)
  {
    match FindFirst(ns, Owned(notificationId, caller))
    case None => None
    case Some(i) => Some(ns[i := ns[i].(isRead := true)])
  }

  /** In a store with unique ids, only the caller's notification with that id changes, and
      only its read flag, which is then set. */
  lemma ReadOneTouchesOnlyIt(ns: seq<Notification>, notificationId: Id, caller: Id, bound: Id)
    requires IdsUniqueBelow(ns, NotificationKey, bound)
    requires ReadOne(ns, notificationId, caller).Some?
    ensures var r := ReadOne(ns, notificationId, caller).value;
      && |r| == |ns|
      && forall k | 0 <= k < |ns| ::
           if ns[k].id == notificationId then r[k] == ns[k].(isRead := true) && ns[k].userId == caller
           else r[k] == ns[k]
  {
    var i := FindFirst(ns, Owned(notificationId, caller)).value;
    forall k | 0 <= k < |ns| && k != i ensures ns[k].id != notificationId {
      assert NotificationKey(ns[k]) != NotificationKey(ns[i]);
    }
  }

  /** `markNotificationAsRead`: the caller's notification is marked read and answered;
      otherwise 404 and nothing changes. */
  method MarkNotificationAsRead(db: Db, caller: Id, notificationId: Id) returns (r: Reply<Notification>)
    requires db.Valid()
    modifies db`notifications
    ensures db.Valid()
    ensures ReadOne(old(db.notifications), notificationId, caller).None? ==>
      r == Fail(404, NotificationNotFound) && db.notifications == old(db.notifications)
    ensures ReadOne(old(db.notifications), notificationId, caller).Some? ==>
      && db.notifications == ReadOne(old(db.notifications), notificationId, caller).value
      && r.Ok? && r.code == 200 && r.body.id == notificationId && r.body.userId == caller && r.body.isRead
      && r.body in db.notifications
  {
    var found := FindFirst(db.notifications, Owned(notificationId, caller));
    if found.None? {
      return Fail(404, NotificationNotFound);
    }
    var i := found.value;
    var n := db.notifications[i].(isRead := true);
    db.SetNotifications(db.notifications[i := n]);
    r := Ok(200, n);
  }

  /** Marking the same notification twice is marking it once. */
  lemma ReadOneIdempotent(ns: seq<Notification>, notificationId: Id, caller: Id)
    requires ReadOne(ns, notificationId, caller).Some?
    ensures var once := ReadOne(ns, notificationId, caller).value;
      ReadOne(once, notificationId, caller) == Some(once)
  {
    var i := FindFirst(ns, Owned(notificationId, caller)).value;
    var once := ReadOne(ns, notificationId, caller).value;
    assert FindFirst(once, Owned(notificationId, caller)) == Some(i) by {
      assert Owned(notificationId, caller)(once[i]);
      assert forall j | 0 <= j < i :: once[j] == ns[j];
    }
    assert once[i := once[i].(isRead := true)] == once;
  }

  /** The notifications after `updateMany({ userId: caller, isRead: false }, { isRead: true })`. */
  function ReadAll(ns: seq<Notification>, caller: Id): (r: seq<Notification>)
    ensures |r| == |ns|
  {
    seq(|ns|, k requires 0 <= k < |ns| => if ns[k].userId == caller && !ns[k].isRead then ns[k].(isRead := true) else ns[k])
  }

  /** Every one of the caller's notifications is read afterwards, only the read flag changes,
      and other users' notifications are untouched. */
  lemma ReadAllEffect(ns: seq<Notification>, caller: Id)
    ensures var r := ReadAll(ns, caller);
      forall k | 0 <= k < |ns| ::
        && r[k] == ns[k].(isRead := r[k].isRead)
        && (ns[k].userId == caller ==> r[k].isRead)
        && (ns[k].userId != caller ==> r[k] == ns[k])
  {
  }

  /** Marking all twice is marking all once. */
  lemma ReadAllIdempotent(ns: seq<Notification>, caller: Id)
    ensures ReadAll(ReadAll(ns, caller), caller) == ReadAll(ns, caller)
  {
  }

  /** Afterwards the caller's unread count is zero. */
  lemma ReadAllClearsUnread(ns: seq<Notification>, caller: Id)
    ensures Count(ReadAll(ns, caller), UnreadOf(caller)) == 0
  {
    NoMatch(ReadAll(ns, caller), UnreadOf(caller));
  }

  /** `markAllNotificationsAsRead`. */
  method MarkAllNotificationsAsRead(db: Db, caller: Id) returns (r: Reply<string>)
    requires db.Valid()
    modifies db`notifications
    ensures db.Valid()
    ensures db.notifications == ReadAll(old(db.notifications), caller)
    ensures r == Ok(200, "All notifications marked as read")
  {
    db.SetNotifications(ReadAll(db.notifications, caller));
    r := Ok(200, "All notifications marked as read");
  }

  /** The notifications after `findOneAndDelete({ _id, userId: caller })`: `None` when the
      caller owns no notification with that id. */
  function DeleteOne(ns: seq<Notification>, notificationId: Id, caller: Id): (r: Option<seq<Notification>>)
    ensures r.None? <==> forall j | 0 <= j < |ns| :: !(ns[j].id == notificationId && ns[j].userId == caller)
    ensures r.Some? ==> |r.value| == |ns| - 1
  {
    match FindFirst(ns, Owned(notificationId, caller))
    case None => None
    case Some(i) => Some(RemoveAt(ns, i))
  }

  /** `{ _id: { $ne: notificationId } }`. */
  function Other(notificationId: Id): Notification -> bool {
    (n: Notification) => n.id != notificationId
  }

  /** In a store with unique ids, deleting removes exactly the caller's notification with that
      id: none with that id is left, and every other notification is kept in order. */
  lemma DeleteOneRemovesOnlyIt(ns: seq<Notification>, notificationId: Id, caller: Id, bound: Id)
    requires IdsUniqueBelow(ns, NotificationKey, bound)
    requires DeleteOne(ns, notificationId, caller).Some?
    ensures var r := DeleteOne(ns, notificationId, caller).value;
      && (forall n | n in r :: n.id != notificationId)
      && r == Filter(ns, Other(notificationId))
  {
    var i := FindFirst(ns, Owned(notificationId, caller)).value;
    forall j | 0 <= j < |ns| && j != i ensures Other(notificationId)(ns[j]) {
      assert NotificationKey(ns[j]) != NotificationKey(ns[i]);
    }
    AllButOneMatch(ns, Other(notificationId), i);
  }

  /** `deleteNotification`: the caller's notification is removed; otherwise 404 and nothing
      changes. */
  method DeleteNotification(db: Db, caller: Id, notificationId: Id) returns (r: Reply<string>)
    requires db.Valid()
    modifies db`notifications
    ensures db.Valid()
    ensures DeleteOne(old(db.notifications), notificationId, caller).None? ==>
      r == Fail(404, NotificationNotFound) && db.notifications == old(db.notifications)
    ensures DeleteOne(old(db.notifications), notificationId, caller).Some? ==>
      r == Ok(200, "Notification deleted successfully")
      && db.notifications == DeleteOne(old(db.notifications), notificationId, caller).value
  {
    var found := FindFirst(db.notifications, Owned(notificationId, caller));
    if found.None? {
      return Fail(404, NotificationNotFound);
    }
    db.RemoveNotification(found.value);
    r := Ok(200, "Notification deleted successfully");
  }
}
