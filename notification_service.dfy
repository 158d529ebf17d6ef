/** `createNotification`: stores one notification for a user, or, for the admin target, one
    copy of it for every active administrator. */
module NotificationService {
  import opened Common
  import opened Seqs
  import opened Text
  import opened UserModel
  import opened NotificationModel
  import opened Store

  /** `targetRole`: `'admin'` fans the notification out; anything else stores it once. */
  datatype Target = OneUser | AllAdmins

  /** The `notificationData` object the handlers build. */
  datatype NotificationData = NotificationData(
    userId: Option<Id>,
    kind: NotificationType,
    title: string,
    content: Option<string>,
    relatedId: Option<Id>,
    relatedType: Option<RelatedType>)

  /** Message of the validation error a failed save or `insertMany` rethrows. */
  const ValidationError: string := "Notification validation failed"

  /** `{ roleName: 'admin', isActive: true }`. */
  predicate IsActiveAdmin(u: User) {
    u.roleName == RoleAdmin && u.isActive
  }

  /** `User.find({ roleName: 'admin', isActive: true })`. */
  function ActiveAdmins(users: seq<User>): seq<User> {
    Filter(users, IsActiveAdmin)
  }

  /** The document `new Notification({ ...data, userId })` becomes under id `id`, unread. The
      `content` of the data is the value after the schema's `trim`: the handlers pass `TrimOpt`
      of any text a user supplied, and constant texts that are `Bare`. */
  function Materialize(data: NotificationData, userId: Id, id: Id): Notification {
    Notification(id, userId, data.kind, data.title, data.content, false, data.relatedId, data.relatedType)
  }

  /** `admins.map(admin => ({ ...data, userId: admin._id }))`, numbered from `firstId`. */
  function FanOut(data: NotificationData, admins: seq<User>, firstId: Id): seq<Notification> {
    seq(|admins|, k requires 0 <= k < |admins| => Materialize(data, admins[k].id, firstId + k))
  }

  /** Whether the notifications pass validation: the admin batch is validated per copy, and an
      empty batch has nothing to validate; the single notification needs its owner. */
  predicate Accepted(data: NotificationData, target: Target, users: seq<User>) {
    match target
    case AllAdmins => ActiveAdmins(users) == [] || TitleValid(data.title)
    case OneUser => data.userId.Some? && TitleValid(data.title)
  }

  /** What `createNotification` stores and returns when validation passes. */
  function Created(data: NotificationData, target: Target, users: seq<User>, firstId: Id): (r: seq<Notification>)
    requires Accepted(data, target, users)
    ensures forall k | 0 <= k < |r| :: r[k].id == firstId + k
  {
    match target
    case AllAdmins => FanOut(data, ActiveAdmins(users), firstId)
    case OneUser => [Materialize(data, data.userId.value, firstId)]
  }

  /** Every active administrator gets a copy, and every copy carries the data it was given. */
  lemma FanOutReachesActiveAdmins(data: NotificationData, users: seq<User>, firstId: Id)
    ensures var batch := FanOut(data, ActiveAdmins(users), firstId);
      && (forall u | u in users && IsActiveAdmin(u) :: exists k | 0 <= k < |batch| :: batch[k].userId == u.id)
      && (forall k | 0 <= k < |batch| :: batch[k].kind == data.kind && batch[k].title == data.title
            && batch[k].content == data.content && !batch[k].isRead)
  {
    var admins := ActiveAdmins(users);
    var batch := FanOut(data, admins, firstId);
    forall u | u in users && IsActiveAdmin(u) ensures exists k | 0 <= k < |batch| :: batch[k].userId == u.id {
      var k :| 0 <= k < |admins| && admins[k] == u;
      assert batch[k].userId == u.id;
    }
  }

  /** No user other than an active administrator gets a copy. */
  lemma FanOutSkipsOthers(data: NotificationData, users: seq<User>, bound: Id, firstId: Id, u: User)
    requires IdsUniqueBelow(users, UserKey, bound)
    requires u in users && !IsActiveAdmin(u)
    ensures var batch := FanOut(data, ActiveAdmins(users), firstId);
      forall k | 0 <= k < |batch| :: batch[k].userId != u.id
  {
    var admins := ActiveAdmins(users);
    forall k | 0 <= k < |admins| ensures admins[k].id != u.id {
      assert admins[k] in admins;
      var i :| 0 <= i < |users| && users[i] == admins[k];
      var j :| 0 <= j < |users| && users[j] == u;
      assert i != j;
      if i < j {
        assert UserKey(users[i]) != UserKey(users[j]);
      } else {
        assert UserKey(users[j]) != UserKey(users[i]);
      }
    }
  }

  /** No administrator gets two copies. */
  lemma FanOutOncePerAdmin(data: NotificationData, users: seq<User>, bound: Id, firstId: Id)
    requires IdsUniqueBelow(users, UserKey, bound)
    ensures var batch := FanOut(data, ActiveAdmins(users), firstId);
      forall k, m | 0 <= k < m < |batch| :: batch[k].userId != batch[m].userId
  {
    var admins := ActiveAdmins(users);
    FilterKeepsIdsUnique(users, IsActiveAdmin, UserKey, bound);
    assert forall k, m | 0 <= k < m < |admins| :: UserKey(admins[k]) != UserKey(admins[m]);
  }

  /** `createNotification(notificationData, targetRole)`: on success the store holds the new
      notifications after the old ones and they are returned; a validation error is rethrown
      and nothing is stored. */
  method CreateNotification(db: Db, data: NotificationData, target: Target) returns (r: Result<seq<Notification>>)
    requires db.Valid()
    modifies db`notifications, db`nextId
    ensures db.Valid()
    ensures r.Success? <==> Accepted(data, target, db.users)
    ensures r.Success? ==>
      && r.value == Created(data, target, db.users, old(db.nextId))
      && db.notifications == old(db.notifications) + r.value
      && db.nextId == old(db.nextId) + |r.value|
    ensures r.Failure? ==> r.error == ValidationError && db.notifications == old(db.notifications) && db.nextId == old(db.nextId)
  {
    if !Accepted(data, target, db.users) {
      return Failure(ValidationError);
    }
    var batch := Created(data, target, db.users, db.nextId);
    db.AddNotifications(batch);
    r := Success(batch);
  }

  /** A `createNotification` call for one user with a valid title, as the handlers make it with
      their constant titles: it stores exactly that notification. */
  method Notify(db: Db, data: NotificationData)
    requires db.Valid() && data.userId.Some? && TitleValid(data.title)
    modifies db`notifications, db`nextId
    ensures db.Valid()
    ensures db.notifications == old(db.notifications) + [Materialize(data, data.userId.value, old(db.nextId))]
    ensures db.nextId == old(db.nextId) + 1
  {
    var _ := CreateNotification(db, data, OneUser);
  }

  /** A `createNotification(data, 'admin')` call with a valid title: one copy per active
      administrator is stored. */
  method NotifyAdmins(db: Db, data: NotificationData)
    requires db.Valid() && TitleValid(data.title)
    modifies db`notifications, db`nextId
    ensures db.Valid()
    ensures db.notifications == old(db.notifications) + FanOut(data, ActiveAdmins(db.users), old(db.nextId))
    ensures db.nextId == old(db.nextId) + |ActiveAdmins(db.users)|
  {
    var _ := CreateNotification(db, data, AllAdmins);
  }
}
