/** The document database, replaced by an in-memory store: one sequence per collection in
    insertion order (the order `find` returns documents in, and the order of `createdAt`),
    and the source of fresh document ids. */
module Store {
  import opened Common
  import opened Seqs
  import opened UserModel
  import opened MessageModel
  import opened LetterModel
  import opened ConnectionRequestModel
  import opened PaymentModel
  import opened NotificationModel
  import opened ConversationModel

  function UserKey(u: User): Id { u.id }
  function LetterKey(l: Letter): Id { l.id }
  function RequestKey(r: ConnectionRequest): Id { r.id }
  function ConversationKey(c: Conversation): Id { c.id }
  function MessageKey(m: Message): Id { m.id }
  function PaymentKey(p: Payment): Id { p.id }
  function NotificationKey(n: Notification): Id { n.id }

  /** The `_id`s of a collection are distinct and were all handed out before `bound`. */
  ghost predicate IdsUniqueBelow<T>(s: seq<T>, key: T -> Id, bound: Id) {
    && (forall i | 0 <= i < |s| :: key(s[i]) < bound)
    && (forall i, j | 0 <= i < j < |s| :: key(s[i]) != key(s[j]))
  }

  /** Inserting a batch of documents whose ids are the next fresh ones keeps ids unique. */
  lemma AppendFresh<T>(s: seq<T>, key: T -> Id, bound: Id, batch: seq<T>)
    requires IdsUniqueBelow(s, key, bound)
    requires forall k | 0 <= k < |batch| :: key(batch[k]) == bound + k
    ensures IdsUniqueBelow(s + batch, key, bound + |batch|)
  {
    var t := s + batch;
    assert forall i | |s| <= i < |t| :: key(t[i]) == bound + (i - |s|);
  }

  /** Handing out more ids keeps every stored id below the bound. */
  lemma RaiseBound<T>(s: seq<T>, key: T -> Id, bound: Id, bound': Id)
    requires IdsUniqueBelow(s, key, bound) && bound <= bound'
    ensures IdsUniqueBelow(s, key, bound')
  {
  }

  /** Changing documents in place without touching their ids keeps ids unique. */
  lemma SameKeys<T>(s: seq<T>, t: seq<T>, key: T -> Id, bound: Id)
    requires IdsUniqueBelow(s, key, bound)
    requires |t| == |s| && forall i | 0 <= i < |s| :: key(t[i]) == key(s[i])
    ensures IdsUniqueBelow(t, key, bound)
  {
  }

  /** Deleting a document keeps ids unique. */
  lemma RemoveKeepsIds<T>(s: seq<T>, key: T -> Id, bound: Id, i: nat)
    requires IdsUniqueBelow(s, key, bound) && i < |s|
    ensures IdsUniqueBelow(RemoveAt(s, i), key, bound)
  {
    var t := RemoveAt(s, i);
    assert forall a | 0 <= a < |t| :: t[a] == s[if a < i then a else a + 1];
  }

  /** Every conversation belongs to an accepted connection request, and no two conversations
      belong to the same request (the unique index on `requestId`). */
  ghost predicate ConversationsLinked(cs: seq<Conversation>, rs: seq<ConnectionRequest>) {
    && (forall k | 0 <= k < |cs| :: AcceptedIn(rs, cs[k].requestId))
    && (forall k, m | 0 <= k < m < |cs| :: cs[k].requestId != cs[m].requestId)
  }

  /** Whether `rs` holds an accepted request with id `requestId`. */
  ghost predicate AcceptedIn(rs: seq<ConnectionRequest>, requestId: Id) {
    exists i | 0 <= i < |rs| :: rs[i].id == requestId && rs[i].status == RequestAccepted
  }

  /** Whether some stored conversation already belongs to request `requestId`. */
  predicate RequestHasConversation(cs: seq<Conversation>, requestId: Id) {
    exists k | 0 <= k < |cs| :: cs[k].requestId == requestId
  }

  /** A pending request has no conversation yet. */
  lemma PendingHasNoConversation(cs: seq<Conversation>, rs: seq<ConnectionRequest>, bound: Id, j: nat)
    requires ConversationsLinked(cs, rs) && IdsUniqueBelow(rs, RequestKey, bound)
    requires j < |rs| && rs[j].status != RequestAccepted
    ensures !RequestHasConversation(cs, rs[j].id)
  {
    forall k | 0 <= k < |cs| ensures cs[k].requestId != rs[j].id {
      var i :| 0 <= i < |rs| && rs[i].id == cs[k].requestId && rs[i].status == RequestAccepted;
      assert i != j;
      if i < j {
        assert RequestKey(rs[i]) != RequestKey(rs[j]);
      } else {
        assert RequestKey(rs[j]) != RequestKey(rs[i]);
      }
    }
  }

  class Db {
    var users: seq<User>
    var letters: seq<Letter>
    var requests: seq<ConnectionRequest>
    var conversations: seq<Conversation>
    var messages: seq<Message>
    var payments: seq<Payment>
    var notifications: seq<Notification>
    /** The next fresh document id. */
    var nextId: Id

    /** The store's invariant: ids unique per collection and below `nextId`, conversations
        linked one-to-one to accepted requests, payment order codes unique. */
    ghost predicate Valid()
      reads this
    {
      && IdsUniqueBelow(users, UserKey, nextId)
      && IdsUniqueBelow(letters, LetterKey, nextId)
      && IdsUniqueBelow(requests, RequestKey, nextId)
      && IdsUniqueBelow(conversations, ConversationKey, nextId)
      && IdsUniqueBelow(messages, MessageKey, nextId)
      && IdsUniqueBelow(payments, PaymentKey, nextId)
      && IdsUniqueBelow(notifications, NotificationKey, nextId)
      && ConversationsLinked(conversations, requests)
      && RequestsReferToUsers(requests, users)
      && UniqueOrderIds(payments)
    }

    /** A store holding the registered users and nothing else (registration is not modelled). */
    constructor (registered: seq<User>, firstFreeId: Id)
      requires IdsUniqueBelow(registered, UserKey, firstFreeId)
      ensures Valid()
      ensures users == registered && nextId == firstFreeId
      ensures letters == [] && requests == [] && conversations == [] && messages == []
      ensures payments == [] && notifications == []
    {
      users, letters, requests, conversations := registered, [], [], [];
      messages, payments, notifications, nextId := [], [], [], firstFreeId;
    }

    /** Every collection's ids are unique and below `bound`. */
    ghost predicate ValidBelow(bound: Id)
      reads this
    {
      && IdsUniqueBelow(users, UserKey, bound)
      && IdsUniqueBelow(letters, LetterKey, bound)
      && IdsUniqueBelow(requests, RequestKey, bound)
      && IdsUniqueBelow(conversations, ConversationKey, bound)
      && IdsUniqueBelow(messages, MessageKey, bound)
      && IdsUniqueBelow(payments, PaymentKey, bound)
      && IdsUniqueBelow(notifications, NotificationKey, bound)
    }

    /** Raising `nextId` past the ids of a batch being inserted keeps the ids below it. */
    lemma ValidRaise(bound: Id)
      requires Valid() && nextId <= bound
      ensures ValidBelow(bound)
    {
      RaiseBound(users, UserKey, nextId, bound);
      RaiseBound(letters, LetterKey, nextId, bound);
      RaiseBound(requests, RequestKey, nextId, bound);
      RaiseBound(conversations, ConversationKey, nextId, bound);
      RaiseBound(messages, MessageKey, nextId, bound);
      RaiseBound(payments, PaymentKey, nextId, bound);
      RaiseBound(notifications, NotificationKey, nextId, bound);
    }

    /** `Notification.insertMany(batch)` / `notification.save()` of new notifications. */
    method AddNotifications(batch: seq<Notification>)
      requires Valid()
      requires forall k | 0 <= k < |batch| :: batch[k].id == nextId + k
      modifies this`notifications, this`nextId
      ensures Valid()
      ensures notifications == old(notifications) + batch && nextId == old(nextId) + |batch|
    {
      AppendFresh(notifications, NotificationKey, nextId, batch);
      ValidRaise(nextId + |batch|);
      notifications, nextId := notifications + batch, nextId + |batch|;
    }

    /** `letter.save()` of a new letter. */
    method AddLetter(l: Letter)
      requires Valid() && l.id == nextId
      modifies this`letters, this`nextId
      ensures Valid()
      ensures letters == old(letters) + [l] && nextId == old(nextId) + 1
    {
      AppendFresh(letters, LetterKey, nextId, [l]);
      ValidRaise(nextId + 1);
      letters, nextId := letters + [l], nextId + 1;
    }

    /** `connectionRequest.save()` of a new request. */
    method AddRequest(r: ConnectionRequest)
      requires Valid() && r.id == nextId
      requires Registered(users, r.senderId) && Registered(users, r.receiverId)
      modifies this`requests, this`nextId
      ensures Valid()
      ensures requests == old(requests) + [r] && nextId == old(nextId) + 1
    {
      AppendFresh(requests, RequestKey, nextId, [r]);
      ValidRaise(nextId + 1);
      LinkedAfterAppend(conversations, requests, r);
      requests, nextId := requests + [r], nextId + 1;
    }

    /** `conversation.save()` of the conversation of an accepted request that has none yet. */
    method AddConversation(c: Conversation)
      requires Valid() && c.id == nextId
      requires exists i | 0 <= i < |requests| :: requests[i].id == c.requestId && requests[i].status == RequestAccepted
      requires !RequestHasConversation(conversations, c.requestId)
      modifies this`conversations, this`nextId
      ensures Valid()
      ensures conversations == old(conversations) + [c] && nextId == old(nextId) + 1
    {
      AppendFresh(conversations, ConversationKey, nextId, [c]);
      ValidRaise(nextId + 1);
      conversations, nextId := conversations + [c], nextId + 1;
    }

    /** `message.save()` of a new message. */
    method AddMessage(m: Message)
      requires Valid() && m.id == nextId
      modifies this`messages, this`nextId
      ensures Valid()
      ensures messages == old(messages) + [m] && nextId == old(nextId) + 1
    {
      AppendFresh(messages, MessageKey, nextId, [m]);
      ValidRaise(nextId + 1);
      messages, nextId := messages + [m], nextId + 1;
    }

    /** `payment.save()` of a new payment whose order code is not taken. */
    method AddPayment(p: Payment)
      requires Valid() && p.id == nextId && !OrderIdTaken(payments, p.payosOrderId)
      modifies this`payments, this`nextId
      ensures Valid()
      ensures payments == old(payments) + [p] && nextId == old(nextId) + 1
    {
      AppendFresh(payments, PaymentKey, nextId, [p]);
      ValidRaise(nextId + 1);
      AppendKeepsOrderIdsUnique(payments, p);
      payments, nextId := payments + [p], nextId + 1;
    }

    /** `request.save()` of a stored request: an accepted request stays accepted, so the
        conversation that belongs to it stays linked. */
    method SetRequest(i: nat, r: ConnectionRequest)
      requires Valid() && i < |requests| && r.id == requests[i].id
      requires r.senderId == requests[i].senderId && r.receiverId == requests[i].receiverId
      requires requests[i].status == RequestAccepted ==> r.status == RequestAccepted
      modifies this`requests
      ensures Valid()
      ensures requests == old(requests)[i := r]
    {
      SameKeys(requests, requests[i := r], RequestKey, nextId);
      var rs := requests[i := r];
      forall k | 0 <= k < |conversations| ensures AcceptedIn(rs, conversations[k].requestId) {
        var j :| 0 <= j < |requests| && requests[j].id == conversations[k].requestId && requests[j].status == RequestAccepted;
        assert rs[j].id == conversations[k].requestId && rs[j].status == RequestAccepted;
      }
      requests := rs;
    }

    /** `letter.save()` of a stored letter. */
    method SetLetter(i: nat, l: Letter)
      requires Valid() && i < |letters| && l.id == letters[i].id
      modifies this`letters
      ensures Valid()
      ensures letters == old(letters)[i := l]
    {
      SameKeys(letters, letters[i := l], LetterKey, nextId);
      letters := letters[i := l];
    }

    /** `Letter.findByIdAndDelete(id)` of the stored letter at position `i`. */
    method RemoveLetter(i: nat)
      requires Valid() && i < |letters|
      modifies this`letters
      ensures Valid()
      ensures letters == RemoveAt(old(letters), i)
    {
      RemoveKeepsIds(letters, LetterKey, nextId, i);
      letters := RemoveAt(letters, i);
    }

    /** `user.save()` of a stored user. */
    method SetUser(i: nat, u: User)
      requires Valid() && i < |users| && u.id == users[i].id
      modifies this`users
      ensures Valid()
      ensures users == old(users)[i := u]
    {
      SameKeys(users, users[i := u], UserKey, nextId);
      SameUsersRegistered(users, users[i := u]);
      users := users[i := u];
    }

    /** An in-place update of the notifications (`updateOne`, `updateMany`) that keeps every id. */
    method SetNotifications(ns: seq<Notification>)
      requires Valid() && |ns| == |notifications|
      requires forall k | 0 <= k < |ns| :: ns[k].id == notifications[k].id
      modifies this`notifications
      ensures Valid()
      ensures notifications == ns
    {
      SameKeys(notifications, ns, NotificationKey, nextId);
      notifications := ns;
    }

    /** `findOneAndDelete` of the stored notification at position `i`. */
    method RemoveNotification(i: nat)
      requires Valid() && i < |notifications|
      modifies this`notifications
      ensures Valid()
      ensures notifications == RemoveAt(old(notifications), i)
    {
      RemoveKeepsIds(notifications, NotificationKey, nextId, i);
      notifications := RemoveAt(notifications, i);
    }

    /** An in-place update of the messages (`updateMany`) that keeps every id. */
    method SetMessages(ms: seq<Message>)
      requires Valid() && |ms| == |messages|
      requires forall k | 0 <= k < |ms| :: ms[k].id == messages[k].id
      modifies this`messages
      ensures Valid()
      ensures messages == ms
    {
      SameKeys(messages, ms, MessageKey, nextId);
      messages := ms;
    }

    /** `conversation.save()` of a stored conversation that keeps its request. */
    method SetConversation(i: nat, c: Conversation)
      requires Valid() && i < |conversations|
      requires c.id == conversations[i].id && c.requestId == conversations[i].requestId
      modifies this`conversations
      ensures Valid()
      ensures conversations == old(conversations)[i := c]
    {
      var cs := conversations[i := c];
      SameKeys(conversations, cs, ConversationKey, nextId);
      assert forall k | 0 <= k < |cs| :: cs[k].requestId == conversations[k].requestId;
      conversations := cs;
    }

    /** `payment.save()` of a stored payment with its order code unchanged. */
    method SetPayment(i: nat, p: Payment)
      requires Valid() && i < |payments| && p.id == payments[i].id
      requires p.payosOrderId == payments[i].payosOrderId
      modifies this`payments
      ensures Valid()
      ensures payments == old(payments)[i := p]
    {
      SameKeys(payments, payments[i := p], PaymentKey, nextId);
      payments := payments[i := p];
    }
  }

  /** `User.findById(id)`: the position of the user with that id. */
  function UserIndex(users: seq<User>, id: Id): (r: Option<nat>)
    ensures r.Some? ==> r.value < |users| && users[r.value].id == id
    ensures r.None? <==> forall j | 0 <= j < |users| :: users[j].id != id
  {
    FindFirst(users, (u: User) => u.id == id)
  }

  /** `ConnectionRequest.findById(id)`. */
  function RequestIndex(requests: seq<ConnectionRequest>, id: Id): (r: Option<nat>)
    ensures r.Some? ==> r.value < |requests| && requests[r.value].id == id
    ensures r.None? <==> forall j | 0 <= j < |requests| :: requests[j].id != id
  {
    FindFirst(requests, (c: ConnectionRequest) => c.id == id)
  }

  /** A user with that id is stored. */
  predicate Registered(users: seq<User>, id: Id) {
    exists j | 0 <= j < |users| :: users[j].id == id
  }

  /** The sender and the receiver of every request are stored users (users are never deleted),
      so populating them always finds a user. */
  ghost predicate RequestsReferToUsers(rs: seq<ConnectionRequest>, users: seq<User>) {
    forall k | 0 <= k < |rs| :: Registered(users, rs[k].senderId) && Registered(users, rs[k].receiverId)
  }

  lemma SameUsersRegistered(users: seq<User>, users': seq<User>)
    requires |users| == |users'| && forall j | 0 <= j < |users| :: users'[j].id == users[j].id
    ensures forall id | Registered(users, id) :: Registered(users', id)
  {
    forall id | Registered(users, id) ensures Registered(users', id) {
      var j :| 0 <= j < |users| && users[j].id == id;
      assert users'[j].id == id;
    }
  }

  /** A new request is not accepted-linked to anything yet, and the old links survive it. */
  lemma LinkedAfterAppend(cs: seq<Conversation>, rs: seq<ConnectionRequest>, r: ConnectionRequest)
    requires ConversationsLinked(cs, rs)
    ensures ConversationsLinked(cs, rs + [r])
  {
    forall k | 0 <= k < |cs| ensures AcceptedIn(rs + [r], cs[k].requestId) {
      var i :| 0 <= i < |rs| && rs[i].id == cs[k].requestId && rs[i].status == RequestAccepted;
      assert (rs + [r])[i] == rs[i];
    }
  }

  /** Filtering a collection keeps its ids unique. */
  lemma {:induction false} FilterKeepsIdsUnique<T>(s: seq<T>, p: T -> bool, key: T -> Id, bound: Id)
    requires IdsUniqueBelow(s, key, bound)
    ensures IdsUniqueBelow(Filter(s, p), key, bound)
  {
    if s != [] {
      var tail := s[1..];
      assert IdsUniqueBelow(tail, key, bound) by {
        assert forall i | 0 <= i < |tail| :: tail[i] == s[i + 1];
      }
      FilterKeepsIdsUnique(tail, p, key, bound);
      var rest := Filter(tail, p);
      if p(s[0]) {
        forall y | y in rest ensures key(y) != key(s[0]) {
          var j :| 0 <= j < |tail| && tail[j] == y;
          assert s[j + 1] == y;
        }
        ConsKeepsIdsUnique(s[0], rest, key, bound);
      }
    }
  }

  lemma ConsKeepsIdsUnique<T>(x: T, rest: seq<T>, key: T -> Id, bound: Id)
    requires IdsUniqueBelow(rest, key, bound) && key(x) < bound
    requires forall y | y in rest :: key(y) != key(x)
    ensures IdsUniqueBelow([x] + rest, key, bound)
  {
    var t := [x] + rest;
    forall i, j | 0 <= i < j < |t| ensures key(t[i]) != key(t[j]) {
      if i == 0 {
        assert t[j] == rest[j - 1];
        assert rest[j - 1] in rest;
      } else {
        assert t[i] == rest[i - 1] && t[j] == rest[j - 1];
      }
    }
  }

}
