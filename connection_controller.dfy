/** Connection requests: the directory of users one can ask, sending a paid request, the
    caller's requests, and the receiver's answer, which opens a chat on acceptance. */
module ConnectionController {
  import opened Common
  import opened Seqs
  import opened Text
  import opened Paging
  import opened UserModel
  import opened ConnectionRequestModel
  import opened ConversationModel
  import opened NotificationModel
  import opened PaymentModel
  import opened Store
  import opened NotificationService
  import opened PaymentService

  // ---------------------------------------------------------------------------------------
  // The user directory

  /** `{ _id: { $ne: caller }, roleName: 'user', isActive: true }`, and, when `search` is truthy,
      the `$or` of the two case-insensitive regular expressions, which `matches` stands for. */
  function Listable(caller: Id, search: Option<string>, matches: User -> bool): User -> bool {
    (u: User) => u.id != caller && u.roleName == RoleUser && u.isActive && (!Truthy(search) || matches(u))
  }

  /** `getUsers`: the users the caller may send a request to, newest first. */
  function Users(users: seq<User>, caller: Id, search: Option<string>, matches: User -> bool, q: PageQuery)
    : (r: Reply<Listing<User>>)
    ensures r.Ok? <==> PageLimit(q, 10) == 0 || PageNumber(q) >= 1
    ensures r.Ok? ==> r.body.total == Count(users, Listable(caller, search, matches))
    ensures r.Ok? ==> forall u | u in r.body.items ::
      u in users && u.id != caller && u.roleName == RoleUser && u.isActive && (Truthy(search) ==> matches(u))
    ensures r.Ok? && PageLimit(q, 10) > 0 ==> |r.body.items| <= PageLimit(q, 10)
    ensures r.Ok? ==> NewestPage(r.body.items, Filter(users, Listable(caller, search, matches)), q, 10)
  {
    NewestFirst(Filter(users, Listable(caller, search, matches)), q, 10)
  }

  /** A search only narrows the directory. */
  lemma SearchNarrows(users: seq<User>, caller: Id, search: Option<string>, matches: User -> bool)
    ensures Count(users, Listable(caller, search, matches)) <= Count(users, Listable(caller, None, matches))
  {
    FilterNarrow(users, Listable(caller, None, matches), Listable(caller, search, matches));
  }

  // ---------------------------------------------------------------------------------------
  // The caller's requests

  /** The filter `getMyConnectionRequests` builds from `type` (default `sent`): the caller as
      sender for `sent`, as receiver for `received`, and the empty filter for any other value. */
  predicate MatchesTypeAsWritten(caller: Id, kind: Option<string>, r: ConnectionRequest) {
    var t := if kind.Some? then kind.value else "sent";
    if t == "sent" then r.senderId == caller
    else if t == "received" then r.receiverId == caller
    else true
  }

  /** `getMyConnectionRequests` as written: for a `type` other than `sent` and `received` the
      query has no condition and lists every request of every user. */
  function MyConnectionRequestsAsWritten(requests: seq<ConnectionRequest>, caller: Id, kind: Option<string>, q: PageQuery)
    : (r: Reply<Listing<ConnectionRequest>>)
    ensures r.Ok? <==> PageLimit(q, 10) == 0 || PageNumber(q) >= 1
    ensures r.Ok? ==> r.body.total == Count(requests, (c: ConnectionRequest) => MatchesTypeAsWritten(caller, kind, c))
    ensures r.Ok? ==> forall c | c in r.body.items :: c in requests && MatchesTypeAsWritten(caller, kind, c)
    ensures r.Ok? && PageLimit(q, 10) > 0 ==> |r.body.items| <= PageLimit(q, 10)
    ensures r.Ok? ==> NewestPage(r.body.items, Filter(requests, (c: ConnectionRequest) => MatchesTypeAsWritten(caller, kind, c)), q, 10)
  {
    NewestFirst(Filter(requests, (c: ConnectionRequest) => MatchesTypeAsWritten(caller, kind, c)), q, 10)
  }

  /** A caller who is party to no request sees, with `type=all`, a request between two others. */
  lemma AsWrittenListsStrangersRequests()
    ensures var r := ConnectionRequest(5, 1, 2, None, RequestPending, None, DefaultFee, false);
      var listing := MyConnectionRequestsAsWritten([r], 3, Some("all"), PageQuery(None, None));
      && listing.Ok? && listing.body.total == 1 && listing.body.items == [r]
      && r.senderId != 3 && r.receiverId != 3
  {
    var r := ConnectionRequest(5, 1, 2, None, RequestPending, None, DefaultFee, false);
    FilterOne(r, (c: ConnectionRequest) => MatchesTypeAsWritten(3, Some("all"), c));
  }

  /** Whether the corrected listing shows the requests the caller received: only for
      `type=received`; every other value falls back to the default `sent`. */
  predicate ListsReceived(kind: Option<string>) {
    kind == Some("received")
  }

  function SideOf(caller: Id, kind: Option<string>): ConnectionRequest -> bool {
    (c: ConnectionRequest) => if ListsReceived(kind) then c.receiverId == caller else c.senderId == caller
  }

  /** The corrected `getMyConnectionRequests`: the requests the caller sent, or received for
      `type=received`, newest first; nobody sees a request they are not party to. */
  function MyConnectionRequests(requests: seq<ConnectionRequest>, caller: Id, kind: Option<string>, q: PageQuery)
    : (r: Reply<Listing<ConnectionRequest>>)
    ensures r.Ok? <==> PageLimit(q, 10) == 0 || PageNumber(q) >= 1
    ensures r.Ok? ==> r.body.total == Count(requests, SideOf(caller, kind))
    ensures r.Ok? ==> forall c | c in r.body.items ::
      && c in requests
      && (c.senderId == caller || c.receiverId == caller)
      && (ListsReceived(kind) ==> c.receiverId == caller)
      && (!ListsReceived(kind) ==> c.senderId == caller)
    ensures r.Ok? && PageLimit(q, 10) > 0 ==> |r.body.items| <= PageLimit(q, 10)
    ensures r.Ok? ==> NewestPage(r.body.items, Filter(requests, SideOf(caller, kind)), q, 10)
  {
    NewestFirst(Filter(requests, SideOf(caller, kind)), q, 10)
  }

  /** For `sent`, `received` and no `type` the corrected listing is the one written. */
  lemma CorrectedAgreesOnKnownTypes(requests: seq<ConnectionRequest>, caller: Id, kind: Option<string>, q: PageQuery)
    requires kind == None || kind == Some("sent") || kind == Some("received")
    ensures MyConnectionRequests(requests, caller, kind, q) == MyConnectionRequestsAsWritten(requests, caller, kind, q)
  {
    FilterSamePredicate(requests, SideOf(caller, kind), (c: ConnectionRequest) => MatchesTypeAsWritten(caller, kind, c));
  }

  // ---------------------------------------------------------------------------------------
  // Sending a request

  const SelfRequestError: string := "Cannot send connection request to yourself"
  const UserNotFound: string := "User not found"
  const AwaitingAnswerError: string := "Yêu cầu kết nối của bạn với người này đang đợi đối phương chấp thuận!"
  const AlreadyConnectedError: string := "Hiện tại bạn đã kết nối với người này!"

  /** The `201` body: the stored request and the link to pay its fee. */
  datatype CreatedRequest = CreatedRequest(request: ConnectionRequest, paymentLink: PaymentLink)

  /** The receiver exists, has role `user` and is active. */
  predicate ReceiverAvailable(users: seq<User>, receiverId: Id) {
    var i := UserIndex(users, receiverId);
    i.Some? && users[i.value].roleName == RoleUser && users[i.value].isActive
  }

  /** `{ senderId: caller, receiverId, status: { $in: ['pending', 'accepted'] } }`: only the
      caller's own direction is looked at. */
  function Blocking(caller: Id, receiverId: Id): ConnectionRequest -> bool {
    (c: ConnectionRequest) => c.senderId == caller && c.receiverId == receiverId
      && (c.status == RequestPending || c.status == RequestAccepted)
  }

  /** The guards a new request passes. */
  predicate Admissible(users: seq<User>, requests: seq<ConnectionRequest>, caller: Id, receiverId: Id) {
    receiverId != caller && ReceiverAvailable(users, receiverId) && FindFirst(requests, Blocking(caller, receiverId)).None?
  }

  /** The guards of `createConnectionRequest`, in order: a request to oneself is a 400, an
      unknown, inactive or non-`user` receiver a 404, and an earlier pending or accepted
      request in the same direction a 400 that says which. */
  function Refusal(users: seq<User>, requests: seq<ConnectionRequest>, caller: Id, receiverId: Id): (r: Option<Reply<CreatedRequest>>)
    ensures r.None? <==> Admissible(users, requests, caller, receiverId)
    ensures r.Some? ==> r.value.Fail?
  {
    if receiverId == caller then Some(Fail(400, SelfRequestError))
    else if !ReceiverAvailable(users, receiverId) then Some(Fail(404, UserNotFound))
    else match FindFirst(requests, Blocking(caller, receiverId))
      case Some(i) => Some(Fail(400, if requests[i].status == RequestPending then AwaitingAnswerError else AlreadyConnectedError))
      case None => None
  }

  /** `createConnectionRequest`: after the guards, the request (pending, unpaid, fee 20000) is
      stored and then its fee payment link is created; a failing link is a 500 that leaves the
      request stored. */
  method CreateConnectionRequest(db: Db, caller: User, receiverId: Id, message: Option<string>,
                                 orderCode: nat, checkoutUrl: Option<string>)
    returns (r: Reply<CreatedRequest>)
    requires db.Valid() && caller in db.users
    modifies db`requests, db`payments, db`nextId
    ensures db.Valid()
    ensures receiverId == caller.id ==> r == Fail(400, SelfRequestError)
    ensures receiverId != caller.id && !ReceiverAvailable(db.users, receiverId) ==> r == Fail(404, UserNotFound)
    ensures receiverId != caller.id && ReceiverAvailable(db.users, receiverId) &&
            FindFirst(old(db.requests), Blocking(caller.id, receiverId)).Some? ==>
      r == Fail(400, if old(db.requests)[FindFirst(old(db.requests), Blocking(caller.id, receiverId)).value].status == RequestPending
                     then AwaitingAnswerError else AlreadyConnectedError)
    ensures !Admissible(db.users, old(db.requests), caller.id, receiverId) ==>
      db.requests == old(db.requests) && db.payments == old(db.payments) && db.nextId == old(db.nextId)
    ensures Admissible(db.users, old(db.requests), caller.id, receiverId) ==>
      db.requests == old(db.requests) + [NewConnectionRequest(old(db.nextId), caller.id, receiverId, message, Some(DefaultFee))]
    ensures Admissible(db.users, old(db.requests), caller.id, receiverId) && LinkCreated(old(db.payments), orderCode, checkoutUrl) ==>
      && r == Ok(201, CreatedRequest(NewConnectionRequest(old(db.nextId), caller.id, receiverId, message, Some(DefaultFee)),
                                     PaymentLink(checkoutUrl.value, orderCode, old(db.nextId) + 1)))
      && db.payments == old(db.payments) + [NewPayment(old(db.nextId) + 1, old(db.nextId), caller.id, DefaultFee, orderCode, checkoutUrl.value)]
    ensures Admissible(db.users, old(db.requests), caller.id, receiverId) && !LinkCreated(old(db.payments), orderCode, checkoutUrl) ==>
      r == Fail(500, PaymentLinkError) && db.payments == old(db.payments)
  {
    var refusal := Refusal(db.users, db.requests, caller.id, receiverId);
    if refusal.Some? {
      return refusal.value;
    }
    var found := UserIndex(db.users, receiverId);
    var request := NewConnectionRequest(db.nextId, caller.id, receiverId, message, Some(DefaultFee));
    assert request.id == db.nextId && request.senderId == caller.id && request.feeAmount == DefaultFee;
    assert Registered(db.users, caller.id) by {
      var j :| 0 <= j < |db.users| && db.users[j] == caller;
    }
    assert Registered(db.users, receiverId) by {
      assert db.users[found.value].id == receiverId;
    }
    r := Submit(db, request, orderCode, checkoutUrl);
  }

  /** The part of `createConnectionRequest` after the guards: `connectionRequest.save()`,
      then the payment link for its fee, paid by its sender. */
  method Submit(db: Db, request: ConnectionRequest, orderCode: nat, checkoutUrl: Option<string>)
    returns (r: Reply<CreatedRequest>)
    requires db.Valid() && request.id == db.nextId
    requires Registered(db.users, request.senderId) && Registered(db.users, request.receiverId)
    modifies db`requests, db`payments, db`nextId
    ensures db.Valid()
    ensures db.requests == old(db.requests) + [request]
    ensures LinkCreated(old(db.payments), orderCode, checkoutUrl) ==>
      && r == Ok(201, CreatedRequest(request, PaymentLink(checkoutUrl.value, orderCode, request.id + 1)))
      && db.payments == old(db.payments) + [NewPayment(request.id + 1, request.id, request.senderId, request.feeAmount, orderCode, checkoutUrl.value)]
    ensures !LinkCreated(old(db.payments), orderCode, checkoutUrl) ==>
      r == Fail(500, PaymentLinkError) && db.payments == old(db.payments)
  {
    db.AddRequest(request);
    var link := CreatePaymentLink(db, request.id, request.senderId, request.feeAmount, orderCode, checkoutUrl);
    if link.Failure? {
      return Fail(500, link.error);
    }
    r := Ok(201, CreatedRequest(request, link.value));
  }

  /** A request in the other direction, whatever its status, does not block a new one. */
  lemma ReverseDirectionNotChecked(users: seq<User>, requests: seq<ConnectionRequest>, caller: Id, receiverId: Id,
                                   reverse: ConnectionRequest)
    requires reverse.senderId == receiverId && reverse.receiverId == caller && receiverId != caller
    ensures Admissible(users, requests + [reverse], caller, receiverId) == Admissible(users, requests, caller, receiverId)
  {
    var p := Blocking(caller, receiverId);
    var t := requests + [reverse];
    assert !p(reverse);
    assert (forall j | 0 <= j < |t| :: !p(t[j])) <==> (forall j | 0 <= j < |requests| :: !p(requests[j])) by {
      assert forall j | 0 <= j < |requests| :: t[j] == requests[j];
      assert t[|requests|] == reverse;
    }
  }

  // ---------------------------------------------------------------------------------------
  // Answering a request

  const AnswerStatusError: string := "Status must be accepted or rejected"
  const ReasonRequiredError: string := "Rejection reason is required when rejecting a request"
  const NotFoundOrUnpaid: string := "Connection request not found or not paid"
  /** Leading part of the message of the validation error `connectionRequest.save()` throws. */
  const RequestValidationError: string := "ConnectionRequest validation failed"
  const AcceptedTitle: string := "Yêu cầu kết nối đã được chấp nhận!"
  const AcceptedText: string := " đã chấp nhận yêu cầu kết nối của bạn"
  const RefusedTitle: string := "Yêu cầu kết nối đã bị từ chối"
  const RefusedText: string := " đã từ chối yêu cầu kết nối của bạn"

  /** The titles pass the title validation. */
  lemma AnswerTitlesValid()
    ensures TitleValid(AcceptedTitle) && TitleValid(RefusedTitle)
  {
  }

  predicate IsAnswer(status: string) {
    status == "accepted" || status == "rejected"
  }

  /** The body passes the two checks before the lookup: a known answer, and a rejection
      reason that is not blank for a rejection. */
  predicate Screened(status: string, reason: Option<string>) {
    IsAnswer(status) && (status == "rejected" ==> Truthy(reason) && Trim(reason.value) != "")
  }

  /** `{ _id: requestId, receiverId: caller, status: 'pending', isPaid: true }`. */
  function Answerable(requestId: Id, caller: Id): ConnectionRequest -> bool {
    (c: ConnectionRequest) => c.id == requestId && c.receiverId == caller && c.status == RequestPending && c.isPaid
  }

  /** The request after the answer: the new status and, on a rejection, the trimmed reason. */
  function Answered(c: ConnectionRequest, accept: bool, reason: Option<string>): ConnectionRequest {
    if accept then c.(status := RequestAccepted)
    else c.(status := RequestRejected, rejectionReason := if Truthy(reason) then Some(Trim(reason.value)) else c.rejectionReason)
  }

  /** `Conversation`'s `chatboxName`, as written: `Chat between <sender> and <receiver>`. */
  function ChatboxName(senderName: string, receiverName: string): string {
    "Chat between " + senderName + " and " + receiverName
  }

  /** Two user names of the 50 characters registration allows give a name of 118 characters,
      over the 100 the Conversation schema accepts, so the conversation is never saved. */
  lemma ChatboxNameOverflows()
    ensures var name := seq(50, _ => 'a');
      && 3 <= |name| <= 50
      && |ChatboxName(name, name)| == 118
      && !NewConversation(0, 0, [1, 2], ChatboxName(name, name), 0).Valid()
  {
  }

  /** The chat box name cut to the 100 characters the schema allows: the name as written
      whenever that fits, and otherwise its first 100 characters. */
  function FittedChatboxName(senderName: string, receiverName: string): (name: string)
    ensures |name| <= MaxChatboxNameLength && |name| <= |ChatboxName(senderName, receiverName)|
    ensures var full := ChatboxName(senderName, receiverName);
      && name == full[..|name|]
      && (|full| <= MaxChatboxNameLength ==> name == full)
      && (|full| > MaxChatboxNameLength ==> |name| == MaxChatboxNameLength)
  {
    var full := ChatboxName(senderName, receiverName);
    if |full| <= MaxChatboxNameLength then full else full[..MaxChatboxNameLength]
  }

  /** The name of the user with id `id`, who is stored. */
  function UsernameOf(users: seq<User>, id: Id): string
    requires Registered(users, id)
  {
    var i := UserIndex(users, id);
    assert i.Some? by {
      var j :| 0 <= j < |users| && users[j].id == id;
    }
    users[i.value].username
  }

  /** The sender's notice of an acceptance. */
  function AcceptanceNotice(c: ConnectionRequest, receiverName: string): NotificationData {
    NotificationData(Some(c.senderId), RequestAcceptedType, AcceptedTitle, Some(Trim(receiverName + AcceptedText)),
                     Some(c.id), Some(RelatedConnectionRequest))
  }

  /** The sender's notice of a rejection, ending in `: <reason>` when a reason was given. */
  function RefusalNotice(c: ConnectionRequest, receiverName: string, reason: Option<string>): NotificationData {
    var tail := if Truthy(reason) then ": " + reason.value else "";
    NotificationData(Some(c.senderId), RequestRejectedType, RefusedTitle, Some(Trim(receiverName + RefusedText + tail)),
                     Some(c.id), Some(RelatedConnectionRequest))
  }

  /** Leading part of the message of the validation error `conversation.save()` throws. */
  const ConversationValidationError: string := "Conversation validation failed"

  /** The conversation an acceptance builds: the request's two parties, named as written. */
  function OpenedConversation(id: Id, c: ConnectionRequest, senderName: string, receiverName: string, now: Time): Conversation {
    NewConversation(id, c.id, [c.senderId, c.receiverId], ChatboxName(senderName, receiverName), now)
  }

  /** The corrected conversation: the same one, named with the fitted name. */
  function FittedConversation(id: Id, c: ConnectionRequest, senderName: string, receiverName: string, now: Time): Conversation {
    NewConversation(id, c.id, [c.senderId, c.receiverId], FittedChatboxName(senderName, receiverName), now)
  }

  /** `respondToConnectionRequest`: the checks on the body, then the caller's pending and paid
      request; an acceptance stores the request, opens its conversation and notifies the
      sender, but when the conversation fails validation the accepted request stays stored and
      the answer is a 500; a rejection stores the request with the trimmed reason and notifies
      the sender. */
  method RespondToConnectionRequest(db: Db, caller: User, requestId: Id, status: string, reason: Option<string>, now: Time)
    returns (r: Reply<ConnectionRequest>)
    requires db.Valid()
    modifies db`requests, db`conversations, db`notifications, db`nextId
    ensures db.Valid()
    ensures !IsAnswer(status) ==> r == Fail(400, AnswerStatusError)
    ensures IsAnswer(status) && !Screened(status, reason) ==> r == Fail(400, ReasonRequiredError)
    ensures Screened(status, reason) && FindFirst(old(db.requests), Answerable(requestId, caller.id)).None? ==>
      r == Fail(404, NotFoundOrUnpaid)
    ensures Screened(status, reason) && FindFirst(old(db.requests), Answerable(requestId, caller.id)).Some? ==>
      var i := FindFirst(old(db.requests), Answerable(requestId, caller.id)).value;
      var answered := Answered(old(db.requests)[i], status == "accepted", reason);
      && (!answered.Valid() ==> r == Fail(500, RequestValidationError))
      && (answered.Valid() ==> db.requests == old(db.requests)[i := answered])
      && (answered.Valid() && status == "accepted" ==>
            var conversation := OpenedConversation(old(db.nextId), answered, UsernameOf(db.users, answered.senderId), caller.username, now);
            && (conversation.Valid() ==>
                  && r == Ok(200, answered)
                  && db.conversations == old(db.conversations) + [conversation]
                  && db.notifications == old(db.notifications) + [Materialize(AcceptanceNotice(answered, caller.username), answered.senderId, old(db.nextId) + 1)])
            && (!conversation.Valid() ==> r == Fail(500, ConversationValidationError)))
      && (answered.Valid() && status == "rejected" ==>
            && r == Ok(200, answered)
            && db.conversations == old(db.conversations)
            && db.notifications == old(db.notifications) + [Materialize(RefusalNotice(answered, caller.username, reason), answered.senderId, old(db.nextId))])
    ensures r.Fail? ==>
      && db.conversations == old(db.conversations)
      && db.notifications == old(db.notifications) && db.nextId == old(db.nextId)
    ensures r.Fail? && r != Fail(500, ConversationValidationError) ==> db.requests == old(db.requests)
  {
    if !IsAnswer(status) {
      return Fail(400, AnswerStatusError);
    }
    if status == "rejected" && (!Truthy(reason) || Trim(reason.value) == "") {
      return Fail(400, ReasonRequiredError);
    }
    var found := FindFirst(db.requests, Answerable(requestId, caller.id));
    if found.None? {
      return Fail(404, NotFoundOrUnpaid);
    }
    var i := found.value;
    var request := Answered(db.requests[i], status == "accepted", reason);
    if !request.Valid() {
      return Fail(500, RequestValidationError);
    }
    if status == "accepted" {
      var saved := Accept(db, i, request, caller.username, now);
      if !saved {
        return Fail(500, ConversationValidationError);
      }
    } else {
      Refuse(db, i, request, caller.username, reason);
    }
    r := Ok(200, request);
  }

  /** The acceptance of the pending request at position `i`: the request is saved, and only
      when its conversation passes validation is the conversation stored and the sender told. */
  method Accept(db: Db, i: nat, request: ConnectionRequest, receiverName: string, now: Time) returns (saved: bool)
    requires db.Valid() && i < |db.requests| && db.requests[i].status == RequestPending
    requires request == Answered(db.requests[i], true, None)
    modifies db`requests, db`conversations, db`notifications, db`nextId
    ensures db.Valid()
    ensures db.requests == old(db.requests)[i := request]
    ensures saved == OpenedConversation(old(db.nextId), request, UsernameOf(db.users, request.senderId), receiverName, now).Valid()
    ensures saved ==>
      db.conversations == old(db.conversations) + [OpenedConversation(old(db.nextId), request, UsernameOf(db.users, request.senderId), receiverName, now)]
    ensures saved ==>
      db.notifications == old(db.notifications) + [Materialize(AcceptanceNotice(request, receiverName), request.senderId, old(db.nextId) + 1)]
    ensures !saved ==>
      db.conversations == old(db.conversations) && db.notifications == old(db.notifications) && db.nextId == old(db.nextId)
  {
    var conversation := OpenedConversation(db.nextId, request, UsernameOf(db.users, request.senderId), receiverName, now);
    saved := conversation.Valid();
    if saved {
      OpenConversation(db, i, request, receiverName, now);
      AnswerTitlesValid();
      Notify(db, AcceptanceNotice(request, receiverName));
    } else {
      // The request is saved, and then `conversation.save()` throws.
      db.SetRequest(i, request);
    }
  }

  /** The accepted request saved, then its conversation, once it has passed validation:
      `conversation.save()`. */
  method OpenConversation(db: Db, i: nat, request: ConnectionRequest, receiverName: string, now: Time)
    requires db.Valid() && i < |db.requests| && db.requests[i].status == RequestPending
    requires request == Answered(db.requests[i], true, None)
    requires OpenedConversation(db.nextId, request, UsernameOf(db.users, request.senderId), receiverName, now).Valid()
    modifies db`requests, db`conversations, db`nextId
    ensures db.Valid()
    ensures db.requests == old(db.requests)[i := request]
    ensures db.conversations == old(db.conversations)
      + [OpenedConversation(old(db.nextId), request, UsernameOf(db.users, request.senderId), receiverName, now)]
    ensures db.nextId == old(db.nextId) + 1
  {
    PendingHasNoConversation(db.conversations, db.requests, db.nextId, i);
    var senderName := UsernameOf(db.users, request.senderId);
    db.SetRequest(i, request);
    assert db.requests[i] == request;
    var conversation := OpenedConversation(db.nextId, request, senderName, receiverName, now);
    db.AddConversation(conversation);
  }

  /** The rejection of the pending request at position `i`. */
  method Refuse(db: Db, i: nat, request: ConnectionRequest, receiverName: string, reason: Option<string>)
    requires db.Valid() && i < |db.requests| && db.requests[i].status == RequestPending
    requires request == Answered(db.requests[i], false, reason)
    modifies db`requests, db`notifications, db`nextId
    ensures db.Valid()
    ensures db.requests == old(db.requests)[i := request]
    ensures db.notifications == old(db.notifications)
      + [Materialize(RefusalNotice(request, receiverName, reason), request.senderId, old(db.nextId))]
  {
    db.SetRequest(i, request);
    AnswerTitlesValid();
    Notify(db, RefusalNotice(request, receiverName, reason));
  }

  /** An answered request is no longer pending, so a second answer to it finds nothing. */
  lemma SecondAnswerFails(requests: seq<ConnectionRequest>, bound: Id, requestId: Id, caller: Id, accept: bool, reason: Option<string>)
    requires IdsUniqueBelow(requests, RequestKey, bound)
    requires FindFirst(requests, Answerable(requestId, caller)).Some?
    ensures var i := FindFirst(requests, Answerable(requestId, caller)).value;
      FindFirst(requests[i := Answered(requests[i], accept, reason)], Answerable(requestId, caller)).None?
  {
    var i := FindFirst(requests, Answerable(requestId, caller)).value;
    var after := requests[i := Answered(requests[i], accept, reason)];
    assert forall j | 0 <= j < |after| && j != i :: after[j] == requests[j];
  }

  /** Acceptance leaves exactly one conversation for the request: none belonged to it while
      it was pending. */
  lemma OneConversationPerAcceptance(cs: seq<Conversation>, rs: seq<ConnectionRequest>, bound: Id, i: nat, c: Conversation)
    requires ConversationsLinked(cs, rs) && IdsUniqueBelow(rs, RequestKey, bound)
    requires i < |rs| && rs[i].status == RequestPending && c.requestId == rs[i].id
    ensures Count(cs + [c], (x: Conversation) => x.requestId == rs[i].id) == 1
  {
    var p := (x: Conversation) => x.requestId == rs[i].id;
    PendingHasNoConversation(cs, rs, bound, i);
    FilterAppend(cs, [c], p);
    FilterOne(c, p);
    NoMatch(cs, p);
  }

  /** The conversation an acceptance builds belongs to the request, is active and has exactly
      the sender and the receiver as participants; it passes validation exactly when the name
      as written fits the 100 characters. */
  lemma OpenedConversationShape(id: Id, c: ConnectionRequest, senderName: string, receiverName: string, now: Time)
    ensures var conv := OpenedConversation(id, c, senderName, receiverName, now);
      && conv.requestId == c.id && conv.isActive
      && (conv.Valid() <==> |ChatboxName(senderName, receiverName)| <= MaxChatboxNameLength)
      && |conv.participants| == 2
      && conv.participants[0].userId == c.senderId && conv.participants[1].userId == c.receiverId
      && forall u :: conv.HasParticipant(u) <==> u == c.senderId || u == c.receiverId
  {
  }

  /** The corrected conversation always passes validation, and is the conversation as written
      whenever that one passes. */
  lemma FittedConversationValid(id: Id, c: ConnectionRequest, senderName: string, receiverName: string, now: Time)
    ensures FittedConversation(id, c, senderName, receiverName, now).Valid()
    ensures OpenedConversation(id, c, senderName, receiverName, now).Valid() ==>
      FittedConversation(id, c, senderName, receiverName, now) == OpenedConversation(id, c, senderName, receiverName, now)
  {
  }

  /** An acceptance whose conversation fails validation leaves the request accepted with no
      conversation of its own, and no later answer can reach it: the two users can never chat. */
  lemma StrandedAcceptance(cs: seq<Conversation>, rs: seq<ConnectionRequest>, bound: Id, i: nat)
    requires ConversationsLinked(cs, rs) && IdsUniqueBelow(rs, RequestKey, bound)
    requires i < |rs| && rs[i].status == RequestPending
    ensures var after := rs[i := Answered(rs[i], true, None)];
      && after[i].status == RequestAccepted
      && !RequestHasConversation(cs, rs[i].id)
      && FindFirst(after, Answerable(rs[i].id, rs[i].receiverId)).None?
  {
    PendingHasNoConversation(cs, rs, bound, i);
    var after := rs[i := Answered(rs[i], true, None)];
    var p := Answerable(rs[i].id, rs[i].receiverId);
    forall j | 0 <= j < |after| ensures !p(after[j]) {
      if j != i {
        assert after[j] == rs[j];
        if i < j {
          assert RequestKey(rs[i]) != RequestKey(rs[j]);
        } else {
          assert RequestKey(rs[j]) != RequestKey(rs[i]);
        }
      }
    }
  }
}
