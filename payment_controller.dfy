/** The payment handlers: the caller's payment for a request, the caller's payments, and the
    payment provider's webhook, which settles a payment and, once paid, marks the connection
    request it pays for as paid and tells that request's receiver. */
module PaymentController {
  import opened Common
  import opened Seqs
  import opened Text
  import opened Paging
  import opened UserModel
  import opened ConnectionRequestModel
  import opened PaymentModel
  import opened NotificationModel
  import opened Store
  import opened NotificationService

  // ---------------------------------------------------------------------------------------
  // The caller's payments

  const PaymentNotFound: string := "Payment not found"

  /** `{ requestId, userId: caller }`. */
  function PaymentFor(requestId: Id, caller: Id): Payment -> bool {
    (p: Payment) => p.requestId == requestId && p.userId == caller
  }

  /** `getPaymentStatus`: the caller's first payment for the request, or 404 when the caller
      has none. */
  function PaymentStatus(payments: seq<Payment>, requestId: Id, caller: Id): (r: Reply<Payment>)
    ensures r.Fail? <==> forall j | 0 <= j < |payments| :: !(payments[j].requestId == requestId && payments[j].userId == caller)
    ensures r.Fail? ==> r == Fail(404, PaymentNotFound)
    ensures r.Ok? ==> r.code == 200 && r.body in payments && r.body.requestId == requestId && r.body.userId == caller
  {
    match FindFirst(payments, PaymentFor(requestId, caller))
    case None => Fail(404, PaymentNotFound)
    case Some(i) => Ok(200, payments[i])
  }

  /** `{ userId: caller }`, with `status` added when the parameter is truthy. */
  function PaidBy(caller: Id, status: Option<string>): Payment -> bool {
    (p: Payment) => p.userId == caller && (!Truthy(status) || p.status.Name() == status.value)
  }

  /** `getMyPayments`: the caller's payments, optionally of one status, newest first. */
  function MyPayments(payments: seq<Payment>, caller: Id, status: Option<string>, q: PageQuery): (r: Reply<Listing<Payment>>)
    ensures r.Ok? <==> PageLimit(q, 10) == 0 || PageNumber(q) >= 1
    ensures r.Ok? ==> r.body.total == Count(payments, PaidBy(caller, status))
    ensures r.Ok? ==> forall p | p in r.body.items ::
      p in payments && p.userId == caller && (Truthy(status) ==> p.status.Name() == status.value)
    ensures r.Ok? && PageLimit(q, 10) > 0 ==> |r.body.items| <= PageLimit(q, 10)
    ensures r.Ok? ==> NewestPage(r.body.items, Filter(payments, PaidBy(caller, status)), q, 10)
  {
    NewestFirst(Filter(payments, PaidBy(caller, status)), q, 10)
  }

  /** Another user's payment is never listed, whatever the filter. */
  lemma MyPaymentsExcludeOthers(payments: seq<Payment>, caller: Id, status: Option<string>, q: PageQuery, p: Payment)
    requires p.userId != caller
    requires MyPayments(payments, caller, status, q).Ok?
    ensures p !in MyPayments(payments, caller, status, q).body.items
  {
  }

  // ---------------------------------------------------------------------------------------
  // The webhook

  /** The JSON body of the webhook's answer, which is always sent with status 200: the order
      code is unknown, the webhook was processed, or an exception was caught. */
  datatype WebhookAnswer = UnknownOrder(orderCode: nat) | Processed(orderCode: nat, status: Option<string>) | WebhookError

  const PaidTitle: string := "Yêu cầu kết nối mới"
  const PaidText: string := " đã gửi cho bạn một yêu cầu kết nối"

  /** The title passes the title validation. */
  lemma PaidTitleValid()
    ensures TitleValid(PaidTitle)
  {
  }

  /** The first guard: a success status, or the code `"00"`. */
  predicate PaidSignal(body: WebhookBody)
    requires body.data.Some?
  {
    var st := body.data.value.status;
    st == Some("PAID") || st == Some("PAYMENT_SUCCESS") || st == Some("completed") || body.code == Some("00")
  }

  /** The second guard: a cancellation status, or any code other than `"00"`. */
  predicate CancelSignal(body: WebhookBody)
    requires body.data.Some?
  {
    var st := body.data.value.status;
    st == Some("CANCELLED") || st == Some("PAYMENT_CANCELLED") || st == Some("failed") || body.code != Some("00")
  }

  /** The second guard holds whenever the first fails, because a code that is not `"00"` is
      one of its cases: every webhook for a known payment settles it one way or the other. */
  lemma EveryWebhookSettles(body: WebhookBody)
    requires body.data.Some?
    ensures PaidSignal(body) || CancelSignal(body)
  {
  }

  /** The status a webhook gives a payment, which depends on the webhook alone. */
  function Outcome(body: WebhookBody): (s: PaymentStatus)
    requires body.data.Some?
    ensures s == PaymentCompleted <==> PaidSignal(body)
    ensures s == PaymentFailed <==> !PaidSignal(body) && CancelSignal(body)
    ensures s != PaymentPending
  {
    if PaidSignal(body) then PaymentCompleted else PaymentFailed
  }

  /** The payment after the webhook: completed with the time and the payload, or failed. */
  function Settled(p: Payment, body: WebhookBody, now: Time): Payment
    requires body.data.Some?
  {
    if PaidSignal(body) then p.(status := PaymentCompleted, paidAt := Some(now), payosData := Some(WebhookPayload(body)))
    else p.(status := PaymentFailed)
  }

  /** The settled payment carries the webhook's outcome whatever its previous status, and
      keeps its identity, owner, amount and order code. */
  lemma SettledShape(p: Payment, body: WebhookBody, now: Time)
    requires body.data.Some?
    ensures var s := Settled(p, body, now);
      && s.status == Outcome(body)
      && (PaidSignal(body) ==> s.paidAt == Some(now) && s.payosData == Some(WebhookPayload(body)))
      && (!PaidSignal(body) ==> s.paidAt == p.paidAt && s.payosData == p.payosData)
      && s.id == p.id && s.requestId == p.requestId && s.userId == p.userId
      && s.amount == p.amount && s.payosOrderId == p.payosOrderId
  {
  }

  /** `Payment.findOne({ payosOrderId: orderCode.toString() })`. */
  function PaymentByOrder(payments: seq<Payment>, orderCode: nat): (r: Option<nat>)
    ensures r.Some? ==> r.value < |payments| && payments[r.value].payosOrderId == orderCode
    ensures r.None? <==> !OrderIdTaken(payments, orderCode)
  {
    FindFirst(payments, (p: Payment) => p.payosOrderId == orderCode)
  }

  /** The notice the receiver of a paid request gets. */
  function PaidNotice(c: ConnectionRequest, senderName: string): NotificationData {
    NotificationData(Some(c.receiverId), ConnectionRequestType, PaidTitle, Some(Trim(senderName + PaidText)),
                     Some(c.id), Some(RelatedConnectionRequest))
  }

  /** The name of the stored user with id `id`. */
  function NameOf(users: seq<User>, id: Id): string
    requires Registered(users, id)
  {
    var i := UserIndex(users, id);
    assert i.Some? by {
      var j :| 0 <= j < |users| && users[j].id == id;
    }
    users[i.value].username
  }

  /** `handlePayOSWebhook` (the signature check is disabled in the handler). A body without
      `data` or `orderCode` throws and is answered as an error; an unknown order code changes
      nothing; a known one settles its payment, and a paid one also marks the linked request
      paid and notifies its receiver. Every answer has status 200. */
  method HandleWebhook(db: Db, body: WebhookBody, now: Time) returns (r: Reply<WebhookAnswer>)
    requires db.Valid()
    modifies db`payments, db`requests, db`notifications, db`nextId
    ensures db.Valid()
    ensures r.Ok? && r.code == 200
    ensures body.data.None? || body.data.value.orderCode.None? ==> r.body == WebhookError
    ensures body.data.Some? && body.data.value.orderCode.Some? &&
            PaymentByOrder(old(db.payments), body.data.value.orderCode.value).None? ==>
      r.body == UnknownOrder(body.data.value.orderCode.value)
    ensures body.data.None? || body.data.value.orderCode.None? ||
            PaymentByOrder(old(db.payments), body.data.value.orderCode.value).None? ==>
      db.payments == old(db.payments) && db.requests == old(db.requests)
      && db.notifications == old(db.notifications) && db.nextId == old(db.nextId)
    ensures body.data.Some? && body.data.value.orderCode.Some? &&
            PaymentByOrder(old(db.payments), body.data.value.orderCode.value).Some? ==>
      var i := PaymentByOrder(old(db.payments), body.data.value.orderCode.value).value;
      var payment := old(db.payments)[i];
      var linked := RequestIndex(old(db.requests), payment.requestId);
      && r.body == Processed(body.data.value.orderCode.value, body.data.value.status)
      && db.payments == old(db.payments)[i := Settled(payment, body, now)]
      && (PaidSignal(body) && linked.Some? ==>
            var c := old(db.requests)[linked.value];
            && db.requests == old(db.requests)[linked.value := c.(isPaid := true)]
            && db.notifications == old(db.notifications)
                 + [Materialize(PaidNotice(c, NameOf(db.users, c.senderId)), c.receiverId, old(db.nextId))])
      && (!PaidSignal(body) || linked.None? ==>
            db.requests == old(db.requests) && db.notifications == old(db.notifications))
  {
    if body.data.None? || body.data.value.orderCode.None? {
      return Ok(200, WebhookError);
    }
    var orderCode, status := body.data.value.orderCode.value, body.data.value.status;
    var found := PaymentByOrder(db.payments, orderCode);
    if found.None? {
      return Ok(200, UnknownOrder(orderCode));
    }
    var i := found.value;
    var payment := db.payments[i];
    if PaidSignal(body) {
      payment := payment.(status := PaymentCompleted, paidAt := Some(now), payosData := Some(WebhookPayload(body)));
      db.SetPayment(i, payment);
      MarkRequestPaid(db, payment.requestId);
    } else if CancelSignal(body) {
      payment := payment.(status := PaymentFailed);
      db.SetPayment(i, payment);
    }
    EveryWebhookSettles(body);
    r := Ok(200, Processed(orderCode, status));
  }

  /** The part of a paid webhook after the payment: `ConnectionRequest.findById(requestId)`,
      and when it exists `isPaid = true` and the receiver's notice. */
  method MarkRequestPaid(db: Db, requestId: Id)
    requires db.Valid()
    modifies db`requests, db`notifications, db`nextId
    ensures db.Valid()
    ensures var linked := RequestIndex(old(db.requests), requestId);
      && (linked.None? ==> db.requests == old(db.requests) && db.notifications == old(db.notifications) && db.nextId == old(db.nextId))
      && (linked.Some? ==>
            var c := old(db.requests)[linked.value];
            && db.requests == old(db.requests)[linked.value := c.(isPaid := true)]
            && db.notifications == old(db.notifications)
                 + [Materialize(PaidNotice(c, NameOf(db.users, c.senderId)), c.receiverId, old(db.nextId))])
  {
    var linked := RequestIndex(db.requests, requestId);
    if linked.Some? {
      var j := linked.value;
      var c := db.requests[j];
      assert Registered(db.users, c.senderId);
      var senderName := NameOf(db.users, c.senderId);
      db.SetRequest(j, c.(isPaid := true));
      PaidTitleValid();
      Notify(db, PaidNotice(c, senderName));
    }
  }
}
