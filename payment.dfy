/** The Payment schema: a payment of a user, linked by `requestId` to what it pays for, with
    the payment provider's order code and payload. */
module PaymentModel {
  import opened Common

  /** `status`: enum `pending`, `completed`, `failed`. */
  datatype PaymentStatus = PaymentPending | PaymentCompleted | PaymentFailed {
    function Name(): string {
      match this
      case PaymentPending => "pending"
      case PaymentCompleted => "completed"
      case PaymentFailed => "failed"
    }
  }

  /** `paymentMethod`: enum `bank`, `momo`, `zalopay`, `vnpay` (required). */
  datatype PaymentMethod = Bank | Momo | Zalopay | Vnpay

  /** The part of the provider's webhook body the handler reads: `{ data: { orderCode, status }, code }`.
      `orderCode` is the number the provider echoes back; `None` stands for a missing field. */
  datatype WebhookData = WebhookData(orderCode: Option<nat>, status: Option<string>)
  datatype WebhookBody = WebhookBody(data: Option<WebhookData>, code: Option<string>)

  /** `payosData` (a Mixed path): the provider's answer when the link was created, or the
      webhook body once a payment succeeded. */
  datatype PayosData = LinkResponse(checkoutUrl: string) | WebhookPayload(body: WebhookBody)

  datatype Payment = Payment(
    id: Id,
    requestId: Id,
    userId: Id,
    amount: int,
    paymentMethod: PaymentMethod,
    transactionCode: Option<string>,
    paidAt: Option<Time>,
    status: PaymentStatus,
    payosOrderId: nat,
    payosData: Option<PayosData>)

  /** `new Payment({ requestId, userId, amount, paymentMethod: 'bank', status: 'pending',
      payosOrderId, payosData })` as the payment service builds it: unpaid, no transaction code. */
  function NewPayment(id: Id, requestId: Id, userId: Id, amount: int, orderCode: nat, checkoutUrl: string): (p: Payment)
    ensures p.id == id && p.requestId == requestId && p.userId == userId && p.amount == amount
    ensures p.paymentMethod == Bank && p.status == PaymentPending && p.paidAt == None
    ensures p.payosOrderId == orderCode && p.payosData == Some(LinkResponse(checkoutUrl))
  {
    Payment(id, requestId, userId, amount, Bank, None, None, PaymentPending, orderCode, Some(LinkResponse(checkoutUrl)))
  }

  /** The unique index on `payosOrderId`: no two stored payments share an order code. */
  ghost predicate UniqueOrderIds(ps: seq<Payment>) {
    forall i, j | 0 <= i < j < |ps| :: ps[i].payosOrderId != ps[j].payosOrderId
  }

  /** Whether a payment with this order code is already stored (the unique index's check). */
  predicate OrderIdTaken(ps: seq<Payment>, orderCode: nat) {
    exists i | 0 <= i < |ps| :: ps[i].payosOrderId == orderCode
  }

  /** Storing a payment whose order code is not taken keeps the order codes unique. */
  lemma AppendKeepsOrderIdsUnique(ps: seq<Payment>, p: Payment)
    requires UniqueOrderIds(ps) && !OrderIdTaken(ps, p.payosOrderId)
    ensures UniqueOrderIds(ps + [p])
  {
  }
}
