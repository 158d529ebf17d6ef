/** `createPaymentLink`: asks the payment provider for a checkout link and records a pending
    bank payment under the order code. The provider call and the clock are outside the model:
    the order code (`Date.now()`) and the provider's answer are parameters. */
module PaymentService {
  import opened Common
  import opened PaymentModel
  import opened Store

  /** Message of the error every failure inside `createPaymentLink` is rethrown as. */
  const PaymentLinkError: string := "Failed to create payment link"

  /** `{ paymentUrl, orderCode, paymentId }`. */
  datatype PaymentLink = PaymentLink(paymentUrl: string, orderCode: nat, paymentId: Id)

  /** Whether the link is created: the provider answered with a checkout URL (`None` is a call
      that threw) and no stored payment holds the order code, which the unique index demands. */
  predicate LinkCreated(payments: seq<Payment>, orderCode: nat, checkoutUrl: Option<string>) {
    checkoutUrl.Some? && !OrderIdTaken(payments, orderCode)
  }

  /** On success one pending payment for `amount` is appended and the link to it returned; on
      failure nothing is stored and the one fixed error is thrown. The description is sent to
      the provider only and is not stored. */
  method CreatePaymentLink(db: Db, requestId: Id, userId: Id, amount: int, orderCode: nat, checkoutUrl: Option<string>)
    returns (r: Result<PaymentLink>)
    requires db.Valid()
    modifies db`payments, db`nextId
    ensures db.Valid()
    ensures r.Success? <==> LinkCreated(old(db.payments), orderCode, checkoutUrl)
    ensures r.Success? ==>
      && r.value == PaymentLink(checkoutUrl.value, orderCode, old(db.nextId))
      && db.payments == old(db.payments) + [NewPayment(old(db.nextId), requestId, userId, amount, orderCode, checkoutUrl.value)]
      && db.nextId == old(db.nextId) + 1
    ensures r.Failure? ==> r.error == PaymentLinkError && db.payments == old(db.payments) && db.nextId == old(db.nextId)
  {
    if checkoutUrl.None? || OrderIdTaken(db.payments, orderCode) {
      return Failure(PaymentLinkError);
    }
    var payment := NewPayment(db.nextId, requestId, userId, amount, orderCode, checkoutUrl.value);
    db.AddPayment(payment);
    r := Success(PaymentLink(checkoutUrl.value, orderCode, payment.id));
  }

  /** A created link leaves exactly one payment under its order code. */
  lemma LinkOrderCodeUnique(payments: seq<Payment>, p: Payment)
    requires UniqueOrderIds(payments) && !OrderIdTaken(payments, p.payosOrderId)
    ensures var after := payments + [p];
      forall j | 0 <= j < |after| && after[j].payosOrderId == p.payosOrderId :: j == |payments|
  {
  }
}
