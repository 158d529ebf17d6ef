/** The ConnectionRequest schema: a paid request from one user to another to open a chat. */
module ConnectionRequestModel {
  import opened Common
  import opened Text

  /** `status`: enum `pending`, `accepted`, `rejected`. */
  datatype RequestStatus = RequestPending | RequestAccepted | RequestRejected

  /** The default and the fixed `feeAmount`. */
  const DefaultFee: int := 20000

  /** `maxlength` of `rejectionReason`. */
  const MaxReasonLength: nat := 500

  datatype ConnectionRequest = ConnectionRequest(
    id: Id,
    senderId: Id,
    receiverId: Id,
    message: Option<string>,
    status: RequestStatus,
    rejectionReason: Option<string>,
    feeAmount: int,
    isPaid: bool)
  {
    /** What the schema validates on save: a rejection reason of at most 500 characters. */
    predicate Valid() {
      rejectionReason.Some? ==> |rejectionReason.value| <= MaxReasonLength
    }
  }

  /** `new ConnectionRequest({ senderId, receiverId, message, feeAmount })`: the message trimmed,
      status `pending`, unpaid, no rejection reason, the fee given or 20000. */
  function NewConnectionRequest(id: Id, senderId: Id, receiverId: Id, message: Option<string>,
                                feeAmount: Option<int>): (r: ConnectionRequest)
    ensures r.id == id && r.senderId == senderId && r.receiverId == receiverId
    ensures r.message == TrimOpt(message)
    ensures r.status == RequestPending && !r.isPaid && r.rejectionReason == None
    ensures r.feeAmount == if feeAmount.Some? then feeAmount.value else DefaultFee
    ensures r.Valid()
  {
    ConnectionRequest(id, senderId, receiverId, TrimOpt(message), RequestPending, None,
                      if feeAmount.Some? then feeAmount.value else DefaultFee, false)
  }
}
