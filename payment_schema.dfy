/**
 * The Payment document (src/models/Payment.js): the status enum and its
 * defaults, the M-Pesa details sub-document whose result code is a String
 * path, and the pre-save timestamp.
 */
module PaymentSchema {
  import opened Wrappers
  import opened JsValues

  type Id = string

  datatype PaymentState = Pending | Processing | Completed | Failed | Cancelled

  function StateName(st: PaymentState): string {
    match st
    case Pending => "pending"
    case Processing => "processing"
    case Completed => "completed"
    case Failed => "failed"
    case Cancelled => "cancelled"
  }

  /**
   * `mpesaDetails`; every String path holds what Mongoose cast the assigned value to (None: unset),
   * and `transactionDate`, a Date path, what `CastDate` gives.
   */
  datatype MpesaDetails = MpesaDetails(
    phoneNumber: Option<string>,
    checkoutRequestId: Option<string>,
    merchantRequestId: Option<string>,
    resultCode: Option<string>,
    resultDesc: Option<string>,
    transactionId: Option<string>,
    transactionDate: DateVal)

  const NoMpesaDetails := MpesaDetails(None, None, None, None, None, None, NoDate)

  datatype Payment = Payment(
    id: Id,
    orderId: Id,
    userId: Id,
    amount: real,
    currency: string,
    paymentMethod: string,
    status: PaymentState,
    mpesaDetails: MpesaDetails,
    createdAt: int,
    updatedAt: int)

  /** Payment.js:4-26: orderId, userId and a payment method from the enum are required. */
  predicate SchemaValid(p: Payment) {
    p.orderId != "" && p.userId != "" && p.paymentMethod in {"mpesa", "card", "cash"}
  }

  /** A payment that blocks a second one for the same order. */
  predicate Active(p: Payment) {
    p.status == Pending || p.status == Processing
  }

  /** `new Payment(data)`: currency 'KES', status pending and both timestamps now unless given. */
  function NewPayment(id: Id, orderId: Id, userId: Id, amount: real, paymentMethod: string,
                      status: Option<PaymentState>, now: int): (p: Payment)
    ensures p.id == id && p.orderId == orderId && p.userId == userId && p.amount == amount
    ensures p.paymentMethod == paymentMethod && p.currency == "KES"
    ensures status.None? ==> p.status == Pending
    ensures status.Some? ==> p.status == status.value
    ensures p.mpesaDetails == NoMpesaDetails && p.createdAt == now && p.updatedAt == now
  {
    Payment(id, orderId, userId, amount, "KES", paymentMethod, status.GetOr(Pending),
            NoMpesaDetails, now, now)
  }

  /** `payment.save()`: the pre-save hook stamps updatedAt and nothing else changes. */
  function Save(p: Payment, now: int): (r: Payment)
    ensures r.updatedAt == now
    ensures r.(updatedAt := p.updatedAt) == p
  {
    p.(updatedAt := now)
  }
}
