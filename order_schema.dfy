/**
 * The Order document (src/models/Order.js): line items, the enums, the
 * conditional delivery-address rule, the defaults and the pre-save
 * timestamp.  The status datatypes carry every value the handlers write,
 * including those the schema's enums leave out; `SchemaValid` says which
 * documents the schema admits.
 */
module OrderSchema {
  import opened Wrappers
  import opened JsValues

  type Id = string

  /** Every order status the code mentions; `Other` holds any other string a request may carry. */
  datatype OrderStatus =
    | Pending | PendingPayment | Confirmed | Preparing | OutForDelivery
    | Delivered | Cancelled | Completed
    | Other(name: string)

  function StatusName(st: OrderStatus): string {
    match st
    case Pending => "pending"
    case PendingPayment => "pending_payment"
    case Confirmed => "confirmed"
    case Preparing => "preparing"
    case OutForDelivery => "out-for-delivery"
    case Delivered => "delivered"
    case Cancelled => "cancelled"
    case Completed => "completed"
    case Other(name) => name
  }

  predicate IsKnownStatusName(s: string) {
    s in {"pending", "pending_payment", "confirmed", "preparing", "out-for-delivery",
          "delivered", "cancelled", "completed"}
  }

  /** The status a string stands for. */
  function ParseStatus(s: string): (st: OrderStatus)
    ensures StatusName(st) == s
    ensures st.Other? <==> !IsKnownStatusName(s)
  {
    match s
    case "pending" => Pending
    case "pending_payment" => PendingPayment
    case "confirmed" => Confirmed
    case "preparing" => Preparing
    case "out-for-delivery" => OutForDelivery
    case "delivered" => Delivered
    case "cancelled" => Cancelled
    case "completed" => Completed
    case _ => Other(s)
  }

  /** One value per string: `Other` never holds a name that has its own constructor. */
  predicate Canonical(st: OrderStatus) {
    st.Other? ==> !IsKnownStatusName(st.name)
  }

  lemma ParseStatusName(st: OrderStatus)
    requires Canonical(st)
    ensures ParseStatus(StatusName(st)) == st
  {
  }

  /** The orderStatus enum of Order.js:51-55. */
  predicate InOrderStatusEnum(st: OrderStatus) {
    st in {Pending, Confirmed, Preparing, OutForDelivery, Delivered, Cancelled}
  }

  /** Payment status of an order; `PayPaid` is the 'paid' the callback handler writes. */
  datatype PaymentStatus = PayPending | PayCompleted | PayFailed | PayPaid

  function PaymentStatusName(ps: PaymentStatus): string {
    match ps
    case PayPending => "pending"
    case PayCompleted => "completed"
    case PayFailed => "failed"
    case PayPaid => "paid"
  }

  /** The paymentStatus enum of Order.js:46-50. */
  predicate InPaymentStatusEnum(ps: PaymentStatus) {
    ps in {PayPending, PayCompleted, PayFailed}
  }

  predicate InServiceTypeEnum(st: Option<string>) {
    st.Some? && st.value in {"delivery", "takeaway", "dine-in"}
  }

  predicate InPaymentMethodEnum(pm: string) {
    pm in {"mpesa", "card", "cash"}
  }

  /** A line item; an empty string or 0 stands for a missing field. */
  datatype LineItem = LineItem(menuItemId: Id, name: string, price: real, quantity: int,
                               specialInstructions: string)

  /** Order.js:4-14: id, name and price are required and quantity is at least 1. */
  predicate LineItemValid(it: LineItem) {
    it.menuItemId != "" && it.name != "" && it.quantity >= 1
  }

  /** Σ price × quantity, the sum the handlers compute with `reduce`. */
  function Subtotal(items: seq<LineItem>): real {
    if |items| == 0 then 0.0
    else items[0].price * items[0].quantity as real + Subtotal(items[1..])
  }

  /** The sum splits over concatenation, so the left-to-right `reduce` and this right fold agree. */
  lemma {:induction false} SubtotalAppend(a: seq<LineItem>, b: seq<LineItem>)
    ensures Subtotal(a + b) == Subtotal(a) + Subtotal(b)
  {
    if |a| > 0 {
      assert (a + b)[1..] == a[1..] + b;
      SubtotalAppend(a[1..], b);
    } else {
      assert a + b == b;
    }
  }

  datatype Address = Address(street: string, city: string)

  /** Gateway fields the handlers assign although Order.js does not declare them. */
  datatype MpesaFields = MpesaFields(
    phoneNumber: JsVal,
    checkoutRequestID: Option<string>,
    merchantRequestID: Option<string>,
    transactionID: JsVal,
    transactionDate: JsVal,
    amount: JsVal,
    resultCode: JsVal,
    resultDesc: JsVal)

  const NoMpesaFields := MpesaFields(Undefined, None, None, Undefined, Undefined, Undefined, Undefined, Undefined)

  datatype Order = Order(
    id: Id,
    user: Id,
    items: seq<LineItem>,
    totalAmount: real,
    deliveryFee: real,
    serviceType: Option<string>,
    deliveryAddress: Option<Address>,
    paymentMethod: string,
    paymentStatus: PaymentStatus,
    orderStatus: OrderStatus,
    promoCode: Option<string>,
    discountApplied: real,
    createdAt: int,
    updatedAt: int,
    // assigned by handlers, not declared by the schema:
    mpesa: MpesaFields,
    rating: JsVal,
    review: JsVal,
    status: Option<OrderStatus>)

  /** The documents Order.js admits. */
  predicate SchemaValid(o: Order) {
    && o.user != ""
    && (forall i :: 0 <= i < |o.items| ==> LineItemValid(o.items[i]))
    && InServiceTypeEnum(o.serviceType)
    && (o.serviceType == Some("delivery") ==> o.deliveryAddress.Some?)
    && InPaymentMethodEnum(o.paymentMethod)
    && InPaymentStatusEnum(o.paymentStatus)
    && InOrderStatusEnum(o.orderStatus)
  }

  /**
   * `new Order(data)`: the fields a caller leaves out take the schema's
   * defaults (deliveryFee 0, discountApplied 0, both statuses pending,
   * both timestamps now).
   */
  function NewOrder(id: Id, user: Id, items: seq<LineItem>, totalAmount: real,
                    deliveryFee: Option<real>, serviceType: Option<string>,
                    deliveryAddress: Option<Address>, paymentMethod: string,
                    promoCode: Option<string>, discountApplied: Option<real>,
                    orderStatus: Option<OrderStatus>, now: int): (o: Order)
    ensures o.id == id && o.user == user && o.items == items && o.totalAmount == totalAmount
    ensures o.serviceType == serviceType && o.deliveryAddress == deliveryAddress
    ensures o.paymentMethod == paymentMethod && o.promoCode == promoCode
    ensures deliveryFee.Some? ==> o.deliveryFee == deliveryFee.value
    ensures deliveryFee.None? ==> o.deliveryFee == 0.0
    ensures discountApplied.Some? ==> o.discountApplied == discountApplied.value
    ensures discountApplied.None? ==> o.discountApplied == 0.0
    ensures o.paymentStatus == PayPending
    ensures orderStatus.Some? ==> o.orderStatus == orderStatus.value
    ensures orderStatus.None? ==> o.orderStatus == Pending
    ensures o.createdAt == now && o.updatedAt == now
    ensures o.mpesa == NoMpesaFields && o.status.None?
  {
    Order(id, user, items, totalAmount, deliveryFee.GetOr(0.0), serviceType, deliveryAddress,
          paymentMethod, PayPending, orderStatus.GetOr(Pending), promoCode,
          discountApplied.GetOr(0.0), now, now, NoMpesaFields, Undefined, Undefined, None)
  }

  /** `order.save()`: the pre-save hook stamps updatedAt and nothing else changes. */
  function Save(o: Order, now: int): (r: Order)
    ensures r.updatedAt == now
    ensures r.(updatedAt := o.updatedAt) == o
  {
    o.(updatedAt := now)
  }

  /** What the schema admits never carries the statuses 'pending_payment' or 'completed', nor 'paid'. */
  lemma SchemaExcludesHandlerStatuses(o: Order)
    requires SchemaValid(o)
    ensures o.orderStatus != PendingPayment && o.orderStatus != Completed
    ensures o.paymentStatus != PayPaid
  {
  }

  /** A valid line item can still have price 0, while the order handler rejects a zero price. */
  lemma ZeroPriceItemIsSchemaValid()
    ensures LineItemValid(LineItem("m1", "Water", 0.0, 1, ""))
  {
  }
}
