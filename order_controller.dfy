/**
 * The order lifecycle handlers of src/controllers/order.controller.js:
 * `createOrder` with its validation pipeline, server-side total and M-Pesa
 * branch, `updateOrderStatus`, `cancelOrder`, `rateOrder` and
 * `handleMpesaCallback`.  Each handler is a function from the stores (users
 * and orders, keyed by id) and the request to a response code and the new
 * order store; the clock and the gateway's replies are parameters.
 */
module OrderController {
  import opened Wrappers
  import opened JsValues
  import opened OrderSchema
  import opened Accounts
  import MpesaService

  /** A handler's response code and message, with the order store it leaves behind. */
  datatype Outcome = Outcome(code: int, message: string, orders: map<Id, Order>)

  // ---------------------------------------------------------------- createOrder

  /** The request body of `createOrder`; a missing string is "". */
  datatype CreateRequest = CreateRequest(
    items: Option<seq<LineItem>>,
    serviceType: Option<string>,
    deliveryAddress: Option<Address>,
    paymentMethod: string,
    promoCode: Option<string>,
    mpesaPhoneNumber: string)

  /** The result shape the controller expects from the STK push (order.controller.js:97-125). */
  datatype StkData = StkData(CheckoutRequestID: string, MerchantRequestID: string,
                             CustomerMessage: JsVal, ResponseCode: JsVal)
  datatype StkReply = StkReply(success: bool, error: JsVal, data: Option<StkData>)
  datatype StkAnswer = StkThrew | StkReturned(reply: StkReply)

  /** The push the controller asked for: phone, amount and account reference. */
  datatype PushRequest = PushRequest(phone: string, amount: real, reference: Id)

  datatype CreateResult = CreateResult(code: int, message: string, orders: map<Id, Order>,
                                       push: Option<PushRequest>)

  const ItemsMessage := "Order must be created from cart with valid items"
  const ItemFieldsMessage := "Each cart item must have menuItemId, name, price, and quantity"
  const ItemQuantityMessage := "Item quantity must be at least 1"
  const AddressMessage := "Delivery address is required for delivery orders"
  const PaymentMethodMessage := "Valid payment method is required (mpesa, card, or cash)"
  const PhoneMessage := "M-Pesa phone number is required for M-Pesa payments"
  const PushFailedMessage := "Failed to initiate M-Pesa payment"
  const CreateFailedMessage := "Failed to create order"
  const MpesaCreatedMessage := "Order created and M-Pesa STK push initiated"
  const CreatedMessage := "Order created successfully from cart"
  const DeliveryFee := 200.0

  datatype ItemError = MissingField | QuantityBelowOne

  /** `!item.menuItemId || !item.name || !item.price || !item.quantity` is false: a 0 price or quantity counts as missing. */
  predicate FieldsPresent(it: LineItem) {
    it.menuItemId != "" && it.name != "" && it.price != 0.0 && it.quantity != 0
  }

  predicate ItemAccepted(it: LineItem) {
    FieldsPresent(it) && it.quantity >= 1
  }

  function ErrorOf(it: LineItem): Option<ItemError> {
    if !FieldsPresent(it) then Some(MissingField)
    else if it.quantity < 1 then Some(QuantityBelowOne)
    else None
  }

  /** The item loop: the error of the first rejected item, if any. */
  function FirstItemError(items: seq<LineItem>): (e: Option<ItemError>)
    ensures e.None? <==> forall i :: 0 <= i < |items| ==> ItemAccepted(items[i])
    ensures e.Some? ==> exists i :: 0 <= i < |items| && ErrorOf(items[i]) == e
                          && forall j :: 0 <= j < i ==> ItemAccepted(items[j])
  {
    if |items| == 0 then None
    else if ErrorOf(items[0]).Some? then ErrorOf(items[0])
    else
      var e := FirstItemError(items[1..]);
      assert forall i :: 1 <= i < |items| ==> items[i] == items[1..][i - 1];
      if e.Some? then
        var k :| 0 <= k < |items[1..]| && ErrorOf(items[1..][k]) == e
                 && forall j :: 0 <= j < k ==> ItemAccepted(items[1..][j]);
        assert ErrorOf(items[k + 1]) == e;
        e
      else e
  }

  function DeliveryFeeFor(serviceType: Option<string>): (fee: real)
    ensures fee == (if serviceType == Some("delivery") then 200.0 else 0.0)
  {
    if serviceType == Some("delivery") then DeliveryFee else 0.0
  }

  predicate AddressMissing(req: CreateRequest) {
    req.serviceType == Some("delivery")
    && (req.deliveryAddress.None? || req.deliveryAddress.value.street == "")
  }

  /** The document both branches build, before the M-Pesa fields are filled in. */
  function OrderFor(uid: Id, req: CreateRequest, items: seq<LineItem>, newId: Id,
                    status: OrderStatus, now: int): (o: Order)
    ensures o.id == newId && o.orderStatus == status && o.createdAt == now && o.updatedAt == now
    ensures o.mpesa == NoMpesaFields
    // the total is computed on the server, from the items' prices and the delivery fee
    ensures o.totalAmount == Subtotal(items) + o.deliveryFee - o.discountApplied
    ensures req.items == Some(items) && (forall i :: 0 <= i < |items| ==> ItemAccepted(items[i])) ==>
              PlacedFrom(o, uid, req)
  {
    var fee := DeliveryFeeFor(req.serviceType);
    var discount := 0.0;
    NewOrder(newId, uid, items, Subtotal(items) + fee - discount, Some(fee), req.serviceType,
             if req.serviceType == Some("delivery") then req.deliveryAddress else None,
             req.paymentMethod, req.promoCode, Some(discount), Some(status), now)
  }

  /** The first failing check of `createOrder`, in the order the code runs them. */
  function CreateCheck(users: map<Id, User>, uid: Id, req: CreateRequest): (r: Option<(int, string)>)
    ensures r.None? <==>
              uid in users && req.items.Some? && |req.items.value| > 0
              && (forall i :: 0 <= i < |req.items.value| ==> ItemAccepted(req.items.value[i]))
              && !AddressMissing(req) && InPaymentMethodEnum(req.paymentMethod)
              && (req.paymentMethod == "mpesa" ==> req.mpesaPhoneNumber != "")
    ensures r.Some? ==> r.value.0 in {400, 404}
    ensures uid !in users ==> r == Some((404, "User not found"))
  {
    if uid !in users then Some((404, "User not found"))
    else if req.items.None? || |req.items.value| == 0 then Some((400, ItemsMessage))
    else if FirstItemError(req.items.value) == Some(MissingField) then Some((400, ItemFieldsMessage))
    else if FirstItemError(req.items.value) == Some(QuantityBelowOne) then Some((400, ItemQuantityMessage))
    else if AddressMissing(req) then Some((400, AddressMessage))
    else if !InPaymentMethodEnum(req.paymentMethod) then Some((400, PaymentMethodMessage))
    else if req.paymentMethod == "mpesa" && req.mpesaPhoneNumber == "" then Some((400, PhoneMessage))
    else None
  }

  /** What every order `createOrder` stores satisfies: the server-side total over an accepted item list. */
  predicate PlacedFrom(o: Order, uid: Id, req: CreateRequest) {
    && req.items.Some? && o.user == uid && o.items == req.items.value
    && (forall i :: 0 <= i < |o.items| ==> ItemAccepted(o.items[i]))
    && o.deliveryFee == (if req.serviceType == Some("delivery") then 200.0 else 0.0)
    && o.discountApplied == 0.0
    && o.totalAmount == Subtotal(o.items) + o.deliveryFee - o.discountApplied
    && (o.serviceType == Some("delivery") ==> o.deliveryAddress == req.deliveryAddress)
    && (o.serviceType != Some("delivery") ==> o.deliveryAddress.None?)
    && o.serviceType == req.serviceType && o.paymentMethod == req.paymentMethod
    && o.promoCode == req.promoCode && o.paymentStatus == PayPending
  }

  lemma OrderForPlaced(users: map<Id, User>, uid: Id, req: CreateRequest, newId: Id,
                       status: OrderStatus, now: int)
    requires CreateCheck(users, uid, req).None?
    ensures PlacedFrom(OrderFor(uid, req, req.items.value, newId, status, now), uid, req)
    ensures OrderFor(uid, req, req.items.value, newId, status, now).orderStatus == status
  {
  }

  /**
   * `createOrder`.  `newId` is the id the database gives the new document
   * and `stk` what the push call produced, in the shape the controller reads.
   */
  function CreateOrder(users: map<Id, User>, orders: map<Id, Order>, uid: Id, req: CreateRequest,
                       newId: Id, now: int, stk: StkAnswer): (r: CreateResult)
    requires newId !in orders
    // a rejected request leaves the store as it was and sends no push
    ensures CreateCheck(users, uid, req).Some? ==>
              r == CreateResult(CreateCheck(users, uid, req).value.0, CreateCheck(users, uid, req).value.1,
                                orders, None)
    // a created order is the one new document, with the server-side total
    ensures r.code == 201 ==>
              newId in r.orders && r.orders == orders[newId := r.orders[newId]]
              && PlacedFrom(r.orders[newId], uid, req)
    ensures r.code == 201 && req.paymentMethod != "mpesa" ==>
              r.orders[newId].orderStatus == Pending
    ensures r.code == 201 && req.paymentMethod == "mpesa" ==>
              r.orders[newId].orderStatus == PendingPayment
              && stk.StkReturned? && stk.reply.success && stk.reply.data.Some?
              && r.orders[newId].mpesa.checkoutRequestID == Some(stk.reply.data.value.CheckoutRequestID)
              && r.orders[newId].mpesa.merchantRequestID == Some(stk.reply.data.value.MerchantRequestID)
    // an accepted request succeeds outright when paid on delivery, and with M-Pesa exactly when the
    // push was answered with success and a data part
    ensures CreateCheck(users, uid, req).None? && req.paymentMethod != "mpesa" ==> r.code == 201
    ensures CreateCheck(users, uid, req).None? && req.paymentMethod == "mpesa" ==>
              (r.code == 201 <==> stk.StkReturned? && stk.reply.success && stk.reply.data.Some?)
    // a push that threw, or answered without data, leaves the saved order stranded in the store
    ensures r.code == 500 ==>
              newId in r.orders && r.orders == orders[newId := r.orders[newId]]
              && PlacedFrom(r.orders[newId], uid, req)
              && r.orders[newId].orderStatus == PendingPayment
    // the push is sent for accepted M-Pesa requests only, for the whole total from the phone given
    ensures r.push.Some? <==> CreateCheck(users, uid, req).None? && req.paymentMethod == "mpesa"
    ensures r.push.Some? ==>
              r.push.value == PushRequest(req.mpesaPhoneNumber,
                                          Subtotal(req.items.value) + DeliveryFeeFor(req.serviceType), newId)
    // a push reported as failed deletes the order again
    ensures r.push.Some? && stk.StkReturned? && !stk.reply.success ==>
              r.code == 400 && r.message == PushFailedMessage && r.orders == orders
    ensures r.code in {201, 400, 404, 500}
  {
    match CreateCheck(users, uid, req)
    case Some(fail) => CreateResult(fail.0, fail.1, orders, None)
    case None =>
      var items := req.items.value;
      if req.paymentMethod == "mpesa" then
        var o := OrderFor(uid, req, items, newId, PendingPayment, now);
        OrderForPlaced(users, uid, req, newId, PendingPayment, now);
        var o1 := Save(o.(mpesa := o.mpesa.(phoneNumber := Str(req.mpesaPhoneNumber))), now);
        var saved := orders[newId := o1];
        var push := Some(PushRequest(req.mpesaPhoneNumber, o.totalAmount, newId));
        match stk
        case StkThrew => CreateResult(500, CreateFailedMessage, saved, push)
        case StkReturned(reply) =>
          if !reply.success then
            assert saved - {newId} == orders;
            CreateResult(400, PushFailedMessage, saved - {newId}, push)
          else if reply.data.None? then
            // reading `stkResult.data.CheckoutRequestID` throws and the catch answers 500
            CreateResult(500, CreateFailedMessage, saved, push)
          else
            var d := reply.data.value;
            var o2 := Save(o1.(mpesa := o1.mpesa.(checkoutRequestID := Some(d.CheckoutRequestID),
                                                   merchantRequestID := Some(d.MerchantRequestID))), now);
            assert orders[newId := o2] == orders[newId := o2][newId := o2];
            CreateResult(201, MpesaCreatedMessage, orders[newId := o2], push)
      else
        var o := Save(OrderFor(uid, req, items, newId, Pending, now), now);
        OrderForPlaced(users, uid, req, newId, Pending, now);
        CreateResult(201, CreatedMessage, orders[newId := o], None)
  }

  /** The first failure is the one reported: bad items win over a bad payment method or a missing address. */
  lemma ItemsCheckedFirst(users: map<Id, User>, uid: Id, req: CreateRequest)
    requires uid in users && req.items.Some? && |req.items.value| > 0
    requires FirstItemError(req.items.value).Some?
    ensures CreateCheck(users, uid, req).Some? && CreateCheck(users, uid, req).value.1 in
              {ItemFieldsMessage, ItemQuantityMessage}
  {
  }

  /** An item with price 0 is rejected although the line-item schema admits it. */
  lemma ZeroPriceRejected(users: map<Id, User>, uid: Id, req: CreateRequest)
    requires uid in users && req.items == Some([LineItem("m1", "Water", 0.0, 1, "")])
    ensures CreateCheck(users, uid, req) == Some((400, ItemFieldsMessage))
    ensures LineItemValid(req.items.value[0])
  {
    assert FirstItemError(req.items.value) == Some(MissingField);
  }

  /** The sample order of the admin test script: 3.5 × 1 + 4.5 × 2 delivered costs 212.5. */
  lemma SampleDeliveryTotal(users: map<Id, User>, orders: map<Id, Order>, uid: Id, newId: Id, now: int)
    requires uid in users && newId !in orders
    ensures var req := CreateRequest(Some([LineItem("m1", "Cappuccino", 3.5, 1, ""),
                                           LineItem("m2", "Croissant", 4.5, 2, "")]),
                                     Some("delivery"), Some(Address("Moi Avenue", "Nairobi")),
                                     "cash", None, "");
            var r := CreateOrder(users, orders, uid, req, newId, now, StkThrew);
            r.code == 201 && r.orders[newId].totalAmount == 212.5
  {
    var items := [LineItem("m1", "Cappuccino", 3.5, 1, ""), LineItem("m2", "Croissant", 4.5, 2, "")];
    assert Subtotal(items) == 3.5 * 1.0 + (4.5 * 2.0 + Subtotal([]));
    assert FirstItemError(items).None?;
  }

  /** The M-Pesa document first saved carries 'pending_payment', which the orderStatus enum does not admit. */
  lemma PendingPaymentOrderNotSchemaValid(uid: Id, req: CreateRequest, items: seq<LineItem>, newId: Id, now: int)
    ensures !SchemaValid(OrderFor(uid, req, items, newId, PendingPayment, now))
  {
  }

  // ---------------------------------------------------------------- the push result, as written and adapted

  /**
   * What the controller reads from `initiateSTKPush` as the service is
   * written: a thrown error, or a flat object whose `success` is true and
   * which has no `data` field.
   */
  function AsWrittenAnswer(outcome: MpesaService.PushOutcome): (a: StkAnswer)
    ensures outcome.PushThrew? <==> a.StkThrew?
    ensures a.StkReturned? ==> a.reply.success == outcome.result.success && a.reply.data.None?
  {
    match outcome
    case PushThrew(_) => StkThrew
    case PushReturned(res) => StkReturned(StkReply(res.success, Undefined, None))
  }

  /**
   * With the service as written (a returned result always has `success`
   * true), an M-Pesa order that passes every check is
   * never completed: the request ends in 500 and the 'pending_payment'
   * document stays in the store without a checkout id, so no callback can
   * find it.  The store here applies no enum validation on save; with it,
   * the first save already fails (PendingPaymentOrderNotSchemaValid), and
   * this is the failure that follows once the enum admits 'pending_payment'.
   */
  lemma AsWrittenStrandsMpesaOrder(users: map<Id, User>, orders: map<Id, Order>, uid: Id,
                                   req: CreateRequest, newId: Id, now: int,
                                   outcome: MpesaService.PushOutcome)
    requires newId !in orders && CreateCheck(users, uid, req).None? && req.paymentMethod == "mpesa"
    requires outcome.PushReturned? ==> outcome.result.success
    ensures var r := CreateOrder(users, orders, uid, req, newId, now, AsWrittenAnswer(outcome));
            r.code == 500 && newId in r.orders
            && r.orders[newId].orderStatus == PendingPayment
            && r.orders[newId].mpesa.checkoutRequestID.None?
  {
  }

  /** The adapter the controller needs: a thrown push is a reported failure, a returned one carries its ids under `data`. */
  function AdaptedAnswer(outcome: MpesaService.PushOutcome): (a: StkAnswer)
    ensures a.StkReturned?
    ensures a.reply.success <==> outcome.PushReturned?
    ensures outcome.PushReturned? ==>
              a.reply.data == Some(StkData(outcome.result.checkoutRequestId, outcome.result.merchantRequestId,
                                           outcome.result.customerMessage, outcome.result.responseCode))
  {
    match outcome
    case PushThrew(msg) => StkReturned(StkReply(false, Str(msg), None))
    case PushReturned(res) =>
      StkReturned(StkReply(true, Undefined,
                           Some(StkData(res.checkoutRequestId, res.merchantRequestId,
                                        res.customerMessage, res.responseCode))))
  }

  /** Through the adapter an M-Pesa order is either created with the gateway's checkout id or not kept at all. */
  lemma AdaptedNeverStrands(users: map<Id, User>, orders: map<Id, Order>, uid: Id,
                            req: CreateRequest, newId: Id, now: int,
                            outcome: MpesaService.PushOutcome)
    requires newId !in orders && CreateCheck(users, uid, req).None? && req.paymentMethod == "mpesa"
    ensures var r := CreateOrder(users, orders, uid, req, newId, now, AdaptedAnswer(outcome));
            (outcome.PushReturned? && r.code == 201
             && r.orders[newId].mpesa.checkoutRequestID == Some(outcome.result.checkoutRequestId))
            || (outcome.PushThrew? && r.code == 400 && r.orders == orders)
  {
  }

  // ---------------------------------------------------------------- updateOrderStatus

  /** `updateOrderStatus`: 404 before the role check, then the new status whatever the current one. */
  function UpdateOrderStatus(orders: map<Id, Order>, id: Id, caller: RequestUser, status: string,
                             now: int): (r: Outcome)
    ensures id !in orders ==> r == Outcome(404, "Order not found", orders)
    ensures id in orders && !IsStaffOrAdmin(caller) ==> r == Outcome(403, "Unauthorized", orders)
    ensures id in orders && IsStaffOrAdmin(caller) ==>
              r.code == 200 && r.orders.Keys == orders.Keys
              && r.orders[id] == orders[id].(orderStatus := ParseStatus(status), updatedAt := now)
              && forall k :: k in orders && k != id ==> r.orders[k] == orders[k]
  {
    if id !in orders then Outcome(404, "Order not found", orders)
    else if !IsStaffOrAdmin(caller) then Outcome(403, "Unauthorized", orders)
    else Outcome(200, "", orders[id := Save(orders[id].(orderStatus := ParseStatus(status)), now)])
  }

  /** The controller has no transition table: even a cancelled order can be set back to pending. */
  lemma UpdateOrderStatusAnyTransition(orders: map<Id, Order>, id: Id, caller: RequestUser, now: int)
    requires id in orders && orders[id].orderStatus == Cancelled && IsStaffOrAdmin(caller)
    ensures UpdateOrderStatus(orders, id, caller, "pending", now).orders[id].orderStatus == Pending
  {
  }

  // ---------------------------------------------------------------- cancelOrder

  predicate OwnerOrAdmin(o: Order, caller: RequestUser) {
    o.user == caller.uid || IsAdmin(caller)
  }

  /** `cancelOrder`. */
  function CancelOrder(users: map<Id, User>, orders: map<Id, Order>, id: Id, caller: RequestUser,
                       now: int): (r: Outcome)
    ensures r.code == 200 <==>
              id in orders && caller.uid in users && OwnerOrAdmin(orders[id], caller)
              && orders[id].orderStatus !in {Completed, Cancelled}
    ensures r.code == 200 ==>
              r.orders == orders[id := orders[id].(orderStatus := Cancelled, updatedAt := now)]
    ensures r.code != 200 ==> r.orders == orders
    ensures id !in orders ==> r.code == 404 && r.message == "Order not found"
    ensures id in orders && caller.uid !in users ==> r.code == 404 && r.message == "User not found"
    ensures id in orders && caller.uid in users && !OwnerOrAdmin(orders[id], caller) ==> r.code == 403
    ensures (id in orders && caller.uid in users && OwnerOrAdmin(orders[id], caller)
             && orders[id].orderStatus in {Completed, Cancelled}) ==> r.code == 400
  {
    if id !in orders then Outcome(404, "Order not found", orders)
    else if caller.uid !in users then Outcome(404, "User not found", orders)
    else if !OwnerOrAdmin(orders[id], caller) then Outcome(403, "Unauthorized", orders)
    else if orders[id].orderStatus in {Completed, Cancelled} then
      Outcome(400, "Cannot cancel this order", orders)
    else Outcome(200, "", orders[id := Save(orders[id].(orderStatus := Cancelled), now)])
  }

  /** A delivered order can still be cancelled. */
  lemma DeliveredCanBeCancelled(users: map<Id, User>, orders: map<Id, Order>, id: Id,
                                caller: RequestUser, now: int)
    requires id in orders && caller.uid in users && orders[id].user == caller.uid
    requires orders[id].orderStatus == Delivered
    ensures CancelOrder(users, orders, id, caller, now).code == 200
  {
  }

  // ---------------------------------------------------------------- rateOrder

  /** `rateOrder`; a caller with no stored user makes `user._id` throw, which ends in 500. */
  function RateOrder(users: map<Id, User>, orders: map<Id, Order>, id: Id, caller: RequestUser,
                     rating: JsVal, review: JsVal, now: int): (r: Outcome)
    ensures r.code == 200 <==>
              id in orders && caller.uid in users && OwnerOrAdmin(orders[id], caller)
              && orders[id].orderStatus == Completed
    ensures r.code == 200 ==>
              r.orders == orders[id := orders[id].(rating := rating, review := review, updatedAt := now)]
    ensures r.code != 200 ==> r.orders == orders
    ensures id in orders && caller.uid !in users ==> r.code == 500
  {
    if id !in orders then Outcome(404, "Order not found", orders)
    else if caller.uid !in users then Outcome(500, "", orders)
    else if !OwnerOrAdmin(orders[id], caller) then Outcome(403, "Unauthorized", orders)
    else if orders[id].orderStatus != Completed then Outcome(400, "Can only rate completed orders", orders)
    else Outcome(200, "", orders[id := Save(orders[id].(rating := rating, review := review), now)])
  }

  /** No order the schema admits can be rated: 'completed' is outside the orderStatus enum. */
  lemma SchemaValidOrderNeverRated(users: map<Id, User>, orders: map<Id, Order>, id: Id,
                                   caller: RequestUser, rating: JsVal, review: JsVal, now: int)
    requires id in orders && SchemaValid(orders[id])
    ensures RateOrder(users, orders, id, caller, rating, review, now).code != 200
  {
    SchemaExcludesHandlerStatuses(orders[id]);
  }

  /** So for a schema-valid order the 'completed' guard of `cancelOrder` never fires either. */
  lemma SchemaValidCancelGuard(o: Order)
    requires SchemaValid(o)
    ensures o.orderStatus in {Completed, Cancelled} <==> o.orderStatus == Cancelled
  {
    SchemaExcludesHandlerStatuses(o);
  }

  // ---------------------------------------------------------------- handleMpesaCallback

  /** `Order.findOne({mpesaCheckoutRequestID})`: some order with that checkout id, or none when there is none. */
  predicate FindsByCheckout(orders: map<Id, Order>, checkoutId: string, found: Option<Id>) {
    match found
    case None => forall id :: id in orders ==> orders[id].mpesa.checkoutRequestID != Some(checkoutId)
    case Some(id) => id in orders && orders[id].mpesa.checkoutRequestID == Some(checkoutId)
  }

  /**
   * The order after a callback with this code: the number 0 is a payment,
   * recording the receipt, date, amount and phone of the metadata; anything
   * else is a failure, recording the code and description.  Nothing else of
   * the order changes but updatedAt.
   */
  function ApplyCallback(o: Order, cb: MpesaService.StkCallback, now: int): (q: Order)
    ensures q.updatedAt == now
    ensures q.(orderStatus := o.orderStatus, paymentStatus := o.paymentStatus, mpesa := o.mpesa,
               updatedAt := o.updatedAt) == o
    ensures cb.resultCode == Num(0) ==>
              var m := MpesaService.Flatten(MpesaService.MetadataItems(cb));
              q.orderStatus == Pending && q.paymentStatus == PayPaid
              && q.mpesa == o.mpesa.(transactionID := MpesaService.Field(m, "MpesaReceiptNumber"),
                                     transactionDate := MpesaService.Field(m, "TransactionDate"),
                                     amount := MpesaService.Field(m, "Amount"),
                                     phoneNumber := MpesaService.Field(m, "PhoneNumber"))
    ensures cb.resultCode != Num(0) ==>
              q.orderStatus == Cancelled && q.paymentStatus == PayFailed
              && q.mpesa == o.mpesa.(resultCode := cb.resultCode, resultDesc := cb.resultDesc)
  {
    var m := MpesaService.Flatten(MpesaService.MetadataItems(cb));
    if cb.resultCode == Num(0) then
      Save(o.(orderStatus := Pending, paymentStatus := PayPaid,
              mpesa := o.mpesa.(transactionID := MpesaService.Field(m, "MpesaReceiptNumber"),
                                transactionDate := MpesaService.Field(m, "TransactionDate"),
                                amount := MpesaService.Field(m, "Amount"),
                                phoneNumber := MpesaService.Field(m, "PhoneNumber"))), now)
    else
      Save(o.(orderStatus := Cancelled, paymentStatus := PayFailed,
              mpesa := o.mpesa.(resultCode := cb.resultCode, resultDesc := cb.resultDesc)), now)
  }

  /** `handleMpesaCallback`; `found` is the lookup's answer. */
  function HandleMpesaCallback(orders: map<Id, Order>, data: MpesaService.CallbackData,
                               found: Option<Id>, now: int): (r: Outcome)
    requires MpesaService.StkCallbackOf(data).Some? ==>
               FindsByCheckout(orders, MpesaService.StkCallbackOf(data).value.checkoutRequestID, found)
    ensures MpesaService.StkCallbackOf(data).None? ==> r == Outcome(500, "Failed to process callback", orders)
    ensures r.code == 404 <==> MpesaService.StkCallbackOf(data).Some? && found.None?
    ensures r.code != 200 ==> r.orders == orders
    ensures r.code == 200 ==> found.Some? && found.value in orders
    ensures r.code == 200 ==>
              var cb := MpesaService.StkCallbackOf(data).value;
              r.orders == orders[found.value := ApplyCallback(orders[found.value], cb, now)]
              && r.orders[found.value].mpesa.checkoutRequestID == Some(cb.checkoutRequestID)
  {
    match MpesaService.StkCallbackOf(data)
    case None => Outcome(500, "Failed to process callback", orders)
    case Some(cb) =>
      match found
      case None => Outcome(404, "Order not found", orders)
      case Some(id) => Outcome(200, "Callback processed successfully", orders[id := ApplyCallback(orders[id], cb, now)])
  }

  /** The successful callback copies the receipt, date, amount and phone from the last metadata items with those names. */
  lemma CallbackCopiesMetadata(o: Order, cb: MpesaService.StkCallback, now: int, i: nat)
    requires cb.resultCode == Num(0)
    requires var items := MpesaService.MetadataItems(cb);
             i < |items| && forall j :: i < j < |items| ==> items[j].name != items[i].name
    ensures var it := MpesaService.MetadataItems(cb)[i];
            var q := ApplyCallback(o, cb, now).mpesa;
            && (it.name == "MpesaReceiptNumber" ==> q.transactionID == it.value)
            && (it.name == "TransactionDate" ==> q.transactionDate == it.value)
            && (it.name == "Amount" ==> q.amount == it.value)
            && (it.name == "PhoneNumber" ==> q.phoneNumber == it.value)
  {
    MpesaService.FlattenLastWins(MpesaService.MetadataItems(cb), i);
  }

  /** A callback never changes the checkout id, so the same lookup answer holds afterwards. */
  lemma CallbackKeepsLookup(orders: map<Id, Order>, data: MpesaService.CallbackData, found: Option<Id>,
                            now: int)
    requires MpesaService.StkCallbackOf(data).Some?
    requires FindsByCheckout(orders, MpesaService.StkCallbackOf(data).value.checkoutRequestID, found)
    ensures FindsByCheckout(HandleMpesaCallback(orders, data, found, now).orders,
                            MpesaService.StkCallbackOf(data).value.checkoutRequestID, found)
  {
  }

  /** Nothing records that a callback was processed: replaying one gives the state a single delivery gives at the later time. */
  lemma CallbackReplay(orders: map<Id, Order>, data: MpesaService.CallbackData, found: Option<Id>,
                       t1: int, t2: int)
    requires MpesaService.StkCallbackOf(data).Some?
    requires FindsByCheckout(orders, MpesaService.StkCallbackOf(data).value.checkoutRequestID, found)
    ensures CallbackFindsAfter(orders, data, found, t1)
    ensures HandleMpesaCallback(HandleMpesaCallback(orders, data, found, t1).orders, data, found, t2)
         == HandleMpesaCallback(orders, data, found, t2)
  {
    CallbackKeepsLookup(orders, data, found, t1);
    if found.Some? {
      var cb := MpesaService.StkCallbackOf(data).value;
      var id := found.value;
      var once := HandleMpesaCallback(orders, data, found, t1).orders;
      assert ApplyCallback(once[id], cb, t2) == ApplyCallback(orders[id], cb, t2);
      assert once[id := ApplyCallback(once[id], cb, t2)] == orders[id := ApplyCallback(orders[id], cb, t2)];
    }
  }

  predicate CallbackFindsAfter(orders: map<Id, Order>, data: MpesaService.CallbackData, found: Option<Id>,
                               t: int)
    requires MpesaService.StkCallbackOf(data).Some?
    requires FindsByCheckout(orders, MpesaService.StkCallbackOf(data).value.checkoutRequestID, found)
  {
    FindsByCheckout(HandleMpesaCallback(orders, data, found, t).orders,
                    MpesaService.StkCallbackOf(data).value.checkoutRequestID, found)
  }

  /** No guard on the current status: a later failure callback overwrites an earlier payment. */
  lemma LaterCallbackOverwrites(o: Order, paid: MpesaService.StkCallback, failed: MpesaService.StkCallback,
                                t1: int, t2: int)
    requires paid.resultCode == Num(0) && failed.resultCode == Num(1032)
    ensures ApplyCallback(o, paid, t1).paymentStatus == PayPaid
    ensures ApplyCallback(ApplyCallback(o, paid, t1), failed, t2).orderStatus == Cancelled
    ensures ApplyCallback(ApplyCallback(o, paid, t1), failed, t2).paymentStatus == PayFailed
  {
  }

  /** A string "0" is not the number 0: that code counts as a failure here. */
  lemma StringZeroIsFailureHere(o: Order, cb: MpesaService.StkCallback, now: int)
    requires cb.resultCode == Str("0")
    ensures ApplyCallback(o, cb, now).paymentStatus == PayFailed
  {
  }
}
