/**
 * The payment handlers of src/controllers/payment.controller.js:
 * `initiateMpesaPayment` with its phone validation and normalisation,
 * `checkPaymentStatus` (polling the gateway) and `mpesaCallback`.  Stores
 * are maps keyed by id; `findOne` lookups are answers passed in together
 * with the predicate that ties them to the store.
 */
module PaymentController {
  import opened Wrappers
  import opened Text
  import opened JsValues
  import opened PaymentSchema
  import OrderSchema
  import MpesaService

  // ---------------------------------------------------------------- phone numbers

  /** The captured group of the phone pattern: 1 or 7 followed by eight digits. */
  predicate IsSubscriberNumber(t: string) {
    |t| == 9 && (t[0] == '1' || t[0] == '7') && AllDigits(t)
  }

  /** `^(?:\+254|254|0)?([17]\d{8})$`: an optional +254, 254 or 0, then the subscriber number. */
  predicate ValidKenyanPhone(s: string): (b: bool)
    ensures b ==> 9 <= |s| <= 13 && AllDigits(s[|s| - 9..]) && s[|s| - 9] in {'1', '7'}
  {
    |s| >= 9 && s[..|s| - 9] in {"", "+254", "254", "0"} && IsSubscriberNumber(s[|s| - 9..])
  }

  /** `replace(/^(?:\+254|254|0)/, '254')`: the first alternative that matches at the start is replaced. */
  function FormatPhone(s: string): (r: string)
    ensures StartsWith(s, "+254") || StartsWith(s, "254") || StartsWith(s, "0") ==> StartsWith(r, "254")
    ensures StartsWith(s, "254") ==> r == s
    ensures !(StartsWith(s, "+254") || StartsWith(s, "254") || StartsWith(s, "0")) ==> r == s
    ensures |s| - 1 <= |r| <= |s| + 2
  {
    if StartsWith(s, "+254") then
      assert s[..3][0] == s[..4][0] == '+';
      "254" + s[4..]
    else if StartsWith(s, "254") then "254" + s[3..]
    else if StartsWith(s, "0") then "254" + s[1..]
    else s
  }

  /** The pattern's two parts: a valid number is one of the four prefixes followed by a subscriber number. */
  lemma ValidPhoneParts(p: string, t: string)
    requires p in {"", "+254", "254", "0"} && IsSubscriberNumber(t)
    ensures ValidKenyanPhone(p + t)
  {
    var s := p + t;
    assert s[..|s| - 9] == p;
    assert s[|s| - 9..] == t;
  }

  /** Normalising one of the four prefixes followed by a subscriber number. */
  lemma FormatParts(p: string, t: string)
    requires p in {"", "+254", "254", "0"} && IsSubscriberNumber(t)
    ensures FormatPhone(p + t) == (if p == "" then t else "254" + t)
  {
    var s := p + t;
    if p == "+254" {
      assert s[..4] == p;
      assert s[4..] == t;
    } else if p == "254" {
      assert s[0] == '2';
      assert s[..3] == p;
      assert s[3..] == t;
    } else if p == "0" {
      assert s[0] == '0';
      assert s[..1] == p;
      assert s[1..] == t;
    } else {
      assert s == t;
      assert s[0] == '1' || s[0] == '7';
      assert !StartsWith(s, "+254") by { assert |s| >= 4 ==> s[..4][0] == s[0]; }
      assert !StartsWith(s, "254") by { assert s[..3][0] == s[0]; }
      assert !StartsWith(s, "0") by { assert s[..1][0] == s[0]; }
    }
  }

  /** A valid number becomes 254 followed by its subscriber number, except a bare one, which is kept as it is. */
  lemma FormatValidPhone(s: string)
    requires ValidKenyanPhone(s)
    ensures |s| == 9 ==> FormatPhone(s) == s
    ensures |s| > 9 ==> FormatPhone(s) == "254" + s[|s| - 9..]
    ensures ValidKenyanPhone(FormatPhone(s))
  {
    var p, t := s[..|s| - 9], s[|s| - 9..];
    assert s == p + t;
    FormatParts(p, t);
    ValidPhoneParts(if p == "" then "" else "254", t);
  }

  /** Normalising twice changes nothing more on a valid number. */
  lemma FormatPhoneIdempotent(s: string)
    requires ValidKenyanPhone(s)
    ensures FormatPhone(FormatPhone(s)) == FormatPhone(s)
  {
    FormatValidPhone(s);
    FormatValidPhone(FormatPhone(s));
  }

  /** The handler's own example: a leading 0 becomes 254. */
  lemma SampleLocalPhone()
    ensures ValidKenyanPhone("0712345678") && FormatPhone("0712345678") == "254712345678"
  {
    var t := "712345678";
    assert IsSubscriberNumber(t);
    assert "0712345678" == "0" + t;
    ValidPhoneParts("0", t);
    FormatParts("0", t);
  }

  /** A bare subscriber number passes the pattern and is not given the country code. */
  lemma SampleBarePhone()
    ensures ValidKenyanPhone("712345678") && FormatPhone("712345678") == "712345678"
  {
    var t := "712345678";
    assert IsSubscriberNumber(t);
    assert t == "" + t;
    ValidPhoneParts("", t);
    FormatParts("", t);
  }

  /** A subscriber number must start with 1 or 7. */
  lemma InvalidSamplePhone()
    ensures !ValidKenyanPhone("0812345678")
  {
    var s := "0812345678";
    assert s[|s| - 9..][0] == '8';
  }

  // ---------------------------------------------------------------- initiateMpesaPayment

  datatype InitiateRequest = InitiateRequest(orderId: Id, phoneNumber: string)

  /** The push the handler asked for: normalised phone, amount and account reference. */
  datatype PushRequest = PushRequest(phone: string, amount: real, reference: string)

  datatype InitiateResult = InitiateResult(code: int, message: string, payments: map<Id, Payment>,
                                           push: Option<PushRequest>)

  /** `Payment.findOne({orderId, status: {$in: ['pending', 'processing']}})`. */
  predicate FindsActive(payments: map<Id, Payment>, orderId: Id, found: Option<Id>) {
    match found
    case None => forall id :: id in payments ==> !(payments[id].orderId == orderId && Active(payments[id]))
    case Some(id) => id in payments && payments[id].orderId == orderId && Active(payments[id])
  }

  /** The guards of `initiateMpesaPayment`, in the order the code runs them. */
  function InitiateCheck(orders: map<Id, OrderSchema.Order>, payments: map<Id, Payment>, uid: Id,
                         req: InitiateRequest, active: Option<Id>): (r: Option<(int, string)>)
    ensures r.None? <==>
              req.orderId != "" && req.phoneNumber != "" && ValidKenyanPhone(req.phoneNumber)
              && req.orderId in orders && orders[req.orderId].user == uid
              && orders[req.orderId].paymentStatus != OrderSchema.PayCompleted && active.None?
    ensures r.Some? ==> r.value.0 in {400, 403, 404}
    ensures (req.orderId == "" || req.phoneNumber == "") ==> r.Some? && r.value.0 == 400
  {
    if req.orderId == "" || req.phoneNumber == "" then Some((400, "Order ID and phone number are required"))
    else if !ValidKenyanPhone(req.phoneNumber) then
      Some((400, "Invalid phone number format. Use Kenyan format (e.g., 0712345678)"))
    else if req.orderId !in orders then Some((404, "Order not found"))
    else if orders[req.orderId].user != uid then Some((403, "You can only pay for your own orders"))
    else if orders[req.orderId].paymentStatus == OrderSchema.PayCompleted then Some((400, "Order is already paid"))
    else if active.Some? then Some((400, "Payment already in progress for this order"))
    else None
  }

  /** Passing every guard means the order exists and no payment for it is in progress. */
  lemma PassedCheck(orders: map<Id, OrderSchema.Order>, payments: map<Id, Payment>, uid: Id,
                    req: InitiateRequest, active: Option<Id>)
    requires FindsActive(payments, req.orderId, active)
    requires InitiateCheck(orders, payments, uid, req, active).None?
    ensures req.orderId in orders && active.None?
    ensures forall id :: id in payments ==> !(payments[id].orderId == req.orderId && Active(payments[id]))
  {
  }

  /** The payment record a successful initiation saves. */
  predicate StartedFor(p: Payment, uid: Id, req: InitiateRequest, amount: real, res: MpesaService.PushResult) {
    p.orderId == req.orderId && p.userId == uid && p.status == Pending && p.paymentMethod == "mpesa"
    && p.currency == "KES" && p.amount == amount
    && p.mpesaDetails.phoneNumber == Some(FormatPhone(req.phoneNumber))
    && p.mpesaDetails.checkoutRequestId == Some(res.checkoutRequestId)
    && p.mpesaDetails.merchantRequestId == Some(res.merchantRequestId)
  }

  /**
   * `initiateMpesaPayment`.  `active` answers the lookup for a payment in
   * progress, `newId` is the new document's id and `stk` what the push call
   * produced.
   */
  function InitiateMpesaPayment(orders: map<Id, OrderSchema.Order>, payments: map<Id, Payment>, uid: Id,
                                req: InitiateRequest, active: Option<Id>, newId: Id, now: int,
                                stk: MpesaService.PushOutcome): (r: InitiateResult)
    requires FindsActive(payments, req.orderId, active)
    requires newId !in payments
    ensures InitiateCheck(orders, payments, uid, req, active).Some? ==>
              r.code == InitiateCheck(orders, payments, uid, req, active).value.0
              && r.payments == payments && r.push.None?
    // at most one payment in progress per order: a new one is only made when none is active
    ensures r.push.Some? ==> forall id :: id in payments ==> !(payments[id].orderId == req.orderId && Active(payments[id]))
    // the push charges the item subtotal, without delivery fee or discount, to the normalised phone
    ensures r.push.Some? ==>
              r.push.value == PushRequest(FormatPhone(req.phoneNumber), OrderSchema.Subtotal(orders[req.orderId].items),
                                          "ORDER_" + req.orderId)
    // a thrown push saves nothing
    ensures stk.PushThrew? ==> r.payments == payments
    ensures r.code == 200 <==> InitiateCheck(orders, payments, uid, req, active).None? && stk.PushReturned?
    ensures r.code == 200 ==>
              newId in r.payments && r.payments == payments[newId := r.payments[newId]]
              && StartedFor(r.payments[newId], uid, req, OrderSchema.Subtotal(orders[req.orderId].items), stk.result)
  {
    match InitiateCheck(orders, payments, uid, req, active)
    case Some(fail) => InitiateResult(fail.0, fail.1, payments, None)
    case None =>
      PassedCheck(orders, payments, uid, req, active);
      var phone := FormatPhone(req.phoneNumber);
      var amount := OrderSchema.Subtotal(orders[req.orderId].items);
      var push := Some(PushRequest(phone, amount, "ORDER_" + req.orderId));
      match stk
      case PushThrew(msg) => InitiateResult(500, msg, payments, push)
      case PushReturned(res) =>
        InitiateResult(200, "STK push sent successfully",
                       payments[newId := StartedPayment(newId, uid, req, amount, res, now)], push)
  }

  /** The document `Payment.create` saves for a push the gateway accepted. */
  function StartedPayment(newId: Id, uid: Id, req: InitiateRequest, amount: real,
                          res: MpesaService.PushResult, now: int): (p: Payment)
    ensures StartedFor(p, uid, req, amount, res)
  {
    var p := NewPayment(newId, req.orderId, uid, amount, "mpesa", Some(Pending), now);
    var details := NoMpesaDetails.(phoneNumber := Some(FormatPhone(req.phoneNumber)),
                                   checkoutRequestId := Some(res.checkoutRequestId),
                                   merchantRequestId := Some(res.merchantRequestId));
    Save(p.(mpesaDetails := details), now)
  }

  // ---------------------------------------------------------------- checkPaymentStatus

  datatype Outcome = Outcome(code: int, message: string, payments: map<Id, Payment>)

  /** Only a pending payment that has a (non-empty) checkout id is polled. */
  predicate Polled(p: Payment) {
    p.status == Pending && p.mpesaDetails.checkoutRequestId.Some? && p.mpesaDetails.checkoutRequestId.value != ""
  }

  /** The payment after a poll answer: "0" completes, "1032" cancels, any other code only re-saves. */
  function ApplyPoll(p: Payment, res: MpesaService.QueryResult, now: int): (q: Payment)
    ensures res.resultCode == Str("0") ==> q.status == Completed
    ensures res.resultCode == Str("1032") ==> q.status == Cancelled
    ensures res.resultCode !in {Str("0"), Str("1032")} ==> q == p.(updatedAt := now)
    ensures res.resultCode in {Str("0"), Str("1032")} ==>
              q.mpesaDetails == p.mpesaDetails.(resultCode := CastString(res.resultCode),
                                                resultDesc := CastString(res.resultDesc))
    ensures q.(status := p.status, mpesaDetails := p.mpesaDetails, updatedAt := p.updatedAt) == p
  {
    var d := p.mpesaDetails.(resultCode := CastString(res.resultCode), resultDesc := CastString(res.resultDesc));
    if res.resultCode == Str("0") then Save(p.(status := Completed, mpesaDetails := d), now)
    else if res.resultCode == Str("1032") then Save(p.(status := Cancelled, mpesaDetails := d), now)
    else Save(p, now)
  }

  /** `checkPaymentStatus`; `poll` is what the gateway query produced, and a thrown query is swallowed. */
  function CheckPaymentStatus(payments: map<Id, Payment>, paymentId: Id, uid: Id,
                              poll: MpesaService.QueryOutcome, now: int): (r: Outcome)
    ensures paymentId !in payments ==> r == Outcome(404, "Payment not found", payments)
    ensures paymentId in payments && payments[paymentId].userId != uid ==>
              r == Outcome(403, "You can only check your own payments", payments)
    ensures paymentId in payments && payments[paymentId].userId == uid ==> r.code == 200
    ensures r.code == 200 && (!Polled(payments[paymentId]) || poll.QueryThrew?) ==> r.payments == payments
    ensures r.code == 200 && Polled(payments[paymentId]) && poll.QueryReturned? ==>
              r.payments == payments[paymentId := ApplyPoll(payments[paymentId], poll.result, now)]
  {
    if paymentId !in payments then Outcome(404, "Payment not found", payments)
    else if payments[paymentId].userId != uid then Outcome(403, "You can only check your own payments", payments)
    else if !Polled(payments[paymentId]) then Outcome(200, "", payments)
    else match poll
      case QueryThrew(_) => Outcome(200, "", payments)
      case QueryReturned(res) => Outcome(200, "", payments[paymentId := ApplyPoll(payments[paymentId], res, now)])
  }

  /** A payment that is no longer pending is never changed by polling. */
  lemma SettledPaymentNotPolled(payments: map<Id, Payment>, paymentId: Id, uid: Id,
                                poll: MpesaService.QueryOutcome, now: int)
    requires paymentId in payments && payments[paymentId].status != Pending
    ensures CheckPaymentStatus(payments, paymentId, uid, poll, now).payments == payments
  {
  }

  // ---------------------------------------------------------------- mpesaCallback

  /** `Payment.findOne({'mpesaDetails.checkoutRequestId': id})`. */
  predicate FindsByCheckout(payments: map<Id, Payment>, checkoutId: string, found: Option<Id>) {
    match found
    case None => forall id :: id in payments ==> payments[id].mpesaDetails.checkoutRequestId != Some(checkoutId)
    case Some(id) => id in payments && payments[id].mpesaDetails.checkoutRequestId == Some(checkoutId)
  }

  datatype CallbackResult = CallbackResult(code: int, message: string, payments: map<Id, Payment>,
                                           orders: map<Id, OrderSchema.Order>)

  /** The result-code test written in the handler: strict equality with the string "0". */
  predicate AsWrittenSuccess(code: JsVal) {
    code == Str("0")
  }

  /** The test the gateway's numeric code needs: 0 as a number or as a string. */
  predicate IsSuccessCode(code: JsVal): (b: bool)
    // it accepts every code the handler's test accepts, and besides those only the number 0
    ensures AsWrittenSuccess(code) ==> b
    ensures b && !AsWrittenSuccess(code) ==> code == Num(0)
  {
    code == Num(0) || code == Str("0")
  }

  /**
   * The callback's writes once the payment is found; `succeeded` is the handler's verdict on the code.
   * A transaction date that does not cast to a Date is not set on the document; its save then rejects.
   */
  function ApplyPaymentCallback(p: Payment, orders: map<Id, OrderSchema.Order>,
                                c: MpesaService.ProcessedCallback, succeeded: bool, now: int)
    : (r: (Payment, map<Id, OrderSchema.Order>))
    ensures r.0.status == (if succeeded then Completed else Failed)
    ensures r.0.mpesaDetails.resultCode == CastString(c.resultCode)
    ensures r.0.mpesaDetails.transactionId == CastString(c.transactionId)
    ensures CastDate(c.transactionDate).Some? ==>
              r.0.mpesaDetails.transactionDate == CastDate(c.transactionDate).value
    ensures r.0.mpesaDetails == p.mpesaDetails.(resultCode := CastString(c.resultCode),
                                                resultDesc := CastString(c.resultDesc),
                                                transactionId := CastString(c.transactionId),
                                                transactionDate := r.0.mpesaDetails.transactionDate)
    ensures CastDate(c.transactionDate).None? ==>
              r.0.mpesaDetails.transactionDate == p.mpesaDetails.transactionDate
    ensures r.0.updatedAt == now
    ensures r.0.(status := p.status, mpesaDetails := p.mpesaDetails, updatedAt := p.updatedAt) == p
    ensures succeeded && p.orderId in orders ==>
              r.1 == orders[p.orderId := orders[p.orderId].(paymentStatus := OrderSchema.PayCompleted)]
    ensures !succeeded || p.orderId !in orders ==> r.1 == orders
  {
    var d := p.mpesaDetails.(resultCode := CastString(c.resultCode), resultDesc := CastString(c.resultDesc),
                             transactionId := CastString(c.transactionId),
                             transactionDate := CastDate(c.transactionDate).GetOr(p.mpesaDetails.transactionDate));
    if succeeded then
      // findByIdAndUpdate runs no save hook, so the order's updatedAt stays
      var orders' := if p.orderId in orders
                     then orders[p.orderId := orders[p.orderId].(paymentStatus := OrderSchema.PayCompleted)]
                     else orders;
      (Save(p.(mpesaDetails := d, status := Completed), now), orders')
    else (Save(p.(mpesaDetails := d, status := Failed), now), orders)
  }

  /** `mpesaCallback` with a given verdict on the result code. */
  function CallbackWith(payments: map<Id, Payment>, orders: map<Id, OrderSchema.Order>,
                        data: MpesaService.CallbackData, found: Option<Id>, now: int,
                        asWritten: bool): (r: CallbackResult)
    requires MpesaService.Processed(data).Some? ==>
               FindsByCheckout(payments, MpesaService.Processed(data).value.checkoutRequestId, found)
    ensures MpesaService.Processed(data).Some? && found.Some? ==>
              var c := MpesaService.Processed(data).value;
              var succeeded := if asWritten then AsWrittenSuccess(c.resultCode) else IsSuccessCode(c.resultCode);
              var w := ApplyPaymentCallback(payments[found.value], orders, c, succeeded, now);
              r.orders == w.1
              && (CastDate(c.transactionDate).Some? ==>
                    r.code == 200 && r.payments == payments[found.value := w.0])
              && (CastDate(c.transactionDate).None? ==>
                    r.code == 500 && r.message == "Callback processing failed" && r.payments == payments)
  {
    match MpesaService.Processed(data)
    case None => CallbackResult(500, "Callback processing failed", payments, orders)
    case Some(c) =>
      match found
      case None => CallbackResult(404, "Payment not found", payments, orders)
      case Some(id) =>
        var succeeded := if asWritten then AsWrittenSuccess(c.resultCode) else IsSuccessCode(c.resultCode);
        var w := ApplyPaymentCallback(payments[id], orders, c, succeeded, now);
        // the order is updated before `payment.save()`, which rejects a date that did not cast
        if CastDate(c.transactionDate).None? then CallbackResult(500, "Callback processing failed", payments, w.1)
        else CallbackResult(200, "Callback processed successfully", payments[id := w.0], w.1)
  }

  /** `mpesaCallback` as written. */
  function MpesaCallback(payments: map<Id, Payment>, orders: map<Id, OrderSchema.Order>,
                         data: MpesaService.CallbackData, found: Option<Id>, now: int): (r: CallbackResult)
    requires MpesaService.Processed(data).Some? ==>
               FindsByCheckout(payments, MpesaService.Processed(data).value.checkoutRequestId, found)
    ensures MpesaService.Processed(data).None? ==> r == CallbackResult(500, "Callback processing failed", payments, orders)
    ensures MpesaService.Processed(data).Some? && found.None? ==> r == CallbackResult(404, "Payment not found", payments, orders)
    ensures r.code != 200 ==> r.payments == payments
    ensures r.code == 200 ==> MpesaService.Processed(data).Some? && found.Some? && found.value in payments
    // once the payment is found the order is written first; a date that does not cast then fails the save
    ensures MpesaService.Processed(data).Some? && found.Some? ==>
              var c := MpesaService.Processed(data).value;
              (r.code == 200 <==> CastDate(c.transactionDate).Some?)
              && (r.code != 200 ==> r.code == 500 && r.message == "Callback processing failed")
              && r.orders.Keys == orders.Keys
              && (c.resultCode == Str("0") && payments[found.value].orderId in orders ==>
                    r.orders[payments[found.value].orderId].paymentStatus == OrderSchema.PayCompleted)
              && (c.resultCode != Str("0") ==> r.orders == orders)
              && (forall k :: k in orders && (c.resultCode != Str("0") || k != payments[found.value].orderId) ==>
                    r.orders[k] == orders[k])
    ensures r.code == 200 && MpesaService.Processed(data).Some? && found.Some? ==>
              var c := MpesaService.Processed(data).value;
              r.payments.Keys == payments.Keys
              && (forall k :: k in payments && k != found.value ==> r.payments[k] == payments[k])
              && r.payments[found.value].status == (if c.resultCode == Str("0") then Completed else Failed)
              && var w := ApplyPaymentCallback(payments[found.value], orders, c, c.resultCode == Str("0"), now);
                 r.payments == payments[found.value := w.0] && r.orders == w.1
  {
    CallbackWith(payments, orders, data, found, now, true)
  }

  /** The gateway reports success in a callback as the number 0; the handler as written marks that payment failed. */
  lemma NumericZeroMarkedFailed(payments: map<Id, Payment>, orders: map<Id, OrderSchema.Order>,
                                data: MpesaService.CallbackData, id: Id, now: int)
    requires MpesaService.Processed(data).Some? && MpesaService.Processed(data).value.resultCode == Num(0)
    requires FindsByCheckout(payments, MpesaService.Processed(data).value.checkoutRequestId, Some(id))
    requires CastDate(MpesaService.Processed(data).value.transactionDate).Some?
    ensures MpesaCallback(payments, orders, data, Some(id), now).payments[id].status == Failed
    ensures MpesaCallback(payments, orders, data, Some(id), now).orders == orders
    // while the stored code reads "0", the same text as a success
    ensures MpesaCallback(payments, orders, data, Some(id), now).payments[id].mpesaDetails.resultCode == Some("0")
  {
    NumberAndStringZeroCastAlike();
  }

  /** `mpesaCallback` with the success test the gateway's codes need. */
  function MpesaCallbackCorrected(payments: map<Id, Payment>, orders: map<Id, OrderSchema.Order>,
                                  data: MpesaService.CallbackData, found: Option<Id>, now: int): (r: CallbackResult)
    requires MpesaService.Processed(data).Some? ==>
               FindsByCheckout(payments, MpesaService.Processed(data).value.checkoutRequestId, found)
    ensures r.code == 200 ==> MpesaService.Processed(data).Some? && found.Some? && found.value in payments
    ensures r.code == 200 && MpesaService.Processed(data).Some? && found.Some? && found.value in payments ==>
              var c := MpesaService.Processed(data).value;
              found.value in r.payments
              && (r.payments[found.value].status == Completed <==> CastString(c.resultCode) == Some("0"))
  {
    CallbackWith(payments, orders, data, found, now, false)
  }

  /** A success test that reads the stored text agrees on every code Mongoose would store as "0". */
  lemma IsSuccessCodeMeansStoredZero(code: JsVal)
    ensures IsSuccessCode(code) <==> CastString(code) == Some("0")
  {
    NumberAndStringZeroCastAlike();
    if code.Num? && CastString(code) == Some("0") {
      // two numbers with the same decimal text are equal
      ParseIntOfIntToString(code.n);
      ParseIntOfIntToString(0);
    }
  }
}
