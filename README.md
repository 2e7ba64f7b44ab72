# cafe-backend: order, payment, cart and loyalty bookkeeping in Dafny

This project models the bookkeeping core of the cafe-backend Express/Mongoose
service. That core covers:

- placing an order from a cart: validation, the server-side total and the M-Pesa branch;
- moving an order through its statuses, and cancelling and rating it;
- reconciling M-Pesa payments, by polling and by the Safaricom callback;
- the M-Pesa gateway client: token cache, STK password and timestamp, payloads, callback flattening;
- the shopping cart with its merge-by-menu-item rule, promo codes and delivery fee;
- the loyalty ledger of points, transactions and tiers, and the reward catalogue;
- the small decision functions around these: the Bearer-token gate, the admin gates,
  listing filters and pagination, and the choice of push notification.

How each part is modelled:

- **Stores.** Every MongoDB collection is a `map<Id, Record>`.
- **Lookups.** A `findOne` on a field is a `found` argument, which a predicate ties to the store.
  Examples are `FindsByCheckout`, `FindsActive` and `FindsByFirebaseUid`. `found` is `None`
  exactly when no record matches.
- **Handlers.** A handler is a function from the stores and the request to a response
  code and the new stores.
- **Documents updated in place.** Cart and Loyalty, whose methods update fields in place, are
  classes. Each method is proved against specification functions on a state value
  (`CartState`, `LoyaltyState`). The handlers that use these documents are methods over the
  found object.
- **The gateway client.** `MpesaClient` is a class whose token cache fields change.
- **External inputs are parameters.** This covers the gateway's HTTP replies (`HttpReply`,
  `PushOutcome`, `QueryOutcome`, `StkAnswer`), Firebase's `verifyIdToken` (a function
  `verify`), the id a new document receives (`newId`) and the clock (`now`, or an ISO clock
  reading).
- **Numbers.** Money is an exact `real`. `Math.floor`, `Math.round` and `Math.ceil` are
  `JsFloor`, `JsRound` and `JsCeil`. `parseInt` is `ParseInt`, which returns `None` for `NaN`.
- **Loose JSON fields.** Loosely typed fields such as `ResultCode` or `Amount` are `JsVal`,
  so that the number `0` and the string `"0"` stay apart.

In a few places the code does less than, or something other than, what one would expect from
the service's design. The model follows the code there:

- `createOrder` checks only that an M-Pesa phone number is present, not its format.
- The order callback (`handleMpesaCallback`) sets the order's payment status to `'paid'` and
  its status to `'pending'`, not "completed", and `'paid'` is not in the schema's enum.
- `initiateMpesaPayment` charges the item subtotal, without delivery fee or discount.
  `createOrder` charges the full total.
- Replaying a callback changes nothing but `updatedAt`. A later callback with a different
  code overwrites the earlier outcome, because no guard checks whether it was already processed.

## Model

| member | source | states |
|---|---|---|
| OrderSchema.ParseStatus | src/models/Order.js:51-55 | the status read from a string names that string; it is `Other` exactly when the string is none of the statuses the code uses |
| OrderSchema.ParseStatusName | src/models/Order.js:51-55 | reading a status's name gives the status back (the two conversions are inverse on canonical statuses) |
| OrderSchema.NewOrder | src/models/Order.js:16-60 | a new order keeps the given owner, items, total, serviceType, deliveryAddress, paymentMethod and promoCode; a given deliveryFee, discountApplied or orderStatus is kept, and a missing one defaults to 0, 0 and pending; paymentStatus is pending, both timestamps are now, and no gateway fields are set |
| OrderSchema.Save | src/models/Order.js:63-66 | saving stamps updatedAt with now and changes no other field |
| OrderSchema.SubtotalAppend | src/controllers/order.controller.js:46 | Σ price × quantity splits over concatenation, so the left `reduce` and the right fold agree |
| OrderSchema.SchemaExcludesHandlerStatuses | src/models/Order.js:46-55 | no document the schema admits has orderStatus pending_payment or completed, or paymentStatus paid |
| OrderSchema.ZeroPriceItemIsSchemaValid | src/models/Order.js:4-14 | the line-item schema admits a price of 0 |
| PaymentSchema.NewPayment | src/models/Payment.js:3-53 | a new payment keeps order, user, amount and method; currency is KES, status defaults to pending, details are empty, timestamps are now |
| PaymentSchema.Save | src/models/Payment.js:55-58 | saving stamps updatedAt and changes nothing else |
| OrderController.FirstItemError | src/controllers/order.controller.js:30-43 | no error exactly when every item has a truthy id, name, price and quantity ≥ 1; otherwise the error of the first rejected item, all earlier items being accepted |
| OrderController.CreateCheck | src/controllers/order.controller.js:10-76 | no error exactly when the user is stored, the items are a non-empty list of accepted items, a delivery has a street, the method is mpesa, card or cash, and an M-Pesa request has a phone; errors are 404 for the user, else 400 |
| OrderController.DeliveryFeeFor | src/controllers/order.controller.js:47 | the fee is 200 exactly for service type 'delivery', else 0 |
| OrderController.OrderForPlaced | src/controllers/order.controller.js:46-49 | for an accepted request the built order has the server-side total subtotal + fee − 0, the address only for delivery, and the requested status |
| OrderController.OrderFor | src/controllers/order.controller.js:46-91 | the built document has the new id, the given status and timestamps, no M-Pesa fields, and the server-side total subtotal + fee − discount; over accepted request items it satisfies PlacedFrom |
| OrderController.CreateOrder | src/controllers/order.controller.js:8-158 | the first failing check is reported and the store is left as it was; an accepted card or cash request always answers 201, an accepted M-Pesa request exactly when the push returned success with a data part; a 201 adds exactly one new document satisfying PlacedFrom, pending for card/cash and pending_payment with the gateway's checkout and merchant ids for M-Pesa; a 500 leaves the saved pending_payment document in the store; the push is sent exactly for accepted M-Pesa requests, for subtotal + fee; a push reported as failed removes the order again |
| OrderController.ItemsCheckedFirst | src/controllers/order.controller.js:22-65 | a bad item is reported before any address, payment-method or phone problem |
| OrderController.ZeroPriceRejected | src/controllers/order.controller.js:31-36 | an item with price 0 is answered 400 although the schema admits it |
| OrderController.SampleDeliveryTotal | src/controllers/order.controller.js:46-49 | 3.5 × 1 + 4.5 × 2 with delivery is created with total 212.5 |
| OrderController.PendingPaymentOrderNotSchemaValid | src/controllers/order.controller.js:79-94 | the first M-Pesa document, in pending_payment, is outside the orderStatus enum |
| OrderController.AsWrittenAnswer | src/controllers/order.controller.js:97-117 | what the controller reads from the service as written: a throw, or a reply with success true and no `data` |
| OrderController.AsWrittenStrandsMpesaOrder | src/controllers/order.controller.js:97-117 | in a store that admits 'pending_payment' (save-time enum validation not applied), with the service as written an accepted M-Pesa order ends in 500 and stays in pending_payment with no checkout id |
| OrderController.AdaptedAnswer | src/controllers/order.controller.js:97-117 | the adapted reply reports success exactly when the push returned, with its checkout and merchant ids under `data` |
| OrderController.AdaptedNeverStrands | src/controllers/order.controller.js:97-117 | through the adapter an M-Pesa order is either created (201) with the gateway's checkout id or not kept at all (400, store unchanged) |
| OrderController.UpdateOrderStatus | src/controllers/order.controller.js:209-224 | 404 for an unknown order before the role check; 403 unless admin or staff; otherwise only that order changes, to the new status and updatedAt now |
| OrderController.UpdateOrderStatusAnyTransition | src/controllers/order.controller.js:223 | no transition table: a cancelled order can be set back to pending |
| OrderController.CancelOrder | src/controllers/order.controller.js:252-276 | 200 exactly for an existing order, a stored caller who is owner or admin, and status neither completed nor cancelled; then only orderStatus and updatedAt change; each failure has its own code and leaves the store |
| OrderController.DeliveredCanBeCancelled | src/controllers/order.controller.js:271-275 | a delivered order can still be cancelled by its owner |
| OrderController.RateOrder | src/controllers/order.controller.js:287-309 | 200 exactly for owner or admin on a completed order, copying rating and review unchecked; a caller without a stored user gets 500; failures change nothing |
| OrderController.SchemaValidOrderNeverRated | src/controllers/order.controller.js:303 | no order the schema admits can be rated |
| OrderController.SchemaValidCancelGuard | src/controllers/order.controller.js:271 | for a schema-valid order the cancel guard fires only on cancelled |
| OrderController.ApplyCallback | src/controllers/order.controller.js:728-757 | the number 0 gives pending/paid and stores the receipt, date, amount and phone read from the flattened metadata; any other code gives cancelled/failed and stores code and description; nothing else of the order changes, and updatedAt is now |
| OrderController.HandleMpesaCallback | src/controllers/order.controller.js:703-769 | a malformed body gives 500 and an unknown checkout id 404, both leaving the store; otherwise the found order, and only it, becomes ApplyCallback of itself, keeping its checkout id |
| OrderController.CallbackCopiesMetadata | src/controllers/order.controller.js:728-743 | a successful callback stores as receipt, date, amount and phone the value of the last metadata item of each of those names |
| OrderController.CallbackKeepsLookup | src/controllers/order.controller.js:721-759 | the checkout-id lookup answers the same after a callback |
| OrderController.CallbackReplay | src/controllers/order.controller.js:736-759 | a replayed callback leaves the state a single delivery at the later time leaves |
| OrderController.LaterCallbackOverwrites | src/controllers/order.controller.js:736-757 | a failure callback after a payment overwrites it with cancelled/failed |
| OrderController.StringZeroIsFailureHere | src/controllers/order.controller.js:736 | the string "0" counts as a failure in this handler |
| OrderCartHandlers.PushedLine | src/controllers/order.controller.js:527-533 | a new line carries the menu item's id, name and price and the requested quantity, no image, and the instructions when given, else "" |
| OrderCartHandlers.Placed | src/controllers/order.controller.js:515-534 | the list grows by at most one line, which is then the new line at the end; lines of other menu items are untouched |
| OrderCartHandlers.Edited | src/controllers/order.controller.js:639-644 | only the given quantity and instructions are written; id, name, price and image stay |
| OrderCartHandlers.AddToCart | src/controllers/order.controller.js:474-536 | 400 exactly for a missing id, quantity below 1 or an unavailable item; 404 exactly for an unknown item; failures touch no cart; otherwise the line is merged by menu item id into the found or a new cart and the stored total is left as it was |
| OrderCartHandlers.RemoveFromCart | src/controllers/order.controller.js:559-584 | 400 for a missing id, 404 without a cart; otherwise the lines of that item are filtered out and only items and updatedAt change |
| OrderCartHandlers.UpdateCartItem | src/controllers/order.controller.js:600-646 | the code is 400, 404 or 200; 400 for a missing id or quantity below 1; 404 exactly when there is no cart or no such line; a valid edit of a line the cart holds always answers 200; then only that line is edited, and the total is left as it was |
| OrderCartHandlers.ClearCart | src/controllers/order.controller.js:667-687 | 404 for an unknown user or no cart; otherwise only the items are emptied, with fee, discount and total kept |
| OrderCartHandlers.SameMergeRule | src/controllers/order.controller.js:515-534 | the list these handlers build differs from the cart model's addItem list at most in the instructions |
| OrderCartHandlers.PlacedTotal | src/controllers/order.controller.js:515-534 | that list's items total grows by the added quantity at the price of the line it lands on |
| OrderCartHandlers.AddLeavesTotalStale | src/controllers/order.controller.js:519-536 | after adding a priced item the stored total no longer matches the items |
| OrderCartHandlers.ClearLeavesTotalStale | src/controllers/order.controller.js:686-687 | after clearing a non-empty cart the stored total no longer matches |
| PaymentController.ValidPhoneParts | src/controllers/payment.controller.js:20 | each of the prefixes "", +254, 254, 0 followed by 1 or 7 and eight digits passes the pattern |
| PaymentController.ValidKenyanPhone | src/controllers/payment.controller.js:20-26 | an accepted number has 9 to 13 characters and ends in nine digits starting with 1 or 7 |
| PaymentController.FormatPhone | src/controllers/payment.controller.js:29 | a leading +254, 254 or 0 becomes 254 (so a 254 number is kept), and a number without one is kept as is |
| PaymentController.FormatParts | src/controllers/payment.controller.js:29 | normalising replaces any of the three prefixes with 254 and leaves a bare number alone |
| PaymentController.FormatValidPhone | src/controllers/payment.controller.js:20-29 | a valid number normalises to 254 plus its subscriber number (a bare 9-digit one is kept as is), and the result is still valid |
| PaymentController.FormatPhoneIdempotent | src/controllers/payment.controller.js:29 | normalising a valid number twice equals normalising it once |
| PaymentController.SampleLocalPhone | src/controllers/payment.controller.js:19-29 | 0712345678 is valid and becomes 254712345678 |
| PaymentController.SampleBarePhone | src/controllers/payment.controller.js:20-29 | 712345678 is valid and keeps no country code |
| PaymentController.InvalidSamplePhone | src/controllers/payment.controller.js:20-26 | 0812345678 is rejected |
| PaymentController.InitiateCheck | src/controllers/payment.controller.js:12-66 | no error exactly when both fields are given, the phone is valid, the order exists, belongs to the caller, is not paid and has no payment in progress; a missing field is 400, and every error is 400, 403 or 404 |
| PaymentController.InitiateMpesaPayment | src/controllers/payment.controller.js:6-102 | each guard's code, in order, with nothing saved; a push only when no payment for the order is active; the push charges the items subtotal to the normalised phone as ORDER_<id>; a thrown push saves nothing; 200 exactly when every guard passes and the push returned, adding one pending KES payment carrying the gateway's ids |
| PaymentController.StartedPayment | src/controllers/payment.controller.js:68-91 | the stored payment satisfies StartedFor: the order, user, amount, method mpesa, pending, the normalised phone and the gateway's checkout and merchant ids |
| PaymentController.ApplyPoll | src/controllers/payment.controller.js:141-152 | "0" completes and "1032" cancels, storing code and description; any other code only stamps updatedAt; nothing else changes |
| PaymentController.CheckPaymentStatus | src/controllers/payment.controller.js:114-168 | 404 for an unknown payment, 403 for another user's; otherwise 200, polling only a pending payment with a checkout id and swallowing a thrown query |
| PaymentController.SettledPaymentNotPolled | src/controllers/payment.controller.js:135 | a payment no longer pending is never changed by a status check |
| PaymentController.ApplyPaymentCallback | src/controllers/payment.controller.js:197-213 | the payment becomes completed or failed by the verdict, storing code, description and transaction id as strings and the transaction date as the Date cast gives it (kept as it was when the cast fails), with nothing else changed but updatedAt; only a success marks the order's paymentStatus completed, and no other order changes |
| PaymentController.IsSuccessCode | src/controllers/payment.controller.js:204 | the corrected test accepts every code the written test accepts and, besides those, only the number 0 |
| PaymentController.MpesaCallback | src/controllers/payment.controller.js:180-215 | 500 for a malformed body and 404 for an unknown checkout id, changing nothing; once the payment is found, a string "0" alone marks its order paid and every other order is unchanged, and the answer is 200 exactly when the transaction date casts to a Date; on 200 the found payment, and only it, becomes ApplyPaymentCallback of itself, completed exactly for the string "0"; on the cast failure the payments are unchanged though the order was already marked |
| PaymentController.CallbackWith | src/controllers/payment.controller.js:197-219 | with the payment found, the orders are the callback's order write and the answer is 200 with the payment replaced, or 500 with the payments unchanged when the date does not cast |
| PaymentController.NumericZeroMarkedFailed | src/controllers/payment.controller.js:204 | the gateway's numeric 0 marks the payment failed and leaves the order, while the stored code reads "0" |
| PaymentController.MpesaCallbackCorrected | src/controllers/payment.controller.js:204-211 | with the corrected test the payment is completed exactly when its stored code is "0" |
| PaymentController.IsSuccessCodeMeansStoredZero | src/controllers/payment.controller.js:204 | the corrected success test holds exactly for codes stored as "0" |
| MpesaService.EnvVar | src/services/mpesa.service.js:8-11 | a set variable's text, and undefined exactly when it is unset |
| MpesaService.EnvOr | src/services/mpesa.service.js:7-12 | the result is the variable's text or the default; a set, non-empty variable is used; the result is empty only if the default is |
| MpesaService.ConfigOf | src/services/mpesa.service.js:5-12 | the two URLs use a set, non-empty variable and otherwise their defaults, so they are never empty; each credential is the variable's text, undefined exactly when unset |
| MpesaService.OnlyUrlsFallBack | src/services/mpesa.service.js:7-12 | with no variables the URLs are the defaults and every credential is undefined; an empty URL variable falls back while an empty credential is kept |
| MpesaService.Interpolated | src/services/mpesa.service.js:46 | a template literal writes an undefined value as "undefined" |
| MpesaService.Timestamp | src/services/mpesa.service.js:45 | the timestamp is all digits |
| MpesaService.TimestampOfIsoString | src/services/mpesa.service.js:45 | for any clock reading the timestamp is exactly the 14 digits YYYYMMDDHHmmss |
| MpesaService.GeneratePassword | src/services/mpesa.service.js:44-48 | the password decodes (section 4 of RFC 4648) to the UTF-8 bytes of shortcode, passkey and timestamp, an unset credential written as "undefined" |
| MpesaService.PushPayload | src/services/mpesa.service.js:56-68 | Amount is the amount rounded to the nearest integer; PartyA and PhoneNumber are the phone; PartyB is the shortcode; password, timestamp, reference and callback as given |
| MpesaService.PushOutcomeOf | src/services/mpesa.service.js:70-92 | a failed request is the one generic error; a reply always has success true and carries the gateway's ids |
| MpesaService.QueryOutcomeOf | src/services/mpesa.service.js:108-129 | a failed request is the one generic error; a reply carries the gateway's result code and description |
| MpesaService.NextToken | src/services/mpesa.service.js:20-41 | a cached non-expired token is returned without fetching; otherwise a fetch caches the new token with expiry now + expires_in × 1000, and a failed fetch throws and leaves the cache |
| MpesaService.TokenReusedUntilExpiry | src/services/mpesa.service.js:21-34 | a fetched token is served from the cache until its expiry, whatever the network would answer |
| MpesaService.ExpiredTokenRefetched | src/services/mpesa.service.js:21-23 | at or after the expiry a new token is fetched |
| MpesaService.StkCallbackOf | src/services/mpesa.service.js:135-144 | the callback is read exactly when both Body and stkCallback are present |
| MpesaService.Flatten | src/services/mpesa.service.js:146-151 | every key of the flattened metadata comes from an item with that name and that value |
| MpesaService.FlattenKeys | src/services/mpesa.service.js:146-151 | a name is a key of the flattened metadata exactly when some item has it |
| MpesaService.FlattenLastWins | src/services/mpesa.service.js:146-151 | under a name the flattened metadata holds the last item's value |
| MpesaService.Processed | src/services/mpesa.service.js:133-165 | processing throws exactly on a missing level; the checkout id passes through; the receipt, date, amount and phone are each the value of the last metadata item with that name, or undefined when no item has it |
| MpesaService.FieldReadsAs | src/services/mpesa.service.js:146-160 | reading a name off the flattened items gives the last item's value with that name, or undefined |
| MpesaService.ProcessedFields | src/services/mpesa.service.js:133-165 | processing fails exactly on a missing level; checkout id, code and description pass through; without metadata every transaction field is undefined |
| MpesaService.MpesaClient.constructor | src/services/mpesa.service.js:5-17 | a new client's configuration is ConfigOf the environment and it has no cached token |
| MpesaService.MpesaClient.GetAccessToken | src/services/mpesa.service.js:20-41 | the token and the new cache are those of NextToken |
| MpesaService.MpesaClient.InitiateStkPush | src/services/mpesa.service.js:51-93 | a token failure becomes the generic error and nothing is sent; otherwise the payload of PushPayload is sent and the outcome is PushOutcomeOf |
| MpesaService.MpesaClient.CheckPaymentStatus | src/services/mpesa.service.js:96-130 | a token failure is the generic error; otherwise the query carries the checkout id, shortcode and timestamp and the outcome is QueryOutcomeOf |
| MpesaService.MpesaClient.ProcessCallback | src/services/mpesa.service.js:133-166 | the destructuring and the copy of the items yield the processed callback |
| MpesaService.MpesaClient.CopyMetadata | src/services/mpesa.service.js:146-151 | the loop over the items builds the flattened object, each item writing its value under its name in order |
| MpesaService.ProcessedReadsFlattened | src/services/mpesa.service.js:133-160 | a callback that destructures is processed by reading the four names off its flattened metadata |
| Base64.Encode | src/services/mpesa.service.js:46 | the encoding has 4 characters per started 3-byte group |
| Base64.IndexOfCharOf | src/services/mpesa.service.js:46 | each alphabet character decodes to its own sextet |
| Base64.DecodeEncode | src/services/mpesa.service.js:46 | decoding an encoding gives back the bytes |
| Base64.Utf8 | src/services/mpesa.service.js:46 | the UTF-8 bytes are at least as many as the characters |
| Base64.Utf8Ascii | src/services/mpesa.service.js:46 | on ASCII text there is one byte per character, its code |
| Text.DigitsOnly | src/services/mpesa.service.js:45 | stripping non-digits leaves only digits, never more characters |
| Text.DigitsOnlyAppend | src/services/mpesa.service.js:45 | stripping distributes over concatenation |
| Text.Split | src/middlewares/auth.middleware.js:11 | at least one piece, none containing the separator |
| Text.JoinSplit | src/middlewares/auth.middleware.js:11 | joining the pieces gives back the string |
| Text.ParseInt | src/controllers/menu.controller.js:34 | a plain run of decimal digits reads as the number it writes; only a leading minus sign gives a negative number |
| Text.LowerChar | src/models/MenuItem.js:23 | the result is never a capital; A-Z move to a-z and every other character stays |
| Text.ToLower | src/models/MenuItem.js:23 | same length, each character lowered in place |
| Text.ToLowerIdempotent | src/models/MenuItem.js:23 | lowering twice is lowering once, and text without capitals is unchanged |
| Text.ParseIntOfIntToString | src/controllers/menu.controller.js:34 | parseInt of a written integer gives that integer back |
| JsValues.CastString | src/models/Payment.js:36 | a string is stored as is, a number as its decimal text, a boolean as "true" or "false", and nothing is stored only for undefined or null |
| JsValues.NumberAndStringZeroCastAlike | src/controllers/payment.controller.js:204 | the number 0 and the string "0" differ but store as the same text |
| JsValues.CastDate | src/models/Payment.js:39 | undefined, null and "" store no date; a number is milliseconds, a cast error outside ±8.64e15; a boolean is a cast error; a digit string of at least 275761 is milliseconds; any other string goes to the date parser |
| JsValues.JsRound | src/services/mpesa.service.js:61 | the nearest integer, halves rounded up |
| JsValues.JsFloor | src/models/Loyalty.js:132 | the greatest integer not above the value |
| JsValues.JsCeil | src/controllers/menu.controller.js:49 | the least integer not below the value |
| CartModel.Recalculated | src/models/Cart.js:66-70 | only the total changes, and afterwards it follows items, fee and discount; an up-to-date cart is unchanged |
| CartModel.Cart.CalculateTotal | src/models/Cart.js:66-70 | the loop stores and returns Σ price × quantity + fee − discount, changing nothing else |
| CartModel.ItemsTotalAppend | src/models/Cart.js:67 | the items total splits over concatenation |
| CartModel.ItemsTotalUpdate | src/models/Cart.js:67 | replacing a line changes the total by the difference of the two line totals |
| CartModel.IndexOf | src/models/Cart.js:74-76 | -1 exactly when no line has the id; otherwise the first line with it |
| CartModel.Cart.FindIndex | src/models/Cart.js:74-76 | the search loop finds IndexOf |
| CartModel.Cart.AddItem | src/models/Cart.js:73-86 | the items become the merge of the item into them, the total follows, and nothing else changes |
| CartModel.Merged | src/models/Cart.js:73-86 | the list grows by at most one line, and the lines of other menu items stay where they were |
| CartModel.MergedShape | src/models/Cart.js:73-86 | the list grows by one only for a new menu item; the item is then present and other items' lines are untouched |
| CartModel.MergedUnique | src/models/Cart.js:73-86 | merging keeps one line per menu item |
| CartModel.MergedTotal | src/models/Cart.js:78-84 | merging raises the items total by the added quantity at the price of the line it lands on |
| CartModel.AppendTotal | src/models/Cart.js:81 | appending a line adds its cost |
| CartModel.BumpTotal | src/models/Cart.js:79 | raising a line's quantity adds that many times its price |
| CartModel.Cart.RemoveItem | src/models/Cart.js:89-95 | the filter loop leaves the lines for other items, the total follows, and nothing else changes |
| CartModel.Without | src/models/Cart.js:89-95 | the list does not grow and holds no line for the removed id |
| CartModel.WithoutMembers | src/models/Cart.js:90-92 | removal keeps exactly the lines for other items |
| CartModel.WithoutAbsent | src/models/Cart.js:90-92 | without such a line removal changes nothing |
| CartModel.WithoutAppend | src/models/Cart.js:90-92 | removal distributes over concatenation, so the remaining lines keep their order |
| CartModel.WithoutTotal | src/models/Cart.js:89-95 | removing the one line of an item lowers the items total by that line's total |
| CartModel.Cart.UpdateItemQuantity | src/models/Cart.js:98-113 | an unknown id changes nothing; quantity ≤ 0 removes the item; otherwise only that line's quantity is set; the total follows |
| CartModel.Cart.ClearCart | src/models/Cart.js:116-123 | no items, total, fee and discount 0, no promo code; owner and updatedAt kept |
| CartModel.Cart.Save | src/models/Cart.js:60-63 | saving stamps updatedAt and nothing else |
| CartModel.Cart.constructor | src/models/Cart.js:27-57 | a new cart for the user is empty with every amount 0 and no promo code |
| CartController.GetCart | src/controllers/cart.controller.js:6-14 | the found cart, or a new saved empty one for the user |
| CartController.LineFor | src/controllers/cart.controller.js:47-54 | the line copies the menu item's id, name, price and image, with the requested quantity or 1 |
| CartController.AfterAdd | src/controllers/cart.controller.js:47-57 | the saved cart has the merged items and an up-to-date total, and nothing else changes but updatedAt |
| CartController.AddToCart | src/controllers/cart.controller.js:26-57 | an unknown menu item is 404 and no cart is created or touched; otherwise the found or a new cart becomes AfterAdd of the line copied from the menu item |
| CartController.AddNewLine | src/controllers/cart.controller.js:47-57 | a new item is appended as one line with the menu item's id, name, price, image and quantity (1 by default), and the total grows by its cost |
| CartController.AddExistingLine | src/controllers/cart.controller.js:47-57 | an item already present raises that line's quantity, keeps one line per item, and raises the total by the added cost |
| CartController.UpdateCartItem | src/controllers/cart.controller.js:70-84 | 404 without a cart; otherwise the cart model's update, with the total recomputed and updatedAt now |
| CartController.RemoveFromCart | src/controllers/cart.controller.js:97-111 | 404 without a cart; otherwise the item's lines are removed and the total recomputed |
| CartController.ClearCart | src/controllers/cart.controller.js:124-137 | 404 without a cart; otherwise the cart is empty with every amount 0 |
| CartController.PromoDiscount | src/controllers/cart.controller.js:164-174 | only SAVE10 and SAVE5 are accepted; SAVE10 is a tenth of the stored total, SAVE5 is 5 |
| CartController.AfterPromo | src/controllers/cart.controller.js:164-179 | an accepted code is stored with its discount, items and fee kept and the total recomputed |
| CartController.ApplyPromoCode | src/controllers/cart.controller.js:150-179 | 404 without a cart, 400 and no change for an unknown code, otherwise AfterPromo |
| CartController.Save10Reapplied | src/controllers/cart.controller.js:165-166 | applying SAVE10 twice gives 0.91 of the undiscounted total, not 0.9 |
| CartController.Save5Idempotent | src/controllers/cart.controller.js:167-168 | applying SAVE5 again leaves the cart as it was |
| CartController.AfterDeliveryFee | src/controllers/cart.controller.js:205-207 | the fee is stored, the total follows it, and nothing else changes but updatedAt |
| CartController.UpdateDeliveryFee | src/controllers/cart.controller.js:192-207 | 404 without a cart, otherwise AfterDeliveryFee |
| LoyaltyModel.TierFor | src/models/Loyalty.js:91-102 | platinum from 1000, gold from 500, silver from 200, bronze below, each exactly on its range |
| LoyaltyModel.TierMonotone | src/models/Loyalty.js:91-102 | spending more never lowers the tier |
| LoyaltyModel.Loyalty.CalculateTier | src/models/Loyalty.js:91-102 | stores and returns the tier of the total spent, nothing else changes |
| LoyaltyModel.PointsFromOrder | src/models/Loyalty.js:131-133 | the floor of the amount, never negative for a non-negative amount |
| LoyaltyModel.BalanceAppend | src/models/Loyalty.js:105-128 | the sum of a log splits over concatenation |
| LoyaltyModel.BalanceAtMostEarned | src/models/Loyalty.js:105-128 | when earned points are positive and the rest negative, the balance never exceeds what was earned |
| LoyaltyModel.Loyalty.constructor | src/models/Loyalty.js:51-82 | a new account has 0 points, bronze, nothing spent, an empty log, and the ledger invariant holds |
| LoyaltyModel.Loyalty.AddPoints | src/models/Loyalty.js:105-114 | points grow by exactly p and one earned transaction of p is logged; the ledger invariant is kept |
| LoyaltyModel.Loyalty.RedeemPoints | src/models/Loyalty.js:117-128 | with fewer than p points it fails and nothing changes; otherwise points drop by p and one redeemed transaction of −p is logged; the ledger invariant is kept |
| LoyaltyModel.Loyalty.UpdateSpending | src/models/Loyalty.js:136-140 | the amount is added to the total spent and the tier follows it |
| LoyaltyModel.Loyalty.Save | src/models/Loyalty.js:85-88 | saving stamps updatedAt and nothing else |
| LoyaltyController.CostOf | src/controllers/loyalty.controller.js:97-110 | no cost exactly when no reward has the name; otherwise the cost listed with it |
| LoyaltyController.CatalogueMatchesRedeemTable | src/controllers/loyalty.controller.js:39-102 | a name is redeemable exactly when the catalogue lists it, at the listed cost |
| LoyaltyController.RedeemCosts | src/controllers/loyalty.controller.js:97-102 | the four rewards cost 50, 100, 200 and 75, and other names are unknown |
| LoyaltyController.GetLoyaltyInfo | src/controllers/loyalty.controller.js:6-14 | the found account, or a new saved zero account satisfying the ledger invariant |
| LoyaltyController.GetRewards | src/controllers/loyalty.controller.js:26-76 | 404 without an account, otherwise the catalogue |
| LoyaltyController.RedeemReward | src/controllers/loyalty.controller.js:83-122 | 404 without an account, 400 for an unknown reward or too few points, with nothing changed; otherwise points drop by exactly the cost, one transaction is logged and the invariant is kept |
| LoyaltyController.ProcessOrderPoints | src/controllers/loyalty.controller.js:157-177 | the found or a new account earns floor(amount) points, adds the amount to the total spent, takes the tier of the new total, and returns the new balance and tier |
| LoyaltyController.LeaderboardCode | src/controllers/loyalty.controller.js:185-192 | 200 exactly for an admin, otherwise 403 |
| LoyaltyController.SampleFirstOrder | src/controllers/loyalty.controller.js:164-169 | a first order of 1234.56 earns 1234 points and platinum |
| AdminController.UpdateOrderStatus | src/controllers/admin.controller.js:139-163 | 400 for a status off the list before the lookup, 404 for an unknown order; otherwise only that order changes, in the field `status` and updatedAt |
| AdminController.AdminStatusesAreSchemaEnum | src/controllers/admin.controller.js:144 | the whitelist is exactly the schema's orderStatus enum |
| AdminController.AdminUpdateLeavesLifecycle | src/controllers/admin.controller.js:152-156 | the admin update never changes orderStatus or paymentStatus |
| AdminController.Selected | src/controllers/admin.controller.js:108-110 | no filter exactly for a missing, empty or 'all' value; otherwise the value as given |
| AdminController.OrderMatches | src/controllers/admin.controller.js:112 | the empty filter admits every order; an admitted order has the filtered `status` and paymentStatus |
| AdminController.AllSelectsEverything | src/controllers/admin.controller.js:108-110 | 'all', "" or no value for both filters lists every order |
| AdminController.SelectedKeepsValue | src/controllers/admin.controller.js:109-110 | any other value is applied as given |
| AdminController.StatusFilterIgnoresOrderStatus | src/controllers/admin.controller.js:109-112 | a pending order never touched by the admin update is not listed under status=pending |
| AdminController.Skip | src/controllers/admin.controller.js:105-106 | with no page nothing is skipped, and valid page and limit never skip a negative number |
| AdminController.PagesTile | src/controllers/admin.controller.js:106 | consecutive pages start one limit apart |
| AdminController.OrdersOf | src/controllers/admin.controller.js:310 | a customer's orders are an in-order sub-list of all orders, every one theirs, and every order of theirs is in it |
| AdminController.OrdersNotOf | src/controllers/admin.controller.js:310 | everyone else's orders: none is the customer's and every other order is in it |
| AdminController.OrdersPartition | src/controllers/admin.controller.js:310 | the customer's orders and everyone else's are, counted with multiplicity, exactly all orders |
| AdminController.OrdersOfFirst | src/controllers/admin.controller.js:313 | the first of the customer's orders is the one at their first position in the store |
| AdminController.StatsFor | src/controllers/admin.controller.js:310-313 | totalOrders is the number of their orders, totalSpent the sum of their totals, and lastOrderDate is given exactly when they have an order, as the createdAt of the first of them in store order |
| AdminController.OrdersOfEmpty | src/controllers/admin.controller.js:313 | a customer has no orders exactly when no order is theirs |
| AdminController.Spent | src/controllers/admin.controller.js:312 | the sum of non-negative totals is non-negative |
| AdminController.SpentAppend | src/controllers/admin.controller.js:312 | the sum of totals splits over concatenation |
| AdminController.SpentSplits | src/controllers/admin.controller.js:310-312 | one customer's totals and everyone else's add up to the total of all orders |
| AdminController.MenuFilterOf | src/controllers/admin.controller.js:184-186 | available is true exactly for the text 'true' and false for any other text given |
| AdminController.MenuMatches | src/controllers/admin.controller.js:185-188 | an item passes only with the available flag asked for and, when a category is asked for, a category equal to its lower case, so without capitals |
| AdminController.UppercaseAllSelectsNothing | src/controllers/admin.controller.js:185 | category=ALL is not skipped like 'all' and selects no item of the schema's categories |
| AdminController.UppercaseTrueSelectsUnavailable | src/controllers/admin.controller.js:186 | available=TRUE hides every available item |
| MenuController.FilterOf | src/controllers/menu.controller.js:16-24 | each of category, dietary tag and search is put in the filter object exactly when supplied, with the value as given (the schema lowercases the category when the query runs) |
| MenuController.MatchesCategoryAndTag | src/controllers/menu.controller.js:16-17 | an item passes only with the dietary tag asked for among its tags and, when a category is asked for, a category equal to its lower case, so without capitals |
| MenuController.CategoryCaseIgnored | src/models/MenuItem.js:23 | a category asked for in any mix of cases selects what its lower case selects |
| MenuController.CapitalizedCategoryMatches | src/models/MenuItem.js:23 | category=Drink lists the drinks |
| MenuController.NoFilterSelectsAll | src/controllers/menu.controller.js:16-18 | without category and dietary parameters every item passes |
| MenuController.SortOf | src/controllers/menu.controller.js:27-31 | no sortBy gives no sort; otherwise one field with direction 1 or −1 |
| MenuController.SortFieldDirection | src/controllers/menu.controller.js:29-30 | field:dir sorts on the field, descending exactly for 'desc' |
| MenuController.SortWithoutDirection | src/controllers/menu.controller.js:29-30 | a sortBy without a colon sorts ascending on the whole text |
| MenuController.IntOr | src/controllers/menu.controller.js:34-35 | a missing value gives the fallback, and the result is never 0 unless the fallback is |
| MenuController.Limit | src/controllers/menu.controller.js:34 | the limit is never 0 |
| MenuController.LimitSamples | src/controllers/menu.controller.js:34-36 | "25" gives 25; "0", "abc" or nothing give 10; page 3 skips 20 |
| MenuController.LimitOfDigits | src/controllers/menu.controller.js:34 | a written run of digits other than 0 is the limit |
| MenuController.PageOfDigits | src/controllers/menu.controller.js:35 | a written run of digits other than 0 is the page |
| MenuController.LimitOfZero | src/controllers/menu.controller.js:34 | "0" gives the default limit 10 |
| MenuController.LimitOfLetters | src/controllers/menu.controller.js:34 | text with no digits gives the default limit 10 |
| MenuController.LimitOfNumber | src/controllers/menu.controller.js:34 | any non-zero integer written in decimal is taken as the limit |
| MenuController.Pages | src/controllers/menu.controller.js:49 | for a positive limit the pages hold every item and the last one is not empty |
| Notification.OrderMessage | src/services/notification.service.js:4-52 | a message exactly for a user with a token and a status in the table (default confirmed); title 'Order Confirmed' for confirmed, else 'Order Update'; the table's body, the order id, type order-update, that status and the user's token |
| Notification.StatusBody | src/services/notification.service.js:10-16 | a body exactly for confirmed, preparing, ready, out-for-delivery and delivered |
| Notification.StatusBodiesDistinct | src/services/notification.service.js:10-16 | no two statuses share a body |
| Notification.NothingBuiltForStoredUsers | src/services/notification.service.js:6-7 | for users as the schema stores them, with no token, nothing is built and nothing is delivered, even with the import corrected |
| Notification.NothingForPendingOrCancelled | src/services/notification.service.js:10-16 | pending and cancelled send nothing |
| Notification.Sent | src/services/notification.service.js:46-51 | a message is delivered exactly when one was built and the SDK object is bound, and then it is that message |
| Notification.SendOrderNotification | src/services/notification.service.js:1-52 | as written, nothing is ever delivered |
| Notification.ConfirmationBuiltButDropped | src/services/notification.service.js:1-52 | a reachable user is owed the confirmation, yet the service as written delivers nothing (reachable users need the `fcmToken` path the User schema does not declare) |
| Notification.SendOrderNotificationCorrected | src/services/notification.service.js:1-52 | with the SDK object imported, exactly the built message is delivered, so exactly a reachable user with a status in the table gets one (reachable users need the `fcmToken` path the User schema does not declare) |
| Notification.HandlerMessage | src/controllers/order.controller.js:279 | with the handlers' two-argument call a message goes exactly to a reachable user, always 'Order Confirmed' with status confirmed, and its orderId is the printed order document |
| Notification.CancelledOrderToldConfirmed | src/controllers/order.controller.js:279 | the handlers' two-argument call tells a cancelled order's owner with a push token it was confirmed (such owners need the `fcmToken` path the User schema does not declare) |
| Notification.StatusMessage | src/services/notification.service.js:4-44 | the call the signature expects puts the order's id in the message |
| Notification.StatusMessageFollowsOrder | src/services/notification.service.js:4 | passing the order's status, a message names that status and a cancelled order gets none |
| Middleware.BearerToken | src/middlewares/auth.middleware.js:7-11 | a token exactly for a header starting 'Bearer ', and it contains no space |
| Middleware.BearerTokenOfWord | src/middlewares/auth.middleware.js:11 | 'Bearer ' + a one-word token yields that token |
| Middleware.BearerTokenEdgeCases | src/middlewares/auth.middleware.js:7-11 | two spaces give the empty token; another scheme or no header gives none |
| Middleware.Authenticate | src/middlewares/auth.middleware.js:4-36 | every rejection is 401; the request passes exactly when the token verifies and a stored user has that uid, and then carries the uid with that user's role, id and email |
| Middleware.AuthIsAdmin | src/middlewares/auth.middleware.js:39-46 | passes exactly for an admin user; anything else, a missing user included, is 403 |
| Middleware.RoleIsAdmin | src/middlewares/role.middleware.js:3-17 | no user is 401, checked before 403 for a non-admin; passes exactly for an admin |
| Middleware.AdminGatesAgree | src/middlewares/auth.middleware.js:39-46 | the two gates pass the same requests and differ only in the code for a missing user |
| Middleware.AdminGateNeedsStoredAdmin | src/middlewares/auth.middleware.js:19-26 | whoever passes authentication and the admin gate is a stored admin |

## Left out

- Mongoose validation on save is not modelled, and neither is strict mode, except for the Date cast of the callback's transaction date (JsValues.CastDate). The handlers' writes are kept as written, including fields the schema does not declare (the M-Pesa fields, rating, review, and the `status` written by the admin update). `SchemaValid` predicates and lemmas record which writes the enums would refuse. The minimum quantity of 1 in the cart schema and the non-negative menu price are among these constraints.
- The controllers call `findById` with the Firebase uid. The model treats this as map access by that key and does not model Mongoose's cast of the key to an ObjectId.
- The regex and case-insensitive search of the menu listings are not modelled, and neither are the admin `getCustomers` search and verification filters. Only the filter objects are modelled.
- AdminController.Skip: page and limit are given as numbers. The conversion of non-numeric query strings in the admin controller is not modelled.
- `populate` is not modelled, nor the sort order and limit of database queries, nor the aggregation pipelines (`getDashboardStats`, `getOrderStats`). Stores are maps, lookups are map access, and a customer's orders are taken in store order.
- `.toString()` on document ids: ids are strings throughout. Where the handlers pass a whole order document in the id slot of the notification service, its printed form is a parameter `printed` of Notification.HandlerMessage; Mongoose's printout itself is not modelled.
- The M-Pesa token request (its Basic authorisation header from consumer key and secret) is a parameter; the credentials are read into the configuration but not used by the model.
- Accounts.User.fcmToken: src/models/User.js:4-16 declares no `fcmToken` path and no handler writes one, so on every user found through the schema `user.fcmToken` reads undefined (Accounts.AsStored). The field lets the model state what the notification service would do once the schema declares it; for users as stored nothing is ever built (Notification.NothingBuiltForStoredUsers).
- Concurrency: every handler is one atomic step, and races such as a callback against a cancel are not modelled.
- I/O and the clock are not performed. HTTP replies, Firebase token verification, new document ids and the current time are parameters. Express's response objects become result codes and messages.
- The Firebase push send is not modelled. Notification.OrderMessage returns the message that would be sent, and Notification.Sent only says whether the send call is reached without throwing.
- Handlers outside the bookkeeping core are not modelled:
  - order controller: `getUserOrders`, `getOrderById`, `getAllOrders`, `getPendingOrders`, `assignOrder`, `updateOrder`, `deleteOrder`, `verifyMpesaPayment` and its own `getCart`;
  - payment controller: `getPaymentHistory`;
  - loyalty controller: `getTransactions`, and the leaderboard query behind its admin guard;
  - menu controller: `createMenuItem`, `getMenuItemById`, `updateMenuItem` and `deleteMenuItem`;
  - admin controller: `createMenuItem`, `updateMenuItem`, `deleteMenuItem` and `getPayments`.
  They read, copy or delete records without the logic modelled here.
- JsValues.CastDate: a string that is not a plain run of digits of at least 275761 goes to JavaScript's date parser, whose reading, and whose rejection of unparseable text as a cast error, is not modelled (`DateText`). Signs, white space, decimals and exponents in numeric strings are not read as numbers either.
- Text.ToLower: only the ASCII capitals are lowered; the Unicode case mapping of `toLowerCase` on other letters is not modelled.
- JSON numbers in `JsVal` are integers. Fractional amounts in a callback are not represented.
- Quantities are integers. `parseInt` of a string quantity, and the string concatenation a string quantity would cause in `+=`, are not modelled.
- IEEE-754 arithmetic is replaced by exact reals, so rounding error in sums and in the SAVE10 tenth is not modelled.
- MpesaService.TimestampOfIsoString: only clock readings with a four-digit year are covered. `toISOString` writes other years with a sign and six digits.
- OrderController.RateOrder: a caller with no stored user gets 500. The exact error message of that thrown property read is not modelled.

## Findings

| source | as written | input that shows it | evidently intended | confidence | as-written member | corrected member |
|---|---|---|---|---|---|---|
| src/controllers/order.controller.js:97-117 | `createOrder` reads `stkResult.success` and `stkResult.data.CheckoutRequestID`, but `initiateSTKPush` (src/services/mpesa.service.js:81-92) returns flat fields with `success: true` and throws on every failure | an M-Pesa order that passes every check, with the push returning normally: reading `data` throws and the request answers 500. Once the orderStatus enum admits 'pending_payment', the order then stays with no checkout id, so no callback can ever find it. As the schema stands, the first save at order.controller.js:94 already fails enum validation (OrderController.PendingPaymentOrderNotSchemaValid), so no M-Pesa order is ever created; this mismatch is the next failure behind that one | a failed push removes the order, and a successful one stores the checkout and merchant ids | not executed | OrderController.AsWrittenAnswer / OrderController.AsWrittenStrandsMpesaOrder | OrderController.AdaptedAnswer / OrderController.AdaptedNeverStrands |
| src/controllers/payment.controller.js:204 | the callback tests `ResultCode === '0'`, a string, while the gateway sends the number 0 | a callback with ResultCode 0 (a number) for a stored payment: the payment is marked failed and the order is not marked paid, although the stored code reads "0" | success exactly when the code is 0, as a number or a string | not executed | PaymentController.MpesaCallback / PaymentController.NumericZeroMarkedFailed | PaymentController.MpesaCallbackCorrected / PaymentController.IsSuccessCodeMeansStoredZero |
| src/controllers/order.controller.js:279 | the handlers call `sendOrderNotification(user, order)` with two arguments, against the signature `(userId, orderId, status = 'confirmed')` (src/services/notification.service.js:4), so the status always takes its default | cancelling an order whose owner has a push token: once the User schema declares `fcmToken` and the import below is fixed, the owner would be told "Your order has been confirmed!"; as the code stands no user has a token (Notification.NothingBuiltForStoredUsers) | the message follows the order's status, and nothing is sent for a cancelled order | not executed | Notification.HandlerMessage / Notification.CancelledOrderToldConfirmed | Notification.StatusMessage / Notification.StatusMessageFollowsOrder |
| src/services/notification.service.js:1 | `const { admin } = require('../config/firebase')` reads a property `admin` off the export, but src/config/firebase.js:16 exports the SDK object itself, which has no such property, so `admin` is undefined; the send at notification.service.js:47 throws and the catch at :49-51 swallows it | any call for a user with a push token and a status in the table, once the User schema declares `fcmToken`: the message is built, and nothing is delivered; as the code stands no user has a token, so the early return at :7 masks this | with `fcmToken` declared on the User schema and the import corrected, the built message is delivered | not executed | Notification.SendOrderNotification / Notification.ConfirmationBuiltButDropped | Notification.SendOrderNotificationCorrected |
