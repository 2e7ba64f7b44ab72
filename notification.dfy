/**
 * The choice of push notification in src/services/notification.service.js:
 * which title and body go with an order status, and when nothing is sent.
 * The Firebase send itself is left out: a message is returned instead, and
 * `Sent` says whether the send call is reached without throwing.
 */
module Notification {
  import opened Wrappers
  import opened Accounts
  import OrderSchema

  /** The message handed to `admin.messaging().send`. */
  datatype Message = Message(title: string, body: string, orderId: string, kind: string,
                             status: string, token: string)

  /** The `statusMessages` table: five statuses, each with its own body. */
  function StatusBody(status: string): (b: Option<string>)
    ensures b.Some? <==> status in {"confirmed", "preparing", "ready", "out-for-delivery", "delivered"}
  {
    match status
    case "confirmed" => Some("Your order has been confirmed!")
    case "preparing" => Some("Your order is being prepared")
    case "ready" => Some("Your order is ready for pickup")
    case "out-for-delivery" => Some("Your order is on the way!")
    case "delivered" => Some("Your order has been delivered")
    case _ => None
  }

  /** No two statuses of the table share a body, so a body tells which status it announces. */
  lemma StatusBodiesDistinct(s1: string, s2: string)
    requires s1 != s2 && StatusBody(s1).Some?
    ensures StatusBody(s1) != StatusBody(s2)
  {
  }

  /** `if (!user || !user.fcmToken) return`: a user with a non-empty token. */
  predicate Reachable(user: Option<User>) {
    user.Some? && user.value.fcmToken.Some? && user.value.fcmToken.value != ""
  }

  /**
   * `sendOrderNotification(userId, orderId, status = 'confirmed')`: nothing
   * for an unreachable user or a status outside the table; 'Order Confirmed'
   * for confirmed, 'Order Update' for the other statuses of the table.
   */
  function OrderMessage(user: Option<User>, orderId: string, status: Option<string>): (m: Option<Message>)
    ensures m.Some? <==> Reachable(user) && StatusBody(status.GetOr("confirmed")).Some?
    ensures m.Some? ==>
              var st := status.GetOr("confirmed");
              m.value.title == (if st == "confirmed" then "Order Confirmed" else "Order Update")
              && Some(m.value.body) == StatusBody(st)
              && m.value.orderId == orderId && m.value.kind == "order-update" && m.value.status == st
              && Some(m.value.token) == user.value.fcmToken
  {
    if !Reachable(user) then None
    else
      var st := status.GetOr("confirmed");
      var token := user.value.fcmToken.value;
      match StatusBody(st)
      case None => None
      case Some(body) =>
        Some(Message(if st == "confirmed" then "Order Confirmed" else "Order Update",
                     body, orderId, "order-update", st, token))
  }

  /** Pending and cancelled have no table entry, so nothing is sent for them. */
  lemma NothingForPendingOrCancelled(user: Option<User>, orderId: string)
    ensures OrderMessage(user, orderId, Some("pending")).None?
    ensures OrderMessage(user, orderId, Some("cancelled")).None?
  {
  }

  /**
   * For users as the schema stores them nothing is ever built: the early return on a
   * missing token is taken, whatever the status.
   */
  lemma NothingBuiltForStoredUsers(user: Option<User>, orderId: string, status: Option<string>)
    requires user.Some? ==> AsStored(user.value)
    ensures !Reachable(user)
    ensures OrderMessage(user, orderId, status).None?
    ensures SendOrderNotificationCorrected(user, orderId, status).None?
  {
  }

  // ---------------------------------------------------------------- the send

  /** What the service's name `admin` is bound to. */
  datatype AdminBinding = SdkObject | UndefinedBinding

  /**
   * `const { admin } = require('../config/firebase')`: the config module exports
   * the SDK object itself, which has no property `admin`, so the name is undefined.
   */
  const ImportedAdmin := UndefinedBinding

  /** `const admin = require('../config/firebase')`, the import the config module's export calls for. */
  const CorrectedAdmin := SdkObject

  /**
   * `if (message.token) await admin.messaging().send(message)` inside the `try`: with
   * `admin` undefined the call throws, and the `catch` logs and swallows the error.
   */
  function Sent(admin: AdminBinding, m: Option<Message>): (sent: Option<Message>)
    ensures sent.Some? <==> admin.SdkObject? && m.Some?
    ensures sent.Some? ==> sent == m
  {
    if admin.UndefinedBinding? then None else m
  }

  /** `sendOrderNotification` as written: whatever message it builds, none is ever delivered. */
  function SendOrderNotification(user: Option<User>, orderId: string, status: Option<string>)
    : (sent: Option<Message>)
    ensures sent.None?
  {
    Sent(ImportedAdmin, OrderMessage(user, orderId, status))
  }

  /** A reachable user is owed the confirmation, and the service as written drops it. */
  lemma ConfirmationBuiltButDropped(user: Option<User>, orderId: string)
    requires Reachable(user)
    ensures OrderMessage(user, orderId, None).Some?
    ensures SendOrderNotification(user, orderId, None).None?
  {
  }

  /** `sendOrderNotification` with the SDK object imported: exactly the message built is delivered. */
  function SendOrderNotificationCorrected(user: Option<User>, orderId: string, status: Option<string>)
    : (sent: Option<Message>)
    ensures sent.Some? <==> Reachable(user) && StatusBody(status.GetOr("confirmed")).Some?
    ensures sent == OrderMessage(user, orderId, status)
  {
    Sent(CorrectedAdmin, OrderMessage(user, orderId, status))
  }

  // ---------------------------------------------------------------- the call sites

  /**
   * What the order handlers send: they call `sendOrderNotification(user, order)`
   * with two arguments, so the status always takes its default, and the whole
   * order document stands in the `orderId` slot.  `printed` is the text its
   * `toString()` gives (Mongoose's printout of the document, not its id).
   */
  function HandlerMessage(user: Option<User>, order: OrderSchema.Order, printed: string): (m: Option<Message>)
    ensures m.Some? <==> Reachable(user)
    ensures m.Some? ==>
              m.value.status == "confirmed" && m.value.title == "Order Confirmed"
              && m.value.orderId == printed
  {
    OrderMessage(user, printed, None)
  }

  /** A cancelled order's owner is told 'Your order has been confirmed!'. */
  lemma CancelledOrderToldConfirmed(user: Option<User>, order: OrderSchema.Order, printed: string)
    requires Reachable(user) && order.orderStatus == OrderSchema.Cancelled
    ensures HandlerMessage(user, order, printed).Some?
    ensures HandlerMessage(user, order, printed).value.body == "Your order has been confirmed!"
  {
  }

  /** The call the signature expects: the order's id and its status. */
  function StatusMessage(user: Option<User>, order: OrderSchema.Order): (m: Option<Message>)
    ensures m.Some? ==> m.value.orderId == order.id
  {
    OrderMessage(user, order.id, Some(OrderSchema.StatusName(order.orderStatus)))
  }

  /** Passing the order's status, a message, when one is sent, names that status, and a cancelled order gets none. */
  lemma StatusMessageFollowsOrder(user: Option<User>, order: OrderSchema.Order)
    ensures StatusMessage(user, order).Some? ==>
              StatusMessage(user, order).value.status == OrderSchema.StatusName(order.orderStatus)
    ensures order.orderStatus == OrderSchema.Cancelled ==> StatusMessage(user, order).None?
    ensures order.orderStatus == OrderSchema.Delivered && Reachable(user) ==>
              StatusMessage(user, order).Some? && StatusMessage(user, order).value.title == "Order Update"
  {
  }
}
