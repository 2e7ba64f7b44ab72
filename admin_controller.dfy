/**
 * The decision logic of src/controllers/admin.controller.js: the status
 * whitelist of the admin `updateOrderStatus`, the query filters and the
 * pagination arithmetic of the listings, and the per-customer order totals
 * of `getCustomers`.  Query parameters that are absent are None; numeric
 * query values are given as numbers.
 */
module AdminController {
  import opened Wrappers
  import opened OrderSchema
  import MenuItems
  import Text

  datatype Outcome = Outcome(code: int, message: string, orders: map<Id, Order>)

  /** The statuses the admin handler accepts. */
  const AdminStatuses: seq<string> := ["pending", "confirmed", "preparing", "out-for-delivery", "delivered", "cancelled"]

  /**
   * `updateOrderStatus`: 400 for a status off the list, before the order is
   * looked up; 404 for an unknown order; otherwise `findByIdAndUpdate` writes
   * the field `status` (not `orderStatus`) and updatedAt.
   */
  function UpdateOrderStatus(orders: map<Id, Order>, orderId: Id, status: string, now: int): (r: Outcome)
    ensures status !in AdminStatuses ==> r.code == 400 && r.orders == orders
    ensures status in AdminStatuses && orderId !in orders ==> r.code == 404 && r.orders == orders
    ensures status in AdminStatuses && orderId in orders ==>
              r.code == 200 && orderId in r.orders
              && r.orders == orders[orderId := r.orders[orderId]]
              && r.orders[orderId] == orders[orderId].(status := r.orders[orderId].status, updatedAt := now)
              && r.orders[orderId].status.Some? && StatusName(r.orders[orderId].status.value) == status
  {
    if status !in AdminStatuses then Outcome(400, "Invalid status", orders)
    else if orderId !in orders then Outcome(404, "Order not found", orders)
    else Outcome(200, "", orders[orderId := orders[orderId].(status := Some(ParseStatus(status)), updatedAt := now)])
  }

  /** The whitelist is exactly the orderStatus enum of the schema. */
  lemma AdminStatusesAreSchemaEnum(st: OrderStatus)
    requires Canonical(st)
    ensures StatusName(st) in AdminStatuses <==> InOrderStatusEnum(st)
  {
  }

  /**
   * The admin update leaves `orderStatus`, the field `cancelOrder`,
   * `rateOrder` and the M-Pesa callback read, as it was, whatever the
   * status sent.
   */
  lemma AdminUpdateLeavesLifecycle(orders: map<Id, Order>, orderId: Id, status: string, now: int)
    requires orderId in orders
    ensures var r := UpdateOrderStatus(orders, orderId, status, now);
            orderId in r.orders && r.orders[orderId].orderStatus == orders[orderId].orderStatus
            && r.orders[orderId].paymentStatus == orders[orderId].paymentStatus
  {
  }

  // ---------------------------------------------------------------- getOrders

  /** The `filter` object of `getOrders`. */
  datatype OrderFilter = OrderFilter(status: Option<string>, paymentStatus: Option<string>)

  /** `if (x && x !== 'all') filter.x = x`. */
  function Selected(x: Option<string>): (r: Option<string>)
    ensures r.None? <==> x.None? || x.value in {"", "all"}
    ensures r.Some? ==> r == x
  {
    if x.Some? && x.value != "" && x.value != "all" then x else None
  }

  function OrdersFilter(status: Option<string>, paymentStatus: Option<string>): OrderFilter {
    OrderFilter(Selected(status), Selected(paymentStatus))
  }

  /** The documents `Order.find(filter)` returns: equality on each field the filter holds. */
  predicate OrderMatches(o: Order, f: OrderFilter): (b: bool)
    ensures f == OrderFilter(None, None) ==> b
    ensures b && f.status.Some? ==> o.status.Some? && StatusName(o.status.value) == f.status.value
    ensures b && f.paymentStatus.Some? ==> PaymentStatusName(o.paymentStatus) == f.paymentStatus.value
  {
    (f.status.None? || (o.status.Some? && StatusName(o.status.value) == f.status.value))
    && (f.paymentStatus.None? || PaymentStatusName(o.paymentStatus) == f.paymentStatus.value)
  }

  /** 'all', "" or nothing for both parameters lists every order. */
  lemma AllSelectsEverything(o: Order, status: Option<string>, paymentStatus: Option<string>)
    requires status.None? || status.value in {"", "all"}
    requires paymentStatus.None? || paymentStatus.value in {"", "all"}
    ensures OrderMatches(o, OrdersFilter(status, paymentStatus))
  {
  }

  /** A filter value other than 'all' is applied as given. */
  lemma SelectedKeepsValue(x: string)
    requires x != "" && x != "all"
    ensures Selected(Some(x)) == Some(x)
  {
  }

  /**
   * The status filter reads the field `status`, which only the admin update
   * writes: an order whose `orderStatus` is pending but that the admin never
   * updated is not listed under `status=pending`.
   */
  lemma StatusFilterIgnoresOrderStatus(o: Order)
    requires o.status.None? && o.orderStatus == Pending
    ensures !OrderMatches(o, OrdersFilter(Some("pending"), None))
  {
  }

  // ---------------------------------------------------------------- pagination

  /** `(page - 1) * limit` with the defaults page 1 and limit 20. */
  function Skip(page: Option<int>, limit: Option<int>): (skip: int)
    ensures page.None? ==> skip == 0
    ensures page.GetOr(1) >= 1 && limit.GetOr(20) >= 0 ==> skip >= 0
  {
    (page.GetOr(1) - 1) * limit.GetOr(20)
  }

  /** Consecutive pages start `limit` documents apart, so they neither overlap nor leave gaps. */
  lemma PagesTile(page: int, limit: Option<int>)
    ensures Skip(Some(page + 1), limit) == Skip(Some(page), limit) + limit.GetOr(20)
  {
  }

  // ---------------------------------------------------------------- getCustomers

  /** `r` is `all` with some elements left out, the rest kept in their order (matched greedily from the end). */
  predicate SubSeq(r: seq<Order>, all: seq<Order>)
    decreases |all|
  {
    if |r| == 0 then true
    else if |all| == 0 then false
    else if r[|r| - 1] == all[|all| - 1] then SubSeq(r[..|r| - 1], all[..|all| - 1])
    else SubSeq(r, all[..|all| - 1])
  }

  /** `Order.find({user: customer._id})`, in store order. */
  function OrdersOf(all: seq<Order>, customer: Id): (r: seq<Order>)
    ensures |r| <= |all|
    ensures SubSeq(r, all)
    ensures forall i :: 0 <= i < |r| ==> r[i].user == customer
    ensures forall i :: 0 <= i < |all| && all[i].user == customer ==> all[i] in r
  {
    if |all| == 0 then []
    else
      var init, last := all[..|all| - 1], all[|all| - 1];
      var mine := OrdersOf(init, customer);
      assert forall i :: 0 <= i < |init| ==> all[i] == init[i];
      if last.user == customer then
        assert (mine + [last])[..|mine|] == mine;
        mine + [last]
      else
        assert |mine| > 0 ==> mine[|mine| - 1].user != last.user;
        SubSeqOfInit(mine, all);
        mine
  }

  /** Dropping the last element of `all` cannot break a sub-list that does not end with it. */
  lemma SubSeqOfInit(r: seq<Order>, all: seq<Order>)
    requires |all| > 0 && SubSeq(r, all[..|all| - 1])
    requires |r| > 0 ==> r[|r| - 1] != all[|all| - 1]
    ensures SubSeq(r, all)
  {
  }

  /** The orders of everyone but one customer. */
  function OrdersNotOf(all: seq<Order>, customer: Id): (r: seq<Order>)
    ensures forall i :: 0 <= i < |r| ==> r[i].user != customer
    ensures forall i :: 0 <= i < |all| && all[i].user != customer ==> all[i] in r
  {
    if |all| == 0 then []
    else
      var init, last := all[..|all| - 1], all[|all| - 1];
      assert forall i :: 0 <= i < |init| ==> all[i] == init[i];
      OrdersNotOf(init, customer) + (if last.user != customer then [last] else [])
  }

  /** The last element of a non-empty sequence and the rest together make up its multiset. */
  lemma MultisetOfSnoc<T>(s: seq<T>)
    requires |s| > 0
    ensures multiset(s) == multiset(s[..|s| - 1]) + multiset{s[|s| - 1]}
  {
    assert s == s[..|s| - 1] + [s[|s| - 1]];
  }

  /** A customer's orders and everyone else's orders together are all the orders, each as often. */
  lemma {:induction false} OrdersPartition(all: seq<Order>, customer: Id)
    ensures multiset(OrdersOf(all, customer)) + multiset(OrdersNotOf(all, customer)) == multiset(all)
    decreases |all|
  {
    if |all| > 0 {
      var init, last := all[..|all| - 1], all[|all| - 1];
      OrdersPartition(init, customer);
      MultisetOfSnoc(all);
      var mine, others := OrdersOf(init, customer), OrdersNotOf(init, customer);
      var tail := if last.user != customer then [last] else [];
      assert OrdersNotOf(all, customer) == others + tail;
      assert multiset(others + tail) == multiset(others) + multiset(tail);
      if last.user == customer {
        assert OrdersOf(all, customer) == mine + [last];
        assert multiset(mine + [last]) == multiset(mine) + multiset{last};
      } else {
        assert OrdersOf(all, customer) == mine;
      }
    }
  }

  /** `orders.reduce((sum, order) => sum + order.totalAmount, 0)`. */
  function Spent(orders: seq<Order>): (r: real)
    ensures (forall i :: 0 <= i < |orders| ==> orders[i].totalAmount >= 0.0) ==> r >= 0.0
  {
    if |orders| == 0 then 0.0
    else
      assert forall i :: 0 <= i < |orders| - 1 ==> orders[..|orders| - 1][i] == orders[i];
      Spent(orders[..|orders| - 1]) + orders[|orders| - 1].totalAmount
  }

  /** `j` is the position of the customer's first order in store order. */
  predicate FirstOrderAt(all: seq<Order>, customer: Id, j: int) {
    0 <= j < |all| && all[j].user == customer && forall k :: 0 <= k < j ==> all[k].user != customer
  }

  datatype CustomerStats = CustomerStats(totalOrders: nat, totalSpent: real, lastOrderDate: Option<int>)

  /**
   * The statistics attached to one customer: the number of their orders, the
   * sum of their totals, and (named lastOrderDate) the date of the first of
   * their orders in store order.
   */
  function StatsFor(all: seq<Order>, customer: Id): (st: CustomerStats)
    ensures st.totalOrders == |OrdersOf(all, customer)|
    ensures st.totalSpent == Spent(OrdersOf(all, customer))
    ensures st.lastOrderDate.Some? <==> exists i :: 0 <= i < |all| && all[i].user == customer
    ensures forall j :: FirstOrderAt(all, customer, j) ==> st.lastOrderDate == Some(all[j].createdAt)
  {
    var mine := OrdersOf(all, customer);
    OrdersOfEmpty(all, customer);
    assert forall j :: FirstOrderAt(all, customer, j) ==> |mine| > 0 && mine[0] == all[j] by {
      forall j | FirstOrderAt(all, customer, j) ensures |mine| > 0 && mine[0] == all[j] {
        OrdersOfFirst(all, customer, j);
      }
    }
    CustomerStats(|mine|, Spent(mine), if |mine| > 0 then Some(mine[0].createdAt) else None)
  }

  /** The first of a customer's orders is the one at their first position in the store. */
  lemma {:induction false} OrdersOfFirst(all: seq<Order>, customer: Id, j: int)
    requires FirstOrderAt(all, customer, j)
    ensures |OrdersOf(all, customer)| > 0 && OrdersOf(all, customer)[0] == all[j]
    decreases |all|
  {
    var init, last := all[..|all| - 1], all[|all| - 1];
    var mine := OrdersOf(init, customer);
    if j < |init| {
      assert FirstOrderAt(init, customer, j) by {
        assert forall k :: 0 <= k <= j ==> init[k] == all[k];
      }
      OrdersOfFirst(init, customer, j);
      assert OrdersOf(all, customer)[0] == mine[0];
    } else {
      assert forall k :: 0 <= k < |init| ==> init[k] == all[k];
      OrdersOfEmpty(init, customer);
      assert OrdersOf(all, customer) == mine + [last];
    }
  }

  lemma {:induction false} OrdersOfEmpty(all: seq<Order>, customer: Id)
    ensures |OrdersOf(all, customer)| == 0 <==> forall i :: 0 <= i < |all| ==> all[i].user != customer
    decreases |all|
  {
    if |all| > 0 {
      OrdersOfEmpty(all[..|all| - 1], customer);
    }
  }

  lemma {:induction false} SpentAppend(a: seq<Order>, b: seq<Order>)
    ensures Spent(a + b) == Spent(a) + Spent(b)
    decreases |b|
  {
    if |b| == 0 {
      assert a + b == a;
    } else {
      assert (a + b)[..|a + b| - 1] == a + b[..|b| - 1];
      SpentAppend(a, b[..|b| - 1]);
    }
  }

  /** One customer's total and everyone else's add up to the total of all orders. */
  lemma {:induction false} SpentSplits(all: seq<Order>, customer: Id)
    ensures Spent(OrdersOf(all, customer)) + Spent(OrdersNotOf(all, customer)) == Spent(all)
    ensures |OrdersOf(all, customer)| + |OrdersNotOf(all, customer)| == |all|
    decreases |all|
  {
    if |all| > 0 {
      var init, last := all[..|all| - 1], all[|all| - 1];
      SpentSplits(init, customer);
      assert Spent([last]) == last.totalAmount by { assert [last][..0] == []; }
      assert Spent(all) == Spent(init) + last.totalAmount;
      if last.user == customer {
        assert OrdersOf(all, customer) == OrdersOf(init, customer) + [last];
        assert OrdersNotOf(all, customer) == OrdersNotOf(init, customer);
        SpentAppend(OrdersOf(init, customer), [last]);
      } else {
        assert OrdersOf(all, customer) == OrdersOf(init, customer);
        assert OrdersNotOf(all, customer) == OrdersNotOf(init, customer) + [last];
        SpentAppend(OrdersNotOf(init, customer), [last]);
      }
    }
  }

  // ---------------------------------------------------------------- getMenuItems

  /** The `filter` object of the admin `getMenuItems`. */
  datatype MenuFilter = MenuFilter(category: Option<string>, available: Option<bool>)

  /** `available !== undefined ? available === 'true'`: any other text selects unavailable items. */
  function MenuFilterOf(category: Option<string>, available: Option<string>): (f: MenuFilter)
    ensures f.available == Some(true) <==> available == Some("true")
    ensures f.available == Some(false) <==> available.Some? && available.value != "true"
    ensures f.category == Selected(category)
  {
    MenuFilter(Selected(category), if available.Some? then Some(available.value == "true") else None)
  }

  /** `MenuItem.find(filter)` on one item: the query category is lowercased by the schema before comparing. */
  predicate MenuMatches(m: MenuItems.MenuItem, f: MenuFilter): (b: bool)
    ensures b && f.available.Some? ==> m.available == f.available.value
    // only an item whose category has no capital letter can match a category
    ensures b && f.category.Some? ==>
              |m.category| == |f.category.value| && forall i :: 0 <= i < |m.category| ==> !Text.IsUpper(m.category[i])
  {
    (f.category.None? || m.category == Text.ToLower(f.category.value))
    && (f.available.None? || m.available == f.available.value)
  }

  /** `?category=ALL` is not the 'all' the handler skips, and it selects no item of the schema's categories. */
  lemma UppercaseAllSelectsNothing(m: MenuItems.MenuItem, available: Option<string>)
    requires MenuItems.SchemaValid(m)
    ensures !MenuMatches(m, MenuFilterOf(Some("ALL"), available))
  {
    assert Text.ToLower("ALL") == "all";
  }

  /** `available=TRUE` lists only the unavailable items. */
  lemma UppercaseTrueSelectsUnavailable(m: MenuItems.MenuItem)
    requires m.available
    ensures !MenuMatches(m, MenuFilterOf(None, Some("TRUE")))
  {
  }
}
