/**
 * The second set of cart handlers, in src/controllers/order.controller.js
 * (`addToCart`, `removeFromCart`, `updateCartItem`, `clearCart`).  They
 * write `cart.items` directly instead of calling the cart's methods, follow
 * the same merge rule by menu item id, and save without `calculateTotal`, so
 * the stored total is left as it was; the lemmas at the end say so.
 * A missing string in the request is "" (falsy), a missing number None.
 */
module OrderCartHandlers {
  import opened Wrappers
  import opened CartModel
  import opened MenuItems
  import Accounts

  const Ok := 200
  const Invalid := 400
  const NotFound := 404

  /** `if (x)` on an optional string. */
  predicate Given(s: Option<string>) {
    s.Some? && s.value != ""
  }

  /** The line pushed for a new menu item: no image, instructions `specialInstructions || ''`. */
  function PushedLine(m: MenuItem, quantity: int, instructions: Option<string>): (l: CartItem)
    ensures l.menuItemId == m.id && l.name == m.name && l.price == m.price && l.quantity == quantity
    ensures l.imageUrl.None? && l.specialInstructions.Some?
    ensures Given(instructions) ==> l.specialInstructions == instructions
  {
    CartItem(m.id, m.name, m.price, quantity,
             Some(if Given(instructions) then instructions.value else ""), None)
  }

  /**
   * The list after `addToCart`: an existing line gets the quantity added and,
   * when instructions are given, the new instructions; otherwise the line is
   * appended.
   */
  function Placed(items: seq<CartItem>, line: CartItem, instructions: Option<string>): (r: seq<CartItem>)
    ensures |items| <= |r| <= |items| + 1
    ensures forall i :: 0 <= i < |items| && items[i].menuItemId != line.menuItemId ==> r[i] == items[i]
    ensures |r| == |items| + 1 ==> r[|items|] == line
  {
    var k := IndexOf(items, line.menuItemId);
    if k == -1 then items + [line]
    else items[k := items[k].(quantity := items[k].quantity + line.quantity,
                              specialInstructions := if Given(instructions) then instructions
                                                     else items[k].specialInstructions)]
  }

  /** `updateCartItem`'s change to one line: quantity and instructions are written only when present. */
  function Edited(it: CartItem, quantity: Option<int>, instructions: Option<string>): (e: CartItem)
    ensures e.menuItemId == it.menuItemId && e.name == it.name && e.price == it.price && e.imageUrl == it.imageUrl
    ensures e.quantity == quantity.GetOr(it.quantity)
    ensures e.specialInstructions == (if instructions.Some? then instructions else it.specialInstructions)
  {
    var q := if quantity.Some? then it.(quantity := quantity.value) else it;
    if instructions.Some? then q.(specialInstructions := instructions) else q
  }

  // ---------------------------------------------------------------- handlers

  /**
   * `addToCart`: 400 for a missing id or a quantity below 1, 404 for an
   * unknown menu item, 400 for an unavailable one; otherwise the found or a
   * new cart gets the line and is saved with its total untouched.
   */
  method AddToCart(menu: map<Id, MenuItem>, uid: Id, found: Cart?, menuItemId: Id,
                   quantity: Option<int>, instructions: Option<string>, now: int)
    returns (code: int, cart: Cart?)
    requires KeyedById(menu)
    requires found != null ==> found.user == uid
    modifies found
    ensures code != Ok ==> cart == null && (found != null ==> unchanged(found))
    ensures code == Invalid <==>
              menuItemId == "" || quantity.GetOr(1) < 1 || (menuItemId in menu && !menu[menuItemId].available)
    ensures code == NotFound <==> menuItemId != "" && quantity.GetOr(1) >= 1 && menuItemId !in menu
    ensures code == Ok ==>
              menuItemId in menu && cart != null
              && (found != null ==> cart == found) && (found == null ==> fresh(cart))
    ensures code == Ok && found != null ==>
              found.State() == old(found.State()).(
                items := Placed(old(found.items), PushedLine(menu[menuItemId], quantity.GetOr(1), instructions), instructions),
                updatedAt := now)
    ensures code == Ok && found == null ==>
              cart.State() == CartState(uid, [PushedLine(menu[menuItemId], quantity.GetOr(1), instructions)],
                                        0.0, 0.0, 0.0, None, now)
    ensures code == Invalid || code == NotFound || code == Ok
  {
    var q := quantity.GetOr(1);
    if menuItemId == "" || q < 1 {
      return Invalid, null;
    }
    if menuItemId !in menu {
      return NotFound, null;
    }
    var m := menu[menuItemId];
    if !m.available {
      return Invalid, null;
    }
    if found == null {
      cart := new Cart(uid, now);
    } else {
      cart := found;
    }
    var k := cart.FindIndex(menuItemId);
    if k != -1 {
      var it := cart.items[k];
      cart.items := cart.items[k := it.(quantity := it.quantity + q,
                                        specialInstructions := if Given(instructions) then instructions
                                                               else it.specialInstructions)];
    } else {
      cart.items := cart.items + [PushedLine(m, q, instructions)];
    }
    cart.Save(now);
    code := Ok;
  }

  /** `removeFromCart`: 400 for a missing id, 404 without a cart, otherwise the filter and save, total untouched. */
  method RemoveFromCart(found: Cart?, menuItemId: Id, now: int) returns (code: int)
    modifies found
    ensures menuItemId == "" ==> code == Invalid
    ensures menuItemId != "" && found == null ==> code == NotFound
    ensures code != Ok && found != null ==> unchanged(found)
    ensures menuItemId != "" && found != null ==>
              code == Ok
              && found.State() == old(found.State()).(items := Without(old(found.items), menuItemId), updatedAt := now)
  {
    if menuItemId == "" {
      return Invalid;
    }
    if found == null {
      return NotFound;
    }
    found.items := Without(found.items, menuItemId);
    found.Save(now);
    code := Ok;
  }

  /**
   * `updateCartItem`: 400 for a missing id or a given quantity below 1, 404
   * without a cart or without a line for that menu item; otherwise that line
   * alone is edited and the cart saved, total untouched.
   */
  method UpdateCartItem(found: Cart?, menuItemId: Id, quantity: Option<int>, instructions: Option<string>,
                        now: int) returns (code: int)
    modifies found
    ensures menuItemId == "" || (quantity.Some? && quantity.value < 1) ==> code == Invalid
    ensures code != Ok && found != null ==> unchanged(found)
    ensures menuItemId != "" && !(quantity.Some? && quantity.value < 1) ==>
              (code == NotFound <==> found == null || IndexOf(old(found.items), menuItemId) == -1)
    ensures code == Invalid || code == NotFound || code == Ok
    // a valid edit of a line the cart holds always succeeds
    ensures (menuItemId != "" && !(quantity.Some? && quantity.value < 1) && found != null
             && IndexOf(old(found.items), menuItemId) != -1) ==> code == Ok
    ensures code == Ok ==>
              found != null
              && var k := IndexOf(old(found.items), menuItemId);
                 k >= 0
                 && found.State() == old(found.State()).(
                      items := old(found.items)[k := Edited(old(found.items)[k], quantity, instructions)],
                      updatedAt := now)
  {
    if menuItemId == "" || (quantity.Some? && quantity.value < 1) {
      return Invalid;
    }
    if found == null {
      return NotFound;
    }
    var k := found.FindIndex(menuItemId);
    if k == -1 {
      return NotFound;
    }
    if quantity.Some? {
      found.items := found.items[k := found.items[k].(quantity := quantity.value)];
    }
    if instructions.Some? {
      found.items := found.items[k := found.items[k].(specialInstructions := instructions)];
    }
    found.Save(now);
    code := Ok;
  }

  /** `clearCart`: 404 for an unknown user, then 404 without a cart; otherwise only the items are emptied. */
  method ClearCart(users: map<Id, Accounts.User>, uid: Id, found: Cart?, now: int) returns (code: int)
    modifies found
    ensures uid !in users || found == null ==> code == NotFound
    ensures code != Ok && found != null ==> unchanged(found)
    ensures uid in users && found != null ==>
              code == Ok && found.State() == old(found.State()).(items := [], updatedAt := now)
  {
    if uid !in users {
      return NotFound;
    }
    if found == null {
      return NotFound;
    }
    found.items := [];
    found.Save(now);
    code := Ok;
  }

  // ---------------------------------------------------------------- properties

  /** The same merge rule as the cart's `addItem`: the two lists differ at most in the instructions. */
  lemma SameMergeRule(items: seq<CartItem>, line: CartItem, instructions: Option<string>)
    ensures |Placed(items, line, instructions)| == |Merged(items, line)|
    ensures forall i :: 0 <= i < |Merged(items, line)| ==>
              Placed(items, line, instructions)[i].(specialInstructions := Merged(items, line)[i].specialInstructions)
              == Merged(items, line)[i]
  {
  }

  /** The items total grows by the added quantity at the price of the line it lands on. */
  lemma PlacedTotal(items: seq<CartItem>, line: CartItem, instructions: Option<string>)
    ensures IndexOf(items, line.menuItemId) == -1 ==>
              ItemsTotal(Placed(items, line, instructions)) == ItemsTotal(items) + Cost(line.price, line.quantity)
    ensures IndexOf(items, line.menuItemId) >= 0 ==>
              ItemsTotal(Placed(items, line, instructions))
              == ItemsTotal(items) + Cost(items[IndexOf(items, line.menuItemId)].price, line.quantity)
  {
    var k := IndexOf(items, line.menuItemId);
    if k == -1 {
      assert Placed(items, line, instructions) == items + [line];
      AppendTotal(items, line);
    } else {
      var it := items[k];
      var x := it.(quantity := it.quantity + line.quantity,
                   specialInstructions := if Given(instructions) then instructions else it.specialInstructions);
      assert Placed(items, line, instructions) == items[k := x];
      ItemsTotalUpdate(items, k, x);
      Distribute(it.price, it.quantity, line.quantity);
    }
  }

  lemma CostPositive(p: real, q: int)
    requires p > 0.0 && q >= 1
    ensures Cost(p, q) > 0.0
  {
  }

  /**
   * Adding a priced item through this handler leaves the stored total behind
   * the items: a cart whose total was up to date no longer is.
   */
  lemma AddLeavesTotalStale(s: CartState, line: CartItem, instructions: Option<string>)
    requires Totalled(s) && line.quantity >= 1 && line.price > 0.0
    requires forall i :: 0 <= i < |s.items| ==> s.items[i].price > 0.0
    ensures !Totalled(s.(items := Placed(s.items, line, instructions)))
  {
    PlacedTotal(s.items, line, instructions);
    var k := IndexOf(s.items, line.menuItemId);
    if k == -1 {
      CostPositive(line.price, line.quantity);
    } else {
      CostPositive(s.items[k].price, line.quantity);
    }
  }

  /** Clearing a cart that held anything of value leaves the stored total behind the (now empty) items. */
  lemma ClearLeavesTotalStale(s: CartState)
    requires Totalled(s) && ItemsTotal(s.items) != 0.0
    ensures !Totalled(s.(items := []))
  {
  }
}
