/**
 * The cart handlers of src/controllers/cart.controller.js.  `Cart.findOne({user})`
 * is the `found` argument (null when the user has no cart) and `MenuItem.findById`
 * is a lookup in the menu store; each handler works on the found cart object
 * through the methods of `CartModel.Cart` and returns the response code.
 */
module CartController {
  import opened Wrappers
  import opened CartModel
  import opened MenuItems

  const NotFound := 404
  const Invalid := 400
  const Ok := 200

  /** The discount a promo code gives on the stored total, or None for a code the handler rejects. */
  function PromoDiscount(code: string, storedTotal: real): (d: Option<real>)
    ensures d.Some? <==> code == "SAVE10" || code == "SAVE5"
    ensures code == "SAVE10" ==> d == Some(storedTotal / 10.0)
    ensures code == "SAVE5" ==> d == Some(5.0)
  {
    if code == "SAVE10" then Some(storedTotal * 0.1)
    else if code == "SAVE5" then Some(5.0)
    else None
  }

  /** The cart `applyPromoCode` saves: code and discount stored, total recomputed, updatedAt stamped. */
  function AfterPromo(s: CartState, code: string, now: int): (t: Option<CartState>)
    ensures t.None? <==> PromoDiscount(code, s.totalAmount).None?
    ensures t.Some? ==> Totalled(t.value) && t.value.items == s.items && t.value.deliveryFee == s.deliveryFee
                        && t.value.promoCode == Some(code) && t.value.updatedAt == now
                        && Some(t.value.discountAmount) == PromoDiscount(code, s.totalAmount)
  {
    match PromoDiscount(code, s.totalAmount)
    case None => None
    case Some(d) => Some(Recalculated(s.(promoCode := Some(code), discountAmount := d)).(updatedAt := now))
  }

  /** The cart `updateDeliveryFee` saves. */
  function AfterDeliveryFee(s: CartState, fee: real, now: int): (t: CartState)
    ensures Totalled(t) && t.deliveryFee == fee
    ensures t == s.(deliveryFee := fee, totalAmount := t.totalAmount, updatedAt := now)
  {
    Recalculated(s.(deliveryFee := fee)).(updatedAt := now)
  }

  /** The line `addToCart` builds: the menu item's id, name, price and image, the requested quantity (1 by default). */
  function LineFor(m: MenuItem, quantity: Option<int>, instructions: Option<string>): (l: CartItem)
    ensures l.menuItemId == m.id && l.name == m.name && l.price == m.price && l.imageUrl == Some(m.imageUrl)
    ensures quantity.None? ==> l.quantity == 1
    ensures quantity.Some? ==> l.quantity == quantity.value
  {
    CartItem(m.id, m.name, m.price, quantity.GetOr(1), instructions, Some(m.imageUrl))
  }

  /** The cart `addToCart` saves, starting from the found cart or a new empty one. */
  function AfterAdd(s: CartState, line: CartItem, now: int): (t: CartState)
    ensures Totalled(t)
    ensures t == s.(items := Merged(s.items, line), totalAmount := t.totalAmount, updatedAt := now)
  {
    Recalculated(s.(items := Merged(s.items, line))).(updatedAt := now)
  }

  function EmptyCart(user: Id, now: int): CartState {
    CartState(user, [], 0.0, 0.0, 0.0, None, now)
  }

  // ---------------------------------------------------------------- handlers

  /** `getCart`: the found cart, or a new empty one that is saved. */
  method GetCart(uid: Id, found: Cart?, now: int) returns (cart: Cart)
    ensures found != null ==> cart == found
    ensures found == null ==> fresh(cart) && cart.State() == EmptyCart(uid, now)
  {
    if found != null {
      cart := found;
    } else {
      cart := new Cart(uid, now);
      cart.Save(now);
    }
  }

  /** `addToCart`: 404 for an unknown menu item and no cart touched; otherwise the line is merged into the (new) cart. */
  method AddToCart(menu: map<Id, MenuItem>, uid: Id, found: Cart?, menuItemId: Id,
                   quantity: Option<int>, instructions: Option<string>, now: int)
    returns (code: int, cart: Cart?)
    requires found != null ==> found.user == uid
    modifies found
    ensures menuItemId !in menu ==> code == NotFound && cart == null && (found != null ==> unchanged(found))
    ensures menuItemId in menu ==> code == Ok && cart != null && cart.user == uid
    ensures menuItemId in menu && found != null ==>
              cart == found
              && cart.State() == AfterAdd(old(found.State()), LineFor(menu[menuItemId], quantity, instructions), now)
    ensures menuItemId in menu && found == null ==>
              fresh(cart)
              && cart.State() == AfterAdd(EmptyCart(uid, now), LineFor(menu[menuItemId], quantity, instructions), now)
  {
    if menuItemId !in menu {
      return NotFound, null;
    }
    var m := menu[menuItemId];
    if found == null {
      cart := new Cart(uid, now);
    } else {
      cart := found;
    }
    cart.AddItem(LineFor(m, quantity, instructions));
    cart.Save(now);
    code := Ok;
  }

  /** `updateCartItem`: 404 without a cart, otherwise `updateItemQuantity` and save. */
  method UpdateCartItem(found: Cart?, menuItemId: Id, quantity: int, now: int) returns (code: int)
    modifies found
    ensures found == null ==> code == NotFound
    ensures found != null ==> code == Ok
    ensures found != null && IndexOf(old(found.items), menuItemId) == -1 ==>
              found.State() == old(found.State()).(updatedAt := now)
    ensures found != null && IndexOf(old(found.items), menuItemId) >= 0 && quantity <= 0 ==>
              found.State() == Recalculated(old(found.State()).(items := Without(old(found.items), menuItemId))).(updatedAt := now)
    ensures found != null && IndexOf(old(found.items), menuItemId) >= 0 && quantity > 0 ==>
              var k := IndexOf(old(found.items), menuItemId);
              found.State() == Recalculated(old(found.State()).(items := old(found.items)[k := old(found.items)[k].(quantity := quantity)])).(updatedAt := now)
  {
    if found == null {
      return NotFound;
    }
    found.UpdateItemQuantity(menuItemId, quantity);
    found.Save(now);
    code := Ok;
  }

  /** `removeFromCart`: 404 without a cart, otherwise `removeItem` and save. */
  method RemoveFromCart(found: Cart?, menuItemId: Id, now: int) returns (code: int)
    modifies found
    ensures found == null ==> code == NotFound
    ensures found != null ==>
              code == Ok
              && found.State() == Recalculated(old(found.State()).(items := Without(old(found.items), menuItemId))).(updatedAt := now)
  {
    if found == null {
      return NotFound;
    }
    found.RemoveItem(menuItemId);
    found.Save(now);
    code := Ok;
  }

  /** `clearCart`: 404 without a cart, otherwise the cart's `clearCart` and save. */
  method ClearCart(found: Cart?, now: int) returns (code: int)
    modifies found
    ensures found == null ==> code == NotFound
    ensures found != null ==>
              code == Ok && found.State() == EmptyCart(old(found.user), now)
  {
    if found == null {
      return NotFound;
    }
    found.ClearCart();
    found.Save(now);
    code := Ok;
  }

  /** `applyPromoCode`: 404 without a cart, 400 and no change for an unknown code. */
  method ApplyPromoCode(found: Cart?, promo: string, now: int) returns (code: int)
    modifies found
    ensures found == null ==> code == NotFound
    ensures found != null && AfterPromo(old(found.State()), promo, now).None? ==>
              code == Invalid && unchanged(found)
    ensures found != null && AfterPromo(old(found.State()), promo, now).Some? ==>
              code == Ok && found.State() == AfterPromo(old(found.State()), promo, now).value
  {
    if found == null {
      return NotFound;
    }
    var discount: real;
    if promo == "SAVE10" {
      discount := found.totalAmount * 0.1;
    } else if promo == "SAVE5" {
      discount := 5.0;
    } else {
      return Invalid;
    }
    found.promoCode := Some(promo);
    found.discountAmount := discount;
    var _ := found.CalculateTotal();
    found.Save(now);
    code := Ok;
  }

  /** `updateDeliveryFee`: 404 without a cart, otherwise the fee is stored and the total recomputed. */
  method UpdateDeliveryFee(found: Cart?, fee: real, now: int) returns (code: int)
    modifies found
    ensures found == null ==> code == NotFound
    ensures found != null ==> code == Ok && found.State() == AfterDeliveryFee(old(found.State()), fee, now)
  {
    if found == null {
      return NotFound;
    }
    found.deliveryFee := fee;
    var _ := found.CalculateTotal();
    found.Save(now);
    code := Ok;
  }

  // ---------------------------------------------------------------- properties

  /** A new menu item lands as one new line carrying the menu item's fields. */
  lemma AddNewLine(s: CartState, m: MenuItem, quantity: Option<int>, instructions: Option<string>, now: int)
    requires IndexOf(s.items, m.id) == -1
    ensures var t := AfterAdd(s, LineFor(m, quantity, instructions), now);
            |t.items| == |s.items| + 1
            && t.items[|s.items|] == CartItem(m.id, m.name, m.price, quantity.GetOr(1), instructions, Some(m.imageUrl))
            && (Totalled(s) ==> t.totalAmount == s.totalAmount + Cost(m.price, quantity.GetOr(1)))
  {
    AppendTotal(s.items, LineFor(m, quantity, instructions));
  }

  /** Adding a menu item already in the cart raises that line's quantity and keeps one line per menu item. */
  lemma AddExistingLine(s: CartState, m: MenuItem, quantity: Option<int>, instructions: Option<string>, now: int)
    requires UniqueIds(s.items) && IndexOf(s.items, m.id) >= 0
    ensures var t := AfterAdd(s, LineFor(m, quantity, instructions), now);
            var k := IndexOf(s.items, m.id);
            |t.items| == |s.items| && UniqueIds(t.items)
            && t.items[k] == s.items[k].(quantity := s.items[k].quantity + quantity.GetOr(1))
            && (Totalled(s) ==> t.totalAmount == s.totalAmount + Cost(s.items[k].price, quantity.GetOr(1)))
  {
    MergedUnique(s.items, LineFor(m, quantity, instructions));
    MergedTotal(s.items, LineFor(m, quantity, instructions));
  }

  /**
   * SAVE10 takes a tenth of the STORED total, which already has any earlier
   * discount taken off: applied twice to a cart worth b with no discount, the
   * total goes to 0.9 b and then to 0.91 b, not staying at 0.9 b.
   */
  lemma Save10Reapplied(s: CartState, now: int)
    requires Totalled(s) && s.discountAmount == 0.0
    ensures var b := ItemsTotal(s.items) + s.deliveryFee;
            var once := AfterPromo(s, "SAVE10", now).value;
            var twice := AfterPromo(once, "SAVE10", now).value;
            once.totalAmount == b * 0.9 && twice.totalAmount == b * 0.91
            && (b != 0.0 ==> twice.discountAmount != once.discountAmount)
  {
  }

  /** SAVE5 is a fixed amount, so applying it again leaves the cart as it was. */
  lemma Save5Idempotent(s: CartState, now: int)
    ensures var once := AfterPromo(s, "SAVE5", now).value;
            AfterPromo(once, "SAVE5", now).value == once
  {
  }
}
