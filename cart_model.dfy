/**
 * The Cart document and its methods (src/models/Cart.js).  A cart is an
 * object whose fields the methods update in place; each method is proved
 * against the functions `ItemsTotal`, `IndexOf`, `Merged` and `Without`,
 * about which the lemmas below state what the cart promises: one line per
 * menu item, totals that follow the items, removal that keeps the rest in
 * order.
 */
module CartModel {
  import opened Wrappers

  type Id = string

  /** A cart line; `specialInstructions` and `imageUrl` are None when unset. */
  datatype CartItem = CartItem(menuItemId: Id, name: string, price: real, quantity: int,
                               specialInstructions: Option<string>, imageUrl: Option<string>)

  /** The cost of a quantity at a price. */
  function Cost(price: real, quantity: int): real {
    price * quantity as real
  }

  function LineTotal(it: CartItem): real {
    Cost(it.price, it.quantity)
  }

  /** Σ price × quantity, summed from the left as `reduce` does. */
  function ItemsTotal(items: seq<CartItem>): real {
    if |items| == 0 then 0.0 else ItemsTotal(items[..|items| - 1]) + LineTotal(items[|items| - 1])
  }

  /** The position `find`/`findIndex` stops at: the first line for that menu item, or -1. */
  function IndexOf(items: seq<CartItem>, id: Id): (k: int)
    ensures -1 <= k < |items|
    ensures k == -1 <==> forall i :: 0 <= i < |items| ==> items[i].menuItemId != id
    ensures k >= 0 ==> items[k].menuItemId == id && forall i :: 0 <= i < k ==> items[i].menuItemId != id
  {
    if |items| == 0 then -1
    else if items[0].menuItemId == id then 0
    else
      var k := IndexOf(items[1..], id);
      assert forall i :: 1 <= i < |items| ==> items[i] == items[1..][i - 1];
      if k == -1 then -1 else k + 1
  }

  /** At most one line per menu item. */
  predicate UniqueIds(items: seq<CartItem>) {
    forall i, j :: 0 <= i < j < |items| ==> items[i].menuItemId != items[j].menuItemId
  }

  /** `addItem`'s list: the quantity is added to an existing line, or the item is appended. */
  function Merged(items: seq<CartItem>, item: CartItem): (r: seq<CartItem>)
    ensures |items| <= |r| <= |items| + 1
    ensures forall i :: 0 <= i < |items| && items[i].menuItemId != item.menuItemId ==> r[i] == items[i]
  {
    var k := IndexOf(items, item.menuItemId);
    if k == -1 then items + [item]
    else items[k := items[k].(quantity := items[k].quantity + item.quantity)]
  }

  /** `removeItem`'s list: `filter` keeping the lines for other menu items. */
  function Without(items: seq<CartItem>, id: Id): (r: seq<CartItem>)
    ensures |r| <= |items|
    ensures forall i :: 0 <= i < |r| ==> r[i].menuItemId != id
  {
    if |items| == 0 then []
    else Without(items[..|items| - 1], id)
         + (if items[|items| - 1].menuItemId != id then [items[|items| - 1]] else [])
  }

  // ---------------------------------------------------------------- lemmas

  lemma {:induction false} ItemsTotalAppend(a: seq<CartItem>, b: seq<CartItem>)
    ensures ItemsTotal(a + b) == ItemsTotal(a) + ItemsTotal(b)
    decreases |b|
  {
    if |b| == 0 {
      assert a + b == a;
    } else {
      assert (a + b)[..|a + b| - 1] == a + b[..|b| - 1];
      ItemsTotalAppend(a, b[..|b| - 1]);
    }
  }

  /** Replacing one line changes the total by the difference of the two line totals. */
  lemma ItemsTotalUpdate(items: seq<CartItem>, k: nat, x: CartItem)
    requires k < |items|
    ensures ItemsTotal(items[k := x]) == ItemsTotal(items) - LineTotal(items[k]) + LineTotal(x)
  {
    var pre, post := items[..k], items[k + 1..];
    assert items == pre + [items[k]] + post;
    assert items[k := x] == pre + [x] + post;
    ItemsTotalAppend(pre + [items[k]], post);
    ItemsTotalAppend(pre, [items[k]]);
    ItemsTotalAppend(pre + [x], post);
    ItemsTotalAppend(pre, [x]);
    assert ItemsTotal([x]) == LineTotal(x) by { assert [x][..0] == []; }
    assert ItemsTotal([items[k]]) == LineTotal(items[k]) by { assert [items[k]][..0] == []; }
  }

  /** Adding lengthens the list only for a new menu item. */
  lemma MergedShape(items: seq<CartItem>, item: CartItem)
    ensures var k := IndexOf(items, item.menuItemId);
            |Merged(items, item)| == |items| + (if k == -1 then 1 else 0)
    ensures var m := Merged(items, item);
            IndexOf(m, item.menuItemId) >= 0
            && forall i :: 0 <= i < |items| && items[i].menuItemId != item.menuItemId ==> m[i] == items[i]
  {
    var k := IndexOf(items, item.menuItemId);
    var m := Merged(items, item);
    if k == -1 {
      assert m[|items|].menuItemId == item.menuItemId;
    } else {
      assert m[k].menuItemId == item.menuItemId;
    }
  }

  /** Adding keeps one line per menu item. */
  lemma MergedUnique(items: seq<CartItem>, item: CartItem)
    requires UniqueIds(items)
    ensures UniqueIds(Merged(items, item))
  {
    var k := IndexOf(items, item.menuItemId);
    var m := Merged(items, item);
    if k != -1 {
      assert forall i :: 0 <= i < |m| ==> m[i].menuItemId == items[i].menuItemId;
    } else {
      forall i, j | 0 <= i < j < |m|
        ensures m[i].menuItemId != m[j].menuItemId
      {
        if j == |items| {
          assert m[i] == items[i];
        } else {
          assert m[i] == items[i] && m[j] == items[j];
        }
      }
    }
  }

  /** Adding raises the items total by the added quantity at the price of the line it lands on. */
  lemma MergedTotal(items: seq<CartItem>, item: CartItem)
    ensures IndexOf(items, item.menuItemId) == -1 ==>
              ItemsTotal(Merged(items, item)) == ItemsTotal(items) + Cost(item.price, item.quantity)
    ensures IndexOf(items, item.menuItemId) >= 0 ==>
              ItemsTotal(Merged(items, item))
              == ItemsTotal(items) + Cost(items[IndexOf(items, item.menuItemId)].price, item.quantity)
  {
    var k := IndexOf(items, item.menuItemId);
    if k == -1 {
      assert Merged(items, item) == items + [item];
      AppendTotal(items, item);
    } else {
      assert Merged(items, item) == items[k := items[k].(quantity := items[k].quantity + item.quantity)];
      BumpTotal(items, k, item.quantity);
    }
  }

  lemma AppendTotal(items: seq<CartItem>, item: CartItem)
    ensures ItemsTotal(items + [item]) == ItemsTotal(items) + Cost(item.price, item.quantity)
  {
    ItemsTotalAppend(items, [item]);
    assert ItemsTotal([item]) == LineTotal(item) by { assert [item][..0] == []; }
  }

  lemma BumpTotal(items: seq<CartItem>, k: nat, q: int)
    requires k < |items|
    ensures ItemsTotal(items[k := items[k].(quantity := items[k].quantity + q)])
         == ItemsTotal(items) + Cost(items[k].price, q)
  {
    var line := items[k];
    var x := line.(quantity := line.quantity + q);
    ItemsTotalUpdate(items, k, x);
    Distribute(line.price, line.quantity, q);
  }

  lemma Distribute(p: real, a: int, b: int)
    ensures Cost(p, a + b) == Cost(p, a) + Cost(p, b)
  {
  }

  lemma {:induction false} WithoutAppend(a: seq<CartItem>, b: seq<CartItem>, id: Id)
    ensures Without(a + b, id) == Without(a, id) + Without(b, id)
    decreases |b|
  {
    if |b| == 0 {
      assert a + b == a;
    } else {
      assert (a + b)[..|a + b| - 1] == a + b[..|b| - 1];
      WithoutAppend(a, b[..|b| - 1], id);
    }
  }

  /** Removal keeps exactly the lines for other menu items. */
  lemma {:induction false} WithoutMembers(items: seq<CartItem>, id: Id, x: CartItem)
    ensures x in Without(items, id) <==> x in items && x.menuItemId != id
    decreases |items|
  {
    if |items| > 0 {
      var init := items[..|items| - 1];
      WithoutMembers(init, id, x);
      assert items == init + [items[|items| - 1]];
    }
  }

  /** With no line for that menu item, removal changes nothing, so the order of what remains is the original one. */
  lemma {:induction false} WithoutAbsent(items: seq<CartItem>, id: Id)
    requires forall i :: 0 <= i < |items| ==> items[i].menuItemId != id
    ensures Without(items, id) == items
    decreases |items|
  {
    if |items| > 0 {
      var init := items[..|items| - 1];
      WithoutAbsent(init, id);
      assert items == init + [items[|items| - 1]];
    }
  }

  /** Removing the single line of a menu item lowers the items total by that line's total. */
  lemma WithoutTotal(items: seq<CartItem>, id: Id)
    requires UniqueIds(items) && IndexOf(items, id) >= 0
    ensures ItemsTotal(Without(items, id)) == ItemsTotal(items) - LineTotal(items[IndexOf(items, id)])
  {
    var k := IndexOf(items, id);
    var pre, mid, post := items[..k], [items[k]], items[k + 1..];
    assert items == pre + mid + post;
    assert forall i :: 0 <= i < |post| ==> post[i] == items[k + 1 + i];
    WithoutSplit(pre, mid, post, id);
    ItemsTotalAppend(pre + mid, post);
    ItemsTotalAppend(pre, mid);
    ItemsTotalAppend(pre, post);
    assert ItemsTotal(mid) == LineTotal(items[k]) by { assert mid[..0] == []; }
  }

  /** The helper of WithoutTotal: removal around the one line of that menu item. */
  lemma WithoutSplit(pre: seq<CartItem>, mid: seq<CartItem>, post: seq<CartItem>, id: Id)
    requires |mid| == 1 && mid[0].menuItemId == id
    requires forall i :: 0 <= i < |pre| ==> pre[i].menuItemId != id
    requires forall i :: 0 <= i < |post| ==> post[i].menuItemId != id
    ensures Without(pre + mid + post, id) == pre + post
  {
    assert Without(mid, id) == [] by { assert mid[..0] == []; }
    assert Without(pre + mid, id) == pre by {
      WithoutAppend(pre, mid, id);
      WithoutAbsent(pre, id);
      assert pre + [] == pre;
    }
    assert Without(post, id) == post by { WithoutAbsent(post, id); }
    WithoutAppend(pre + mid, post, id);
  }

  // ---------------------------------------------------------------- the cart object

  /** Every field of a cart, to say in one line what a method leaves alone. */
  datatype CartState = CartState(user: Id, items: seq<CartItem>, totalAmount: real, deliveryFee: real,
                                 discountAmount: real, promoCode: Option<string>, updatedAt: int)

  /** The stored total is the one `calculateTotal` would compute from the other fields. */
  predicate Totalled(s: CartState) {
    s.totalAmount == ItemsTotal(s.items) + s.deliveryFee - s.discountAmount
  }

  /** The state `calculateTotal` leaves: only the total changes, and it follows the other fields. */
  function Recalculated(s: CartState): (t: CartState)
    ensures Totalled(t)
    ensures t == s.(totalAmount := t.totalAmount)
    ensures Totalled(s) ==> t == s
  {
    s.(totalAmount := ItemsTotal(s.items) + s.deliveryFee - s.discountAmount)
  }

  class Cart {
    var user: Id
    var items: seq<CartItem>
    var totalAmount: real
    var deliveryFee: real
    var discountAmount: real
    var promoCode: Option<string>
    var updatedAt: int

    function State(): CartState
      reads this
    {
      CartState(user, items, totalAmount, deliveryFee, discountAmount, promoCode, updatedAt)
    }

    /** The stored total is the one `calculateTotal` would compute now. */
    predicate TotalUpToDate()
      reads this
    {
      Totalled(State())
    }

    /** `new Cart({user, items: []})`: every amount 0, no promo code. */
    constructor (user: Id, now: int)
      ensures State() == CartState(user, [], 0.0, 0.0, 0.0, None, now)
      ensures TotalUpToDate()
    {
      this.user := user;
      items := [];
      totalAmount := 0.0;
      deliveryFee := 0.0;
      discountAmount := 0.0;
      promoCode := None;
      updatedAt := now;
    }

    /** `calculateTotal`: the items total plus the delivery fee minus the discount, stored and returned. */
    method CalculateTotal() returns (total: real)
      modifies this
      ensures State() == Recalculated(old(State()))
      ensures total == totalAmount
    {
      var sum := 0.0;
      var i := 0;
      while i < |items|
        invariant 0 <= i <= |items|
        invariant sum == ItemsTotal(items[..i])
      {
        assert items[..i + 1][..i] == items[..i];
        sum := sum + items[i].price * items[i].quantity as real;
        i := i + 1;
      }
      assert items[..|items|] == items;
      totalAmount := sum + deliveryFee - discountAmount;
      total := totalAmount;
    }

    /** The `find` over the items. */
    method FindIndex(id: Id) returns (k: int)
      ensures k == IndexOf(items, id)
    {
      k := 0;
      while k < |items| && items[k].menuItemId != id
        invariant 0 <= k <= |items|
        invariant forall i :: 0 <= i < k ==> items[i].menuItemId != id
      {
        k := k + 1;
      }
      if k == |items| {
        k := -1;
      }
    }

    /** `addItem`. */
    method AddItem(item: CartItem)
      modifies this
      ensures State() == old(State()).(items := Merged(old(items), item), totalAmount := totalAmount)
      ensures TotalUpToDate()
    {
      var k := FindIndex(item.menuItemId);
      if k >= 0 {
        items := items[k := items[k].(quantity := items[k].quantity + item.quantity)];
      } else {
        items := items + [item];
      }
      var _ := CalculateTotal();
    }

    /** `removeItem`: the `filter`, then the total. */
    method RemoveItem(id: Id)
      modifies this
      ensures State() == old(State()).(items := Without(old(items), id), totalAmount := totalAmount)
      ensures TotalUpToDate()
    {
      var kept: seq<CartItem> := [];
      var i := 0;
      while i < |items|
        invariant 0 <= i <= |items|
        invariant kept == Without(items[..i], id)
      {
        assert items[..i + 1][..i] == items[..i];
        if items[i].menuItemId != id {
          kept := kept + [items[i]];
        }
        i := i + 1;
      }
      assert items[..|items|] == items;
      items := kept;
      var _ := CalculateTotal();
    }

    /** `updateItemQuantity`: an unknown id changes nothing, a quantity of 0 or less removes the line. */
    method UpdateItemQuantity(id: Id, quantity: int)
      modifies this
      ensures IndexOf(old(items), id) == -1 ==> State() == old(State())
      ensures IndexOf(old(items), id) >= 0 && quantity <= 0 ==>
                State() == old(State()).(items := Without(old(items), id), totalAmount := totalAmount)
                && TotalUpToDate()
      ensures IndexOf(old(items), id) >= 0 && quantity > 0 ==>
                var k := IndexOf(old(items), id);
                State() == old(State()).(items := old(items)[k := old(items)[k].(quantity := quantity)],
                                         totalAmount := totalAmount)
                && TotalUpToDate()
    {
      var k := FindIndex(id);
      if k >= 0 {
        if quantity <= 0 {
          RemoveItem(id);
        } else {
          items := items[k := items[k].(quantity := quantity)];
        }
        var _ := CalculateTotal();
      }
    }

    /** `clearCart`: no items, every amount 0 and no promo code. */
    method ClearCart()
      modifies this
      ensures State() == old(State()).(items := [], totalAmount := 0.0, deliveryFee := 0.0,
                                       discountAmount := 0.0, promoCode := None)
      ensures TotalUpToDate()
    {
      items := [];
      totalAmount := 0.0;
      deliveryFee := 0.0;
      discountAmount := 0.0;
      promoCode := None;
    }

    /** `cart.save()`: the pre-save hook stamps updatedAt. */
    method Save(now: int)
      modifies this
      ensures State() == old(State()).(updatedAt := now)
    {
      updatedAt := now;
    }
  }
}
