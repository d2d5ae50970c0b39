/** Cart rules of the cashier dashboards (`addToCart`, `removeFromCart`).
    The two dashboard components carry the same code for these, so one
    model serves both. */
module DashboardCart {
  import opened JsValues
  import opened Cart

  /** `addToCart(product)`: refuse a product without stock, refuse one more
      unit than the clicked product's stock, else increment or append. */
  function AddToCart(cart: seq<CartLine>, p: Product): (r: CartUpdate)
  {
    if p.stock <= 0 then CartUpdate(cart, Some(NotEnoughStock(p.name)))
    else match Find(cart, p.id)
      case Some(i) =>
        if cart[i].quantity + 1 > p.stock then CartUpdate(cart, Some(NotEnoughStock(p.name)))
        else CartUpdate(ShiftQuantity(cart, p.id, 1), None)
      case None => CartUpdate(cart + [CartLine(p, 1)], None)
  }

  /** `removeFromCart(id)`: one unit less, or the line goes when it held one.
      The source dereferences the found line, so the id must be in the cart. */
  function RemoveFromCart(cart: seq<CartLine>, id: ProductId): (r: seq<CartLine>)
    requires HasId(cart, id)
  {
    var i := Find(cart, id).value;
    if cart[i].quantity > 1 then ShiftQuantity(cart, id, -1) else RemoveId(cart, id)
  }

  // ---------------------------------------------------------------------------
  // addToCart

  /** The refusals: no stock at all, or one more unit than the stock allows.
      A refused add leaves the cart exactly as it was. */
  lemma AddRefusals(cart: seq<CartLine>, p: Product)
    ensures AddToCart(cart, p).error.Some? <==>
      p.stock <= 0 || (HasId(cart, p.id) && cart[Find(cart, p.id).value].quantity + 1 > p.stock)
    ensures AddToCart(cart, p).error.Some? ==>
      AddToCart(cart, p) == CartUpdate(cart, Some(NotEnoughStock(p.name)))
  {
  }

  /** An accepted add of a product already in the cart raises that line by
      exactly one and leaves every other line as it was. */
  lemma AddExisting(cart: seq<CartLine>, p: Product, i: nat)
    requires UniqueIds(cart) && i < |cart| && cart[i].Id() == p.id
    requires AddToCart(cart, p).error.None?
    ensures AddToCart(cart, p).cart == cart[i := cart[i].(quantity := cart[i].quantity + 1)]
    ensures cart[i].quantity + 1 <= p.stock
  {
    assert Find(cart, p.id) == Some(i);
    ShiftQuantityAt(cart, i, 1);
  }

  /** An accepted add of a new product appends one line of quantity 1 holding
      the product snapshot. */
  lemma AddNew(cart: seq<CartLine>, p: Product)
    requires !HasId(cart, p.id) && p.stock > 0
    ensures AddToCart(cart, p) == CartUpdate(cart + [CartLine(p, 1)], None)
  {
  }

  /** Adding keeps the cart's invariants: unique ids, positive quantities, and
      (when the clicked product is the snapshot the line holds) quantity
      within stock. */
  lemma AddPreservesInvariants(cart: seq<CartLine>, p: Product)
    requires UniqueIds(cart) && QuantitiesPositive(cart) && WithinStock(cart)
    requires forall i :: 0 <= i < |cart| && cart[i].Id() == p.id ==> cart[i].product.stock == p.stock
    ensures UniqueIds(AddToCart(cart, p).cart)
    ensures QuantitiesPositive(AddToCart(cart, p).cart)
    ensures WithinStock(AddToCart(cart, p).cart)
  {
    var r := AddToCart(cart, p);
    if r.error.None? {
      match Find(cart, p.id)
      case Some(i) => AddExisting(cart, p, i);
      case None =>
    }
  }

  /** An accepted add raises the total by the price of the line it touched. */
  lemma AddTotal(cart: seq<CartLine>, p: Product)
    requires UniqueIds(cart)
    requires AddToCart(cart, p).error.None?
    ensures Total(AddToCart(cart, p).cart) == Total(cart) +
      (if HasId(cart, p.id) then cart[Find(cart, p.id).value].product.price else p.price)
  {
    var f := Find(cart, p.id);
    if f.Some? {
      AddExisting(cart, p, f.value);
      LineStepTotal(cart, f.value);
    } else {
      AddNew(cart, p);
      TotalAppend(cart, [CartLine(p, 1)]);
      assert Total([CartLine(p, 1)]) == p.price;
    }
  }

  /** One more unit on line `i` adds that line's unit price to the total. */
  lemma LineStepTotal(cart: seq<CartLine>, i: nat)
    requires i < |cart|
    ensures Total(cart[i := cart[i].(quantity := cart[i].quantity + 1)]) == Total(cart) + cart[i].product.price
  {
    var line := cart[i].(quantity := cart[i].quantity + 1);
    TotalReplace(cart, i, line);
    SubtotalStep(cart[i], 1);
  }

  // ---------------------------------------------------------------------------
  // removeFromCart

  /** Removing decrements a line holding more than one unit and deletes a
      line holding one; every other line is kept in order. */
  lemma RemoveEffect(cart: seq<CartLine>, i: nat)
    requires UniqueIds(cart) && i < |cart|
    ensures cart[i].quantity > 1 ==>
      RemoveFromCart(cart, cart[i].Id()) == cart[i := cart[i].(quantity := cart[i].quantity - 1)]
    ensures cart[i].quantity <= 1 ==>
      RemoveFromCart(cart, cart[i].Id()) == cart[..i] + cart[i + 1..]
  {
    assert Find(cart, cart[i].Id()) == Some(i);
    if cart[i].quantity > 1 {
      ShiftQuantityAt(cart, i, -1);
    } else {
      RemoveIdDeletesLine(cart, i);
    }
  }

  /** Removing keeps ids unique and quantities positive and within stock. */
  lemma RemovePreservesInvariants(cart: seq<CartLine>, id: ProductId)
    requires UniqueIds(cart) && QuantitiesPositive(cart) && WithinStock(cart) && HasId(cart, id)
    ensures UniqueIds(RemoveFromCart(cart, id))
    ensures QuantitiesPositive(RemoveFromCart(cart, id))
    ensures WithinStock(RemoveFromCart(cart, id))
  {
    var i := Find(cart, id).value;
    RemoveEffect(cart, i);
    if cart[i].quantity <= 1 {
      DeleteLineUnique(cart, i);
    }
  }

  /** Removing lowers the total by the unit price of the line it touched. */
  lemma RemoveTotal(cart: seq<CartLine>, id: ProductId)
    requires UniqueIds(cart) && QuantitiesPositive(cart) && HasId(cart, id)
    ensures Total(RemoveFromCart(cart, id)) == Total(cart) - cart[Find(cart, id).value].product.price
  {
    var i := Find(cart, id).value;
    RemoveEffect(cart, i);
    if cart[i].quantity > 1 {
      TotalReplace(cart, i, cart[i].(quantity := cart[i].quantity - 1));
      SubtotalStep(cart[i], -1);
    } else {
      assert cart == cart[..i] + [cart[i]] + cart[i + 1..];
      TotalAppend(cart[..i] + [cart[i]], cart[i + 1..]);
      TotalAppend(cart[..i], [cart[i]]);
      TotalAppend(cart[..i], cart[i + 1..]);
      assert Total([cart[i]]) == Subtotal(cart[i]);
      assert Subtotal(cart[i]) == cart[i].product.price * 1;
    }
  }

  /** Removing a product right after adding it gives back the cart. */
  lemma AddThenRemove(cart: seq<CartLine>, p: Product)
    requires UniqueIds(cart) && QuantitiesPositive(cart)
    requires AddToCart(cart, p).error.None?
    ensures HasId(AddToCart(cart, p).cart, p.id)
    ensures RemoveFromCart(AddToCart(cart, p).cart, p.id) == cart
  {
    var added := AddToCart(cart, p).cart;
    match Find(cart, p.id)
    case Some(i) =>
      AddExisting(cart, p, i);
      RemoveEffect(added, i);
      assert added[i].Id() == p.id;
    case None =>
      var n := |cart|;
      assert added[n].Id() == p.id;
      RemoveEffect(added, n);
      assert added[..n] + added[n + 1..] == cart;
  }
}
