/** The sales panel `Prueba` (frontend/src/componentes/Prueba2.js): its own
    cart rules, which differ from the dashboards', and the product search. */
module Prueba2Cart {
  import opened JsValues
  import opened Cart
  import DashboardCart

  /** The alerts the panel raises when it refuses a cart change. */
  datatype Alert =
    | StockUnavailable        // 'No hay suficiente stock disponible'
    | AtMostUnits(units: int) // 'No puedes agregar más de <stock> unidades ...'

  datatype Change = Change(cart: seq<CartLine>, alert: Option<Alert>)

  /** `data.find(p => p.id === id)`, as the index of the first match. */
  function FindProduct(data: seq<Product>, id: ProductId): (r: Option<nat>)
    ensures r.Some? ==> r.value < |data| && data[r.value].id == id
    ensures r.Some? ==> forall j :: 0 <= j < r.value ==> data[j].id != id
    ensures r.None? ==> forall j :: 0 <= j < |data| ==> data[j].id != id
  {
    if data == [] then None
    else if data[0].id == id then Some(0)
    else match FindProduct(data[1..], id)
      case None => None
      case Some(k) => Some(k + 1)
  }

  /** `addToCart(product)`: a line already at the clicked product's stock is
      refused; a new product needs a stock of at least one. */
  function AddToCart(cart: seq<CartLine>, p: Product): (r: Change)
  {
    match Find(cart, p.id)
    case Some(i) =>
      if cart[i].quantity >= p.stock then Change(cart, Some(StockUnavailable))
      else Change(ShiftQuantity(cart, p.id, 1), None)
    case None =>
      if p.stock < 1 then Change(cart, Some(StockUnavailable))
      else Change(cart + [CartLine(p, 1)], None)
  }

  /** `removeFromCart(id)`: drop every line with that id. */
  function RemoveFromCart(cart: seq<CartLine>, id: ProductId): (r: seq<CartLine>)
    ensures !HasId(r, id)
  {
    RemoveIdKeepsOthers(cart, id);
    RemoveId(cart, id)
  }

  /** `updateQuantity(id, q)`: below one removes the line; above the stock of
      the product in the loaded list is refused; otherwise the quantity is
      set. A product missing from the list is not bounded at all. */
  function UpdateQuantity(cart: seq<CartLine>, data: seq<Product>, id: ProductId, q: int): (r: Change)
  {
    if q < 1 then Change(RemoveFromCart(cart, id), None)
    else match FindProduct(data, id)
      case Some(j) =>
        if q > data[j].stock then Change(cart, Some(AtMostUnits(data[j].stock)))
        else Change(SetQuantity(cart, id, q), None)
      case None => Change(SetQuantity(cart, id, q), None)
  }

  /** `handleSearch`: the lower-cased term; the whole list when it is empty,
      else the products whose lower-cased name contains it. */
  function HandleSearch(data: seq<Product>, input: string): (r: seq<Product>)
  {
    var term := Lower(input);
    if term == "" then data else Filter(data, (p: Product) => Includes(Lower(p.name), term))
  }

  // ---------------------------------------------------------------------------
  // addToCart

  /** Refusals leave the cart unchanged; the conditions are "already at stock"
      for a present product and "stock below one" for a new one. */
  lemma AddRefusals(cart: seq<CartLine>, p: Product)
    ensures AddToCart(cart, p).alert.Some? <==>
      if HasId(cart, p.id) then cart[Find(cart, p.id).value].quantity >= p.stock else p.stock < 1
    ensures AddToCart(cart, p).alert.Some? ==> AddToCart(cart, p).cart == cart
    ensures AddToCart(cart, p).alert.None? && !HasId(cart, p.id) ==>
      AddToCart(cart, p).cart == cart + [CartLine(p, 1)]
  {
  }

  /** On a cart whose quantities are positive, this panel's `addToCart` and
      the dashboards' accept and refuse the same clicks with the same carts. */
  lemma AddAgreesWithDashboard(cart: seq<CartLine>, p: Product)
    requires QuantitiesPositive(cart)
    ensures AddToCart(cart, p).cart == DashboardCart.AddToCart(cart, p).cart
    ensures AddToCart(cart, p).alert.Some? <==> DashboardCart.AddToCart(cart, p).error.Some?
  {
    match Find(cart, p.id)
    case Some(i) => assert cart[i].quantity >= 1;
    case None =>
  }

  /** Adding keeps ids unique and quantities positive and within stock. */
  lemma AddPreservesInvariants(cart: seq<CartLine>, p: Product)
    requires UniqueIds(cart) && QuantitiesPositive(cart) && WithinStock(cart)
    requires forall i :: 0 <= i < |cart| && cart[i].Id() == p.id ==> cart[i].product.stock == p.stock
    ensures UniqueIds(AddToCart(cart, p).cart)
    ensures QuantitiesPositive(AddToCart(cart, p).cart)
    ensures WithinStock(AddToCart(cart, p).cart)
  {
    AddAgreesWithDashboard(cart, p);
    DashboardCart.AddPreservesInvariants(cart, p);
  }

  // ---------------------------------------------------------------------------
  // removeFromCart and updateQuantity

  /** Removing deletes the line of that id and keeps the others in order. */
  lemma RemoveDeletesLine(cart: seq<CartLine>, i: nat)
    requires UniqueIds(cart) && i < |cart|
    ensures RemoveFromCart(cart, cart[i].Id()) == cart[..i] + cart[i + 1..]
  {
    RemoveIdDeletesLine(cart, i);
  }

  /** A quantity below one is exactly a removal. */
  lemma UpdateBelowOne(cart: seq<CartLine>, data: seq<Product>, id: ProductId, q: int)
    requires q < 1
    ensures UpdateQuantity(cart, data, id, q) == Change(RemoveFromCart(cart, id), None)
    ensures !HasId(UpdateQuantity(cart, data, id, q).cart, id)
  {
  }

  /** Above the listed stock the change is refused and the cart unchanged;
      otherwise exactly the line of that id gets the new quantity. */
  lemma UpdateEffect(cart: seq<CartLine>, data: seq<Product>, i: nat, q: int)
    requires UniqueIds(cart) && i < |cart| && q >= 1
    ensures var r := UpdateQuantity(cart, data, cart[i].Id(), q);
      var j := FindProduct(data, cart[i].Id());
      if j.Some? && q > data[j.value].stock then r == Change(cart, Some(AtMostUnits(data[j.value].stock)))
      else r == Change(cart[i := cart[i].(quantity := q)], None)
  {
    SetQuantityAt(cart, i, q);
  }

  /** Updating a product that has no line leaves the cart as it is. */
  lemma UpdateAbsent(cart: seq<CartLine>, data: seq<Product>, id: ProductId, q: int)
    requires !HasId(cart, id) && q >= 1
    ensures UpdateQuantity(cart, data, id, q).cart == cart
  {
    SetQuantityAbsent(cart, id, q);
  }

  /** An update keeps ids unique and quantities positive; an accepted one
      gives the line of a listed product a quantity within the listed stock. */
  lemma UpdatePreservesInvariants(cart: seq<CartLine>, data: seq<Product>, id: ProductId, q: int)
    requires UniqueIds(cart) && QuantitiesPositive(cart)
    ensures UniqueIds(UpdateQuantity(cart, data, id, q).cart)
    ensures QuantitiesPositive(UpdateQuantity(cart, data, id, q).cart)
    ensures var r := UpdateQuantity(cart, data, id, q);
      r.alert.None? && q >= 1 && FindProduct(data, id).Some? ==>
        forall k :: 0 <= k < |r.cart| && r.cart[k].Id() == id ==>
          r.cart[k].quantity == q <= data[FindProduct(data, id).value].stock
  {
    var r := UpdateQuantity(cart, data, id, q).cart;
    if q < 1 {
      match Find(cart, id)
      case Some(i) =>
        RemoveIdDeletesLine(cart, i);
        DeleteLineUnique(cart, i);
      case None =>
        RemoveIdKeepsOthers(cart, id);
    } else {
      match Find(cart, id)
      case Some(i) => SetQuantityAt(cart, i, q);
      case None => SetQuantityAbsent(cart, id, q);
    }
  }

  // ---------------------------------------------------------------------------
  // handleSearch

  /** The search keeps exactly the products whose lower-cased name contains
      the lower-cased term, in list order; an empty term keeps them all. */
  lemma SearchSpec(data: seq<Product>, input: string)
    ensures Lower(input) == "" ==> HandleSearch(data, input) == data
    ensures forall p :: p in HandleSearch(data, input) <==>
      p in data && Includes(Lower(p.name), Lower(input))
    ensures Subsequence(HandleSearch(data, input), data)
  {
    var term := Lower(input);
    var keep := (p: Product) => Includes(Lower(p.name), term);
    if term == "" {
      forall p | p in data ensures keep(p) {
        IncludesEmpty(Lower(p.name));
      }
      FilterAll(data, keep);
    }
    FilterSpec(data, keep);
  }

  /** The shortcut for the empty term returns what the filter would. */
  lemma SearchShortcutAgrees(data: seq<Product>)
    ensures HandleSearch(data, "") == Filter(data, (p: Product) => Includes(Lower(p.name), ""))
  {
    var keep := (p: Product) => Includes(Lower(p.name), "");
    forall i | 0 <= i < |data| ensures keep(data[i]) {
      IncludesEmpty(Lower(data[i].name));
    }
    FilterAll(data, keep);
  }

  /** The search does not depend on the case of what was typed. */
  lemma SearchCaseInsensitive(data: seq<Product>, input: string)
    ensures HandleSearch(data, input) == HandleSearch(data, Lower(input))
  {
    LowerIdempotent(input);
  }
}
