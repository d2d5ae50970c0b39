/** The shopping cart shared by the three cashier screens: a sequence of
    lines, each a snapshot of a product (`{ ...product, quantity }`) plus
    the requested quantity. Prices are integer cents. */
module Cart {
  import opened JsValues

  type ProductId = int

  /** A row of the `products` table as the cashier screens load it. */
  datatype Product = Product(id: ProductId, name: string, price: int, stock: int)

  /** A cart line: the product as it was when first added, and the quantity. */
  datatype CartLine = CartLine(product: Product, quantity: int) {
    function Id(): ProductId { product.id }
  }

  /** The message `No hay suficiente stock de <name>` of a refused cart change. */
  datatype CartError = NotEnoughStock(productName: string)

  /** A cart after an operation, with the error the screen shows if it refused. */
  datatype CartUpdate = CartUpdate(cart: seq<CartLine>, error: Option<CartError>)

  predicate UniqueIds(cart: seq<CartLine>) {
    forall i, j :: 0 <= i < j < |cart| ==> cart[i].Id() != cart[j].Id()
  }

  predicate HasId(cart: seq<CartLine>, id: ProductId) {
    exists i :: 0 <= i < |cart| && cart[i].Id() == id
  }

  predicate QuantitiesPositive(cart: seq<CartLine>) {
    forall i :: 0 <= i < |cart| ==> cart[i].quantity >= 1
  }

  /** No line asks for more than the stock of its product snapshot. */
  predicate WithinStock(cart: seq<CartLine>) {
    forall i :: 0 <= i < |cart| ==> cart[i].quantity <= cart[i].product.stock
  }

  /** `cart.find(item => item.id === id)`, as the index of the first match. */
  function Find(cart: seq<CartLine>, id: ProductId): (r: Option<nat>)
    ensures r.Some? ==> r.value < |cart| && cart[r.value].Id() == id
    ensures r.Some? ==> forall j :: 0 <= j < r.value ==> cart[j].Id() != id
    ensures r.None? <==> !HasId(cart, id)
  {
    if cart == [] then None
    else if cart[0].Id() == id then Some(0)
    else match Find(cart[1..], id)
      case None => None
      case Some(k) => Some(k + 1)
  }

  /** The line subtotal `price * quantity`. */
  function Subtotal(line: CartLine): int {
    line.product.price * line.quantity
  }

  /** `calculateTotal`: the sum of `price * quantity` over the lines. */
  function Total(cart: seq<CartLine>): int {
    if cart == [] then 0 else Subtotal(cart[0]) + Total(cart[1..])
  }

  /** `cart.filter(item => item.id !== id)`. */
  function RemoveId(cart: seq<CartLine>, id: ProductId): (r: seq<CartLine>)
    ensures |r| <= |cart|
  {
    if cart == [] then []
    else (if cart[0].Id() == id then [] else [cart[0]]) + RemoveId(cart[1..], id)
  }

  /** `cart.map(item => item.id === id ? { ...item, quantity: q(item) } : item)`
      for a quantity change of `delta`. */
  function ShiftQuantity(cart: seq<CartLine>, id: ProductId, delta: int): (r: seq<CartLine>)
  {
    seq(|cart|, i requires 0 <= i < |cart| =>
      if cart[i].Id() == id then cart[i].(quantity := cart[i].quantity + delta) else cart[i])
  }

  /** `cart.map(item => item.id === id ? { ...item, quantity: q } : item)`. */
  function SetQuantity(cart: seq<CartLine>, id: ProductId, q: int): (r: seq<CartLine>)
  {
    seq(|cart|, i requires 0 <= i < |cart| =>
      if cart[i].Id() == id then cart[i].(quantity := q) else cart[i])
  }

  // ---------------------------------------------------------------------------
  // Totals

  lemma {:induction false} TotalAppend(a: seq<CartLine>, b: seq<CartLine>)
    ensures Total(a + b) == Total(a) + Total(b)
    decreases |a|
  {
    if a == [] {
      assert a + b == b;
    } else {
      assert (a + b)[1..] == a[1..] + b;
      TotalAppend(a[1..], b);
    }
  }

  /** Replacing one line changes the total by the difference of the two subtotals. */
  lemma TotalReplace(cart: seq<CartLine>, i: nat, line: CartLine)
    requires i < |cart|
    ensures Total(cart[i := line]) == Total(cart) - Subtotal(cart[i]) + Subtotal(line)
  {
    assert cart == cart[..i] + [cart[i]] + cart[i + 1..];
    assert cart[i := line] == cart[..i] + [line] + cart[i + 1..];
    TotalAppend(cart[..i] + [cart[i]], cart[i + 1..]);
    TotalAppend(cart[..i], [cart[i]]);
    TotalAppend(cart[..i] + [line], cart[i + 1..]);
    TotalAppend(cart[..i], [line]);
  }

  /** One unit more or less changes a line's subtotal by one unit price. */
  lemma SubtotalStep(line: CartLine, delta: int)
    requires delta == 1 || delta == -1
    ensures Subtotal(line.(quantity := line.quantity + delta)) == Subtotal(line) + delta * line.product.price
  {
    var p, q := line.product.price, line.quantity;
    assert p * (q + delta) == p * q + p * delta;
  }

  /** With non-negative prices and quantities the total is never negative. */
  lemma {:induction false} TotalNonNegative(cart: seq<CartLine>)
    requires forall i :: 0 <= i < |cart| ==> cart[i].product.price >= 0 && cart[i].quantity >= 0
    ensures Total(cart) >= 0
  {
    if cart != [] {
      TotalNonNegative(cart[1..]);
    }
  }

  // ---------------------------------------------------------------------------
  // Removing a product's lines

  /** Filtering by id keeps exactly the lines with another id, in order. */
  lemma {:induction false} RemoveIdKeepsOthers(cart: seq<CartLine>, id: ProductId)
    ensures forall l :: l in RemoveId(cart, id) ==> l in cart && l.Id() != id
    ensures forall l :: l in cart && l.Id() != id ==> l in RemoveId(cart, id)
    ensures !HasId(cart, id) ==> RemoveId(cart, id) == cart
  {
    if cart != [] {
      RemoveIdKeepsOthers(cart[1..], id);
      assert cart == [cart[0]] + cart[1..];
      if !HasId(cart, id) {
        assert !HasId(cart[1..], id) by {
          forall j | 0 <= j < |cart[1..]| ensures cart[1..][j].Id() != id {
            assert cart[1..][j] == cart[j + 1];
          }
        }
      }
    }
  }

  /** In a cart with unique ids, filtering out the id of line `i` deletes just that line. */
  lemma {:induction false} RemoveIdDeletesLine(cart: seq<CartLine>, i: nat)
    requires UniqueIds(cart) && i < |cart|
    ensures RemoveId(cart, cart[i].Id()) == cart[..i] + cart[i + 1..]
    decreases i
  {
    var id := cart[i].Id();
    if i == 0 {
      assert !HasId(cart[1..], id) by {
        forall j | 0 <= j < |cart[1..]| ensures cart[1..][j].Id() != id {
          assert cart[1..][j] == cart[j + 1];
        }
      }
      RemoveIdKeepsOthers(cart[1..], id);
    } else {
      assert UniqueIds(cart[1..]) by {
        forall a, b | 0 <= a < b < |cart[1..]| ensures cart[1..][a].Id() != cart[1..][b].Id() {
          assert cart[1..][a] == cart[a + 1] && cart[1..][b] == cart[b + 1];
        }
      }
      assert cart[1..][i - 1] == cart[i];
      RemoveIdDeletesLine(cart[1..], i - 1);
      assert cart[0].Id() != id;
      assert cart[1..][..i - 1] + cart[1..][i..] == cart[1..i] + cart[i + 1..];
      assert cart[..i] == [cart[0]] + cart[1..i];
    }
  }

  /** Deleting one line from a cart with unique ids keeps the ids unique. */
  lemma DeleteLineUnique(cart: seq<CartLine>, i: nat)
    requires UniqueIds(cart) && i < |cart|
    ensures UniqueIds(cart[..i] + cart[i + 1..])
    ensures forall j :: 0 <= j < |cart[..i] + cart[i + 1..]| ==>
      (cart[..i] + cart[i + 1..])[j] == if j < i then cart[j] else cart[j + 1]
  {
  }

  // ---------------------------------------------------------------------------
  // Changing one line

  /** In a cart with unique ids, the id-keyed map touches only line `i`. */
  lemma ShiftQuantityAt(cart: seq<CartLine>, i: nat, delta: int)
    requires UniqueIds(cart) && i < |cart|
    ensures ShiftQuantity(cart, cart[i].Id(), delta) == cart[i := cart[i].(quantity := cart[i].quantity + delta)]
  {
  }

  lemma SetQuantityAt(cart: seq<CartLine>, i: nat, q: int)
    requires UniqueIds(cart) && i < |cart|
    ensures SetQuantity(cart, cart[i].Id(), q) == cart[i := cart[i].(quantity := q)]
  {
  }

  /** A map over an id that is absent changes nothing. */
  lemma SetQuantityAbsent(cart: seq<CartLine>, id: ProductId, q: int)
    requires !HasId(cart, id)
    ensures SetQuantity(cart, id, q) == cart
  {
  }
}
