/** `processSale` of the newer cashier dashboard
    (frontend/src/componentes/Dashboard/CashierDashboard.js): no stock
    check; the stock of every line is written first, then one `sales` row
    records the sale, and only then is the cart emptied. */
module FrontCashierSale {
  import opened JsValues
  import opened Cart
  import opened SalesStore
  import opened Checkout

  /** How the sale ends; `None` is a recorded sale. */
  function Verdict(cart: seq<CartLine>, user: Option<UserId>, env: Env): Option<SaleError> {
    if cart == [] then Some(EmptyCart)
    else if user.None? then Some(NotSignedIn)
    else if env.saleRejected then Some(SaleRejected)
    else None
  }

  class Cashier {
    var cart: seq<CartLine>
    var user: Option<UserId>
    var error: Option<SaleError>

    /** `processSale()`; the previous error is not cleared. */
    method ProcessSale(db: SalesDb, env: Env)
      modifies this`cart, this`error, db`stock, db`sales, db`calls
      ensures var v := Verdict(old(cart), user, env);
        && (v.None? ==> cart == [] && error == old(error))
        && (v.Some? ==> cart == old(cart) && error == v)
      ensures old(cart) == [] ==> db.calls == old(db.calls) && TablesOf(db) == old(TablesOf(db))
      ensures old(cart) != [] ==>
        && db.stock == StockAfter(old(db.stock), old(cart), env.unwritable)
        && db.calls == old(db.calls) + WriteCalls(old(cart)) +
             (if user.Some? then [InsertSaleCall(SaleOf(user.value, old(cart)))] else [])
      ensures db.sales == if Verdict(old(cart), user, env).None? then old(db.sales) + [SaleOf(user.value, old(cart))]
                          else old(db.sales)
    {
      if cart == [] {
        error := Some(EmptyCart);
        return;
      }
      WriteStockLevels(db, cart, env);
      if user.None? {
        error := Some(NotSignedIn);
        return;
      }
      var ok := db.InsertSale(SaleOf(user.value, cart), env.saleRejected);
      if !ok {
        error := Some(SaleRejected);
        return;
      }
      cart := [];
    }
  }
}
