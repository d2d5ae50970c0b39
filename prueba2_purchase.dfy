/** `processPurchase` and `fetchTickets` of the sales panel
    (frontend/src/componentes/Prueba2.js). The purchase asks the auth
    service for the user first, then checks stock line by line and stops at
    the first failed read; after that it records the sale as the cashier
    dashboard does. */
module Prueba2Purchase {
  import opened JsValues
  import opened Cart
  import opened SalesStore
  import opened Checkout
  import TicketViews
  import CashierSale

  /** How `processPurchase` ends; `authUser` is what `auth.getUser()`
      returned (`None` for an error or no user). */
  function Verdict(cart: seq<CartLine>, authUser: Option<UserId>, t: Tables, env: Env): Option<SaleError> {
    if cart == [] then Some(EmptyCart)
    else if authUser.None? then Some(NotSignedIn)
    else if !AllReadable(t.stock, env.unreadable, cart) then Some(StockUnreadable)
    else if ShortageReport(cart, t.stock) != [] then Some(OutOfStock(ShortageReport(cart, t.stock)))
    else TailVerdict(t.tickets, env)
  }

  /** With a signed-in user the panel and the dashboard end a sale alike;
      without one the panel stops first, while the dashboard still reports
      unreadable or short stock before it notices. */
  lemma AgreesWithDashboard(cart: seq<CartLine>, user: Option<UserId>, t: Tables, env: Env)
    ensures user.Some? ==> Verdict(cart, user, t, env) == CashierSale.Verdict(cart, user, t, env)
    ensures user.None? && cart != [] ==> Verdict(cart, user, t, env) == Some(NotSignedIn)
    ensures user.None? ==> CashierSale.Verdict(cart, user, t, env).Some?
  {
  }

  /** The in-order check reads a prefix of what the dashboard's all-at-once
      check reads: up to and including the first unreadable line. */
  lemma FirstFailureReadsPrefix(cart: seq<CartLine>, stock: map<ProductId, int>, unreadable: set<ProductId>)
    requires !AllReadable(stock, unreadable, cart)
    ensures var k := FirstUnreadable(stock, unreadable, cart);
      ReadCalls(cart[..k + 1]) == ReadCalls(cart)[..k + 1]
  {
  }

  class SalesPanel {
    var cart: seq<CartLine>
    var receipt: Option<TicketViews.Ticket>
    var processing: bool
    var modalOpen: bool
    var ticketsList: seq<TicketViews.Ticket>
    var showTickets: bool

    /** `processPurchase()`; the returned value is the alert shown, if any. */
    method ProcessPurchase(db: SalesDb, authUser: Option<UserId>, env: Env) returns (alert: Option<SaleError>)
      requires db.Valid()
      modifies this`cart, this`receipt, this`processing, this`modalOpen
      modifies db`stock, db`tickets, db`items, db`calls
      ensures db.Valid()
      ensures alert == Verdict(old(cart), authUser, old(TablesOf(db)), env)
      ensures old(cart) == [] ==>
        && cart == old(cart) && receipt == old(receipt) && modalOpen == old(modalOpen)
        && processing == old(processing) && db.calls == old(db.calls) && TablesOf(db) == old(TablesOf(db))
      ensures old(cart) != [] ==> !processing
      ensures old(cart) != [] ==>
        PurchaseOutcome(old(cart), old(receipt), old(modalOpen), authUser, old(TablesOf(db)), old(db.calls), db, env)
    {
      if cart == [] {
        alert := Some(EmptyCart);
        return;
      }
      processing := true;
      alert := Purchase(db, authUser, env);
      processing := false;
    }

    /** What a purchase of a non-empty cart leaves behind, for each verdict. */
    ghost predicate PurchaseOutcome(cart0: seq<CartLine>, receipt0: Option<TicketViews.Ticket>, modalOpen0: bool,
                                    authUser: Option<UserId>, t0: Tables, calls0: seq<Call>, db: SalesDb, env: Env)
      requires cart0 != []
      reads this, db
    {
      var v := Verdict(cart0, authUser, t0, env);
      && (v.None? ==> && cart == [] && modalOpen
                      && receipt == Some(Receipt(env.newTicketId, authUser.value, cart0, env, t0.profiles)))
      && (v.Some? ==> cart == cart0 && receipt == receipt0 && modalOpen == modalOpen0)
      && (v == Some(NotSignedIn) ==> TablesOf(db) == t0 && db.calls == calls0)
      && (v == Some(StockUnreadable) ==>
            && TablesOf(db) == t0
            && db.calls == calls0 + ReadCalls(cart0[..FirstUnreadable(t0.stock, env.unreadable, cart0) + 1]))
      && (v.Some? && v.value.OutOfStock? ==> TablesOf(db) == t0 && db.calls == calls0 + ReadCalls(cart0))
      && (authUser.Some? && AllReadable(t0.stock, env.unreadable, cart0) && ShortageReport(cart0, t0.stock) == [] ==>
            && TablesOf(db) == TailTables(t0, authUser.value, cart0, env)
            && db.calls == calls0 + ReadCalls(cart0) + TailCalls(t0.tickets, authUser.value, cart0, env))
    }

    /** The body of `processPurchase` after the empty-cart check. */
    method Purchase(db: SalesDb, authUser: Option<UserId>, env: Env) returns (alert: Option<SaleError>)
      requires db.Valid() && cart != []
      modifies this`cart, this`receipt, this`modalOpen
      modifies db`stock, db`tickets, db`items, db`calls
      ensures db.Valid()
      ensures alert == Verdict(old(cart), authUser, old(TablesOf(db)), env)
      ensures PurchaseOutcome(old(cart), old(receipt), old(modalOpen), authUser, old(TablesOf(db)), old(db.calls), db, env)
    {
      if authUser.None? {
        alert := Some(NotSignedIn);
        return;
      }
      ghost var t0 := TablesOf(db);
      var report := CheckStockInOrder(db, cart, env);
      assert TablesOf(db) == t0;
      if report.None? {
        alert := Some(StockUnreadable);
      } else if report.value != [] {
        alert := Some(OutOfStock(report.value));
      } else {
        var r, err := RecordTicket(db, cart, authUser.value, env);
        alert := err;
        if err.None? {
          receipt := r;
          cart := [];
          modalOpen := true;
        }
      }
    }

    /** `fetchTickets()`: `answer` is the store's reply to the query for the
        user's tickets, newest first (`None` for an error). The panel keeps
        the first ten with their subtotals and toggles the history. */
    method FetchTickets(authUser: Option<UserId>, answer: Option<seq<TicketViews.Ticket>>) returns (alerted: bool)
      modifies this`ticketsList, this`showTickets
      ensures alerted <==> authUser.None? || answer.None?
      ensures !alerted ==> ticketsList == TicketViews.RecentTickets(answer.value) && showTickets == !old(showTickets)
      ensures alerted ==> ticketsList == old(ticketsList) && showTickets == old(showTickets)
    {
      if authUser.None? || answer.None? {
        return true;
      }
      ticketsList := TicketViews.RecentTickets(answer.value);
      showTickets := !showTickets;
      return false;
    }
  }
}
