/** `processSale` of the cashier dashboard
    (src/componentes/Dashboard/CashierDashboard.js): read every line's stock,
    stop on a shortage, then record the ticket, its items and the stock
    write-back, and show the receipt. */
module CashierSale {
  import opened JsValues
  import opened Cart
  import opened SalesStore
  import opened Checkout
  import TicketViews

  /** How `processSale` ends for a cart, the signed-in user, the store's
      tables and the network's answers; `None` is a completed sale. The
      signed-in user is only consulted after the stock check. */
  function Verdict(cart: seq<CartLine>, user: Option<UserId>, t: Tables, env: Env): Option<SaleError> {
    if cart == [] then Some(EmptyCart)
    else if !AllReadable(t.stock, env.unreadable, cart) then Some(StockUnreadable)
    else if ShortageReport(cart, t.stock) != [] then Some(OutOfStock(ShortageReport(cart, t.stock)))
    else if user.None? then Some(NotSignedIn)
    else TailVerdict(t.tickets, env)
  }

  /** The outcomes reached before the ticket insert. */
  predicate StoppedBeforeWrites(v: Option<SaleError>) {
    v.Some? && (v.value.EmptyCart? || v.value.StockUnreadable? || v.value.OutOfStock? || v.value.NotSignedIn?)
  }

  /** A completed sale had a non-empty cart, a signed-in seller, a stock row
      for every line that covered its quantity when read, and a fresh ticket id. */
  lemma CompletedSaleChecks(cart: seq<CartLine>, user: Option<UserId>, t: Tables, env: Env)
    requires Verdict(cart, user, t, env).None?
    ensures cart != [] && user.Some? && env.newTicketId !in t.tickets
    ensures forall i :: 0 <= i < |cart| ==> cart[i].Id() in t.stock && t.stock[cart[i].Id()] >= cart[i].quantity
  {
    ShortageReportEmpty(cart, t.stock);
  }

  /** Once every stock read returns data, the sale stops on a shortage
      exactly when some line asks for more than the stock read for it, and
      the report lists every such line. */
  lemma OutOfStockExactly(cart: seq<CartLine>, user: Option<UserId>, t: Tables, env: Env)
    requires cart != [] && AllReadable(t.stock, env.unreadable, cart)
    ensures (Verdict(cart, user, t, env).Some? && Verdict(cart, user, t, env).value.OutOfStock?) <==>
      exists i :: 0 <= i < |cart| && t.stock[cart[i].Id()] < cart[i].quantity
    ensures forall i :: 0 <= i < |cart| && t.stock[cart[i].Id()] < cart[i].quantity ==>
      ShortageOf(cart[i], t.stock[cart[i].Id()]) in Verdict(cart, user, t, env).value.report
  {
    ShortageReportEmpty(cart, t.stock);
    ShortageReportLists(cart, t.stock);
  }

  class Cashier {
    var cart: seq<CartLine>
    var user: Option<UserId>
    var error: Option<SaleError>
    var receipt: Option<TicketViews.Ticket>
    var processing: bool
    var modalOpen: bool

    /** `processSale()`. The error shown before is not cleared; a completed
        sale empties the cart and opens the receipt. */
    method ProcessSale(db: SalesDb, env: Env)
      requires db.Valid()
      modifies this`cart, this`error, this`receipt, this`processing, this`modalOpen
      modifies db`stock, db`tickets, db`items, db`calls
      ensures db.Valid()
      ensures old(cart) == [] ==>
        && error == Some(EmptyCart) && cart == old(cart) && receipt == old(receipt)
        && modalOpen == old(modalOpen) && processing == old(processing)
        && db.calls == old(db.calls) && TablesOf(db) == old(TablesOf(db))
      ensures old(cart) != [] ==> !processing
      ensures old(cart) != [] ==> SaleOutcome(Verdict(old(cart), user, old(TablesOf(db)), env), old(cart), old(error), old(receipt), old(modalOpen), old(TablesOf(db)), old(db.calls), db, env)
    {
      if cart == [] {
        error := Some(EmptyCart);
        return;
      }
      processing := true;
      Sell(db, env);
      processing := false;
    }

    /** What a sale of a non-empty cart leaves behind: the screen state and
        the store state for each verdict. */
    ghost predicate SaleOutcome(v: Option<SaleError>, cart0: seq<CartLine>, error0: Option<SaleError>, receipt0: Option<TicketViews.Ticket>,
                                modalOpen0: bool, t0: Tables, calls0: seq<Call>, db: SalesDb, env: Env)
      requires cart0 != []
      reads this, db
    {
      && (v.None? ==> && cart == [] && modalOpen && error == error0 && user.Some?
                      && receipt == Some(Receipt(env.newTicketId, user.value, cart0, env, t0.profiles)))
      && (v.Some? ==> && error == v && cart == cart0 && receipt == receipt0 && modalOpen == modalOpen0)
      && (StoppedBeforeWrites(v) ==> TablesOf(db) == t0 && db.calls == calls0 + ReadCalls(cart0))
      && (!StoppedBeforeWrites(v) ==>
            && user.Some?
            && TablesOf(db) == TailTables(t0, user.value, cart0, env)
            && db.calls == calls0 + ReadCalls(cart0) + TailCalls(t0.tickets, user.value, cart0, env))
    }

    /** The body of `processSale` after the empty-cart check. */
    method Sell(db: SalesDb, env: Env)
      requires db.Valid() && cart != []
      modifies this`cart, this`error, this`receipt, this`modalOpen
      modifies db`stock, db`tickets, db`items, db`calls
      ensures db.Valid()
      ensures SaleOutcome(Verdict(old(cart), user, old(TablesOf(db)), env), old(cart), old(error), old(receipt), old(modalOpen),
                          old(TablesOf(db)), old(db.calls), db, env)
    {
      ghost var t0 := TablesOf(db);
      ghost var calls0 := db.calls;
      var report := ReadAllStock(db, cart, env);
      if report.Some? && report.value == [] && user.Some? {
        assert Verdict(cart, user, t0, env) == TailVerdict(t0.tickets, env);
        Complete(db, env, t0, calls0);
      } else {
        Refuse(db, env, report, t0, calls0);
      }
    }

    /** The stock check failed or nobody is signed in: the error is shown
        and nothing else changes. */
    method Refuse(db: SalesDb, env: Env, report: Option<seq<Shortage>>, ghost t0: Tables, ghost calls0: seq<Call>)
      requires cart != [] && TablesOf(db) == t0 && db.calls == calls0 + ReadCalls(cart)
      requires report.Some? <==> AllReadable(t0.stock, env.unreadable, cart)
      requires report.Some? ==> report.value == ShortageReport(cart, t0.stock)
      requires !(report.Some? && report.value == [] && user.Some?)
      modifies this`error
      ensures SaleOutcome(Verdict(old(cart), user, t0, env), old(cart), old(error), old(receipt), old(modalOpen), t0, calls0, db, env)
    {
      ghost var v := Verdict(cart, user, t0, env);
      if report.None? {
        assert v == Some(StockUnreadable);
        error := Some(StockUnreadable);
      } else if report.value != [] {
        assert v == Some(OutOfStock(report.value));
        error := Some(OutOfStock(report.value));
      } else {
        assert v == Some(NotSignedIn);
        error := Some(NotSignedIn);
      }
    }

    /** The stock check passed and a user is signed in: record the sale. */
    method Complete(db: SalesDb, env: Env, ghost t0: Tables, ghost calls0: seq<Call>)
      requires db.Valid() && cart != [] && user.Some?
      requires TablesOf(db) == t0 && db.calls == calls0 + ReadCalls(cart)
      modifies this`cart, this`error, this`receipt, this`modalOpen
      modifies db`stock, db`tickets, db`items, db`calls
      ensures db.Valid()
      ensures SaleOutcome(TailVerdict(t0.tickets, env), old(cart), old(error), old(receipt), old(modalOpen), t0, calls0, db, env)
    {
      assert !StoppedBeforeWrites(TailVerdict(t0.tickets, env));
      var r, err := RecordTicket(db, cart, user.value, env);
      if err.Some? {
        error := err;
      } else {
        receipt := r;
        cart := [];
        modalOpen := true;
      }
    }
  }
}
