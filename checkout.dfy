/** The checkout pipeline the cashier screens share: re-read the stock of
    every cart line, report shortages, record the ticket and its items,
    write `cached stock - quantity` back, and read the ticket back for the
    receipt. The specification functions say what each step computes; the
    methods perform the steps on a `SalesDb`. */
module Checkout {
  import opened JsValues
  import opened Cart
  import opened SalesStore
  import TicketViews

  /** What the network answers during one checkout: the products whose stock
      read fails, the products whose stock update is rejected, whether each
      insert or read is rejected, and the id and date the store gives a new
      ticket. */
  datatype Env = Env(unreadable: set<ProductId>, unwritable: set<ProductId>,
                     ticketRejected: bool, newTicketId: TicketId, saleDate: string,
                     itemsRejected: bool, receiptUnreadable: bool, saleRejected: bool)

  /** One entry of the shortage report: `<name>: Disponible <a>, Solicitado <q>`. */
  datatype Shortage = Shortage(productName: string, available: int, requested: int)

  /** Why a checkout stopped; each is the message the screen shows. */
  datatype SaleError =
    | EmptyCart                         // 'El carrito está vacío'
    | NotSignedIn                       // no user: `user.id` of null, or 'Debes iniciar sesión'
    | StockUnreadable                   // a stock read came back without data
    | OutOfStock(report: seq<Shortage>) // the joined shortage report
    | TicketRejected
    | ItemsRejected
    | ReceiptUnreadable                 // `completeTicket` is null
    | SaleRejected

  // ---------------------------------------------------------------------------
  // Stock check

  /** Every line's product has a stock row. */
  predicate Stocked(stock: map<ProductId, int>, cart: seq<CartLine>) {
    forall i :: 0 <= i < |cart| ==> cart[i].Id() in stock
  }

  /** Every line's stock read returns data. */
  predicate AllReadable(stock: map<ProductId, int>, unreadable: set<ProductId>, cart: seq<CartLine>) {
    forall i :: 0 <= i < |cart| ==> cart[i].Id() in stock && cart[i].Id() !in unreadable
  }

  /** The position of the first line whose stock read returns no data. */
  function FirstUnreadable(stock: map<ProductId, int>, unreadable: set<ProductId>, cart: seq<CartLine>): (k: nat)
    requires !AllReadable(stock, unreadable, cart)
    ensures k < |cart| && AllReadable(stock, unreadable, cart[..k])
    ensures cart[k].Id() !in stock || cart[k].Id() in unreadable
  {
    if cart[0].Id() !in stock || cart[0].Id() in unreadable then 0
    else
      var k := FirstUnreadable(stock, unreadable, cart[1..]);
      assert cart[..k + 1] == [cart[0]] + cart[1..][..k];
      k + 1
  }

  /** The first unreadable line is the one after a readable prefix. */
  lemma {:induction false} FirstUnreadableAt(stock: map<ProductId, int>, unreadable: set<ProductId>,
                                             cart: seq<CartLine>, i: nat)
    requires i < |cart| && AllReadable(stock, unreadable, cart[..i])
    requires cart[i].Id() !in stock || cart[i].Id() in unreadable
    ensures !AllReadable(stock, unreadable, cart) && FirstUnreadable(stock, unreadable, cart) == i
  {
    assert cart[..i][..] == cart[..i];
    if i > 0 {
      assert cart[0] == cart[..i][0];
      assert cart[1..][..i - 1] == cart[..i][1..];
      FirstUnreadableAt(stock, unreadable, cart[1..], i - 1);
    }
  }

  /** The calls of reading the stock of each line, in cart order. */
  function ReadCalls(cart: seq<CartLine>): (r: seq<Call>)
    ensures |r| == |cart|
    ensures forall i :: 0 <= i < |cart| ==> r[i] == ReadStockCall(cart[i].Id())
  {
    seq(|cart|, i requires 0 <= i < |cart| => ReadStockCall(cart[i].Id()))
  }

  /** The report entry of a line whose available stock is below its quantity. */
  function ShortageOf(line: CartLine, available: int): Shortage {
    Shortage(line.product.name, available, line.quantity)
  }

  /** The shortage report: one entry per line whose stock is below its
      quantity, in cart order. */
  function ShortageReport(cart: seq<CartLine>, stock: map<ProductId, int>): seq<Shortage>
    requires Stocked(stock, cart)
  {
    if cart == [] then []
    else
      var last := cart[|cart| - 1];
      ShortageReport(cart[..|cart| - 1], stock) +
        (if stock[last.Id()] < last.quantity then [ShortageOf(last, stock[last.Id()])] else [])
  }

  /** The report is empty exactly when every line's stock covers its quantity. */
  lemma {:induction false} ShortageReportEmpty(cart: seq<CartLine>, stock: map<ProductId, int>)
    requires Stocked(stock, cart)
    ensures ShortageReport(cart, stock) == [] <==>
      forall i :: 0 <= i < |cart| ==> stock[cart[i].Id()] >= cart[i].quantity
    decreases |cart|
  {
    if cart != [] {
      var n := |cart| - 1;
      ShortageReportEmpty(cart[..n], stock);
      assert forall i :: 0 <= i < n ==> cart[..n][i] == cart[i];
    }
  }

  /** The report lists every short line, and only short lines. */
  lemma {:induction false} ShortageReportLists(cart: seq<CartLine>, stock: map<ProductId, int>)
    requires Stocked(stock, cart)
    ensures forall i :: 0 <= i < |cart| && stock[cart[i].Id()] < cart[i].quantity ==>
      ShortageOf(cart[i], stock[cart[i].Id()]) in ShortageReport(cart, stock)
    ensures forall e :: e in ShortageReport(cart, stock) ==>
      exists i :: 0 <= i < |cart| && stock[cart[i].Id()] < cart[i].quantity && e == ShortageOf(cart[i], stock[cart[i].Id()])
    decreases |cart|
  {
    if cart != [] {
      var n := |cart| - 1;
      ShortageReportLists(cart[..n], stock);
      assert forall i :: 0 <= i < n ==> cart[..n][i] == cart[i];
    }
  }

  // ---------------------------------------------------------------------------
  // Stock write-back

  /** The calls of writing `cached stock - quantity` for each line, in cart order. */
  function WriteCalls(cart: seq<CartLine>): (r: seq<Call>)
    ensures |r| == |cart|
    ensures forall i :: 0 <= i < |cart| ==>
      r[i] == WriteStockCall(cart[i].Id(), cart[i].product.stock - cart[i].quantity)
  {
    seq(|cart|, i requires 0 <= i < |cart| =>
      WriteStockCall(cart[i].Id(), cart[i].product.stock - cart[i].quantity))
  }

  /** The stock table after writing each line's `cached stock - quantity` in
      cart order; updates on `unwritable` products are lost. */
  function StockAfter(stock: map<ProductId, int>, cart: seq<CartLine>, unwritable: set<ProductId>)
    : (r: map<ProductId, int>)
    ensures r.Keys == stock.Keys
  {
    if cart == [] then stock
    else
      var last := cart[|cart| - 1];
      StockWrite(StockAfter(stock, cart[..|cart| - 1], unwritable), last.Id(),
                 last.product.stock - last.quantity, last.Id() in unwritable)
  }

  /** With unique ids, each written product gets its cart snapshot's stock
      minus the quantity, whatever the table held; every other product keeps
      its stock. */
  lemma {:induction false} StockAfterSpec(stock: map<ProductId, int>, cart: seq<CartLine>, unwritable: set<ProductId>)
    requires UniqueIds(cart)
    ensures forall i :: 0 <= i < |cart| && cart[i].Id() in stock && cart[i].Id() !in unwritable ==>
      StockAfter(stock, cart, unwritable)[cart[i].Id()] == cart[i].product.stock - cart[i].quantity
    ensures forall id :: id in stock && (id in unwritable || !HasId(cart, id)) ==>
      StockAfter(stock, cart, unwritable)[id] == stock[id]
    decreases |cart|
  {
    if cart != [] {
      var n := |cart| - 1;
      var prefix := cart[..n];
      assert forall i :: 0 <= i < n ==> prefix[i] == cart[i];
      StockAfterSpec(stock, prefix, unwritable);
      forall id | id in stock && (id in unwritable || !HasId(cart, id))
        ensures StockAfter(stock, cart, unwritable)[id] == stock[id]
      {
        if !HasId(cart, id) {
          assert !HasId(prefix, id);
        }
      }
    }
  }

  /** When every snapshot is fresh and no line is short, a checkout that
      writes all its lines leaves no product with negative stock, and takes
      from each exactly the quantity sold. */
  lemma StockAfterFresh(stock: map<ProductId, int>, cart: seq<CartLine>, unwritable: set<ProductId>)
    requires UniqueIds(cart) && Stocked(stock, cart)
    requires forall i :: 0 <= i < |cart| ==> cart[i].product.stock == stock[cart[i].Id()]
    requires ShortageReport(cart, stock) == []
    requires forall id :: id in stock ==> stock[id] >= 0
    ensures forall i :: 0 <= i < |cart| && cart[i].Id() !in unwritable ==>
      StockAfter(stock, cart, unwritable)[cart[i].Id()] == stock[cart[i].Id()] - cart[i].quantity
    ensures forall id :: id in StockAfter(stock, cart, unwritable) ==> StockAfter(stock, cart, unwritable)[id] >= 0
  {
    ShortageReportEmpty(cart, stock);
    StockAfterSpec(stock, cart, unwritable);
    var r := StockAfter(stock, cart, unwritable);
    forall id | id in r ensures r[id] >= 0 {
      if HasId(cart, id) && id !in unwritable {
        var i :| 0 <= i < |cart| && cart[i].Id() == id;
        assert r[id] == stock[id] - cart[i].quantity;
      }
    }
  }

  // ---------------------------------------------------------------------------
  // Ticket, items and receipt

  /** `cart.map(item => ({ ticket_id, product_id, product_name, quantity, unit_price }))`. */
  function ItemRows(ticket: TicketId, cart: seq<CartLine>): (r: seq<ItemRow>)
    ensures |r| == |cart|
    ensures forall i :: 0 <= i < |cart| ==>
      r[i] == ItemRow(ticket, cart[i].Id(), cart[i].product.name, cart[i].quantity, cart[i].product.price)
  {
    seq(|cart|, i requires 0 <= i < |cart| =>
      ItemRow(ticket, cart[i].Id(), cart[i].product.name, cart[i].quantity, cart[i].product.price))
  }

  /** The receipt's items: one per cart line, with `subtotal = price * quantity`. */
  function ReceiptItems(cart: seq<CartLine>): (r: seq<TicketViews.Item>)
    ensures |r| == |cart|
    ensures forall i :: 0 <= i < |cart| ==>
      r[i] == TicketViews.Item(cart[i].product.name, cart[i].quantity, cart[i].product.price, Some(Subtotal(cart[i])))
  {
    seq(|cart|, i requires 0 <= i < |cart| =>
      TicketViews.Item(cart[i].product.name, cart[i].quantity, cart[i].product.price, Some(Subtotal(cart[i]))))
  }

  /** Read back, the items stored for a new ticket, with their derived
      subtotals, are the receipt items of the cart. */
  lemma ReceiptOfStoredItems(before: seq<ItemRow>, ticket: TicketId, cart: seq<CartLine>)
    requires forall k :: 0 <= k < |before| ==> before[k].ticket != ticket
    ensures TicketViews.ItemsWithSubtotal(TicketItems(before + ItemRows(ticket, cart), ticket)) == ReceiptItems(cart)
  {
    var rows := ItemRows(ticket, cart);
    TicketItemsAppend(before, rows, ticket);
    TicketItemsNone(before, ticket);
    TicketItemsAll(rows, ticket);
    assert [] + TicketItems(rows, ticket) == TicketItems(rows, ticket);
  }

  /** The ticket read back after its items were stored, with subtotals
      derived, lists the cart's receipt items. */
  lemma ReadBackReceipt(id: TicketId, row: TicketRow, profiles: map<UserId, TicketViews.Seller>,
                        before: seq<ItemRow>, cart: seq<CartLine>)
    requires forall k :: 0 <= k < |before| ==> before[k].ticket != id
    ensures TicketViews.WithSubtotal(TicketView(id, row, profiles, before + ItemRows(id, cart))) ==
      TicketViews.Ticket(id, row.saleDate, row.total, row.seller,
        if row.seller in profiles then Some(profiles[row.seller]) else None, ReceiptItems(cart))
  {
    ReceiptOfStoredItems(before, id, cart);
  }

  /** The receipt's subtotals add up to the cart total the ticket was stored with. */
  lemma {:induction false} ReceiptTotal(cart: seq<CartLine>)
    ensures TicketViews.SubtotalSum(ReceiptItems(cart)) == Total(cart)
    decreases |cart|
  {
    if cart != [] {
      ReceiptTotal(cart[1..]);
      assert ReceiptItems(cart)[1..] == ReceiptItems(cart[1..]);
    }
  }

  /** The receipt the sale shows: the stored ticket with its derived subtotals. */
  function Receipt(ticket: TicketId, seller: UserId, cart: seq<CartLine>, env: Env,
                   profiles: map<UserId, TicketViews.Seller>): (r: TicketViews.Ticket)
    ensures r.id == ticket && r.sellerId == seller && r.total == Total(cart) && r.items == ReceiptItems(cart)
  {
    TicketViews.Ticket(ticket, env.saleDate, Total(cart), seller,
      if seller in profiles then Some(profiles[seller]) else None, ReceiptItems(cart))
  }

  /** `{ user_id, total, items: cart.map(item => ({ product_id, quantity, price })) }`. */
  function SaleOf(user: UserId, cart: seq<CartLine>): (r: SaleRow)
    ensures r.user == user && r.total == Total(cart) && |r.items| == |cart|
    ensures forall i :: 0 <= i < |cart| ==>
      r.items[i] == SaleItem(cart[i].Id(), cart[i].quantity, cart[i].product.price)
  {
    SaleRow(user, Total(cart),
      seq(|cart|, i requires 0 <= i < |cart| => SaleItem(cart[i].Id(), cart[i].quantity, cart[i].product.price)))
  }

  /** Whether the ticket insert is refused: the request fails, or the id the
      store hands out is taken. */
  predicate TicketRefused(tickets: map<TicketId, TicketRow>, env: Env) {
    env.ticketRejected || env.newTicketId in tickets
  }

  /** How the steps after the ticket insert end: the item insert, then the
      read-back of the ticket. */
  function ItemsVerdict(env: Env): Option<SaleError> {
    if env.itemsRejected then Some(ItemsRejected)
    else if env.receiptUnreadable then Some(ReceiptUnreadable)
    else None
  }

  /** How the steps after the stock check end. */
  function TailVerdict(tickets: map<TicketId, TicketRow>, env: Env): Option<SaleError> {
    if TicketRefused(tickets, env) then Some(TicketRejected) else ItemsVerdict(env)
  }

  /** The store's tables, without the call log. */
  datatype Tables = Tables(stock: map<ProductId, int>, tickets: map<TicketId, TicketRow>, items: seq<ItemRow>,
                           sales: seq<SaleRow>, profiles: map<UserId, TicketViews.Seller>)

  function TablesOf(db: SalesDb): Tables
    reads db
  {
    Tables(db.stock, db.tickets, db.items, db.sales, db.profiles)
  }

  /** The tables after the steps that follow a stored ticket `id`: its items,
      then the stock write-back when the items were stored. */
  function ItemsTables(t: Tables, id: TicketId, cart: seq<CartLine>, env: Env): (r: Tables)
    ensures r.tickets == t.tickets && r.sales == t.sales && r.profiles == t.profiles
  {
    if env.itemsRejected then t
    else t.(items := t.items + ItemRows(id, cart), stock := StockAfter(t.stock, cart, env.unwritable))
  }

  /** The tables after the steps that follow a passed stock check: the
      ticket, then its items, then the stock write-back, each only when the
      step before it was stored. */
  function TailTables(t: Tables, seller: UserId, cart: seq<CartLine>, env: Env): (r: Tables)
    ensures r.sales == t.sales && r.profiles == t.profiles
  {
    if TicketRefused(t.tickets, env) then t
    else
      var id := env.newTicketId;
      ItemsTables(t.(tickets := t.tickets[id := TicketRow(seller, Total(cart), env.saleDate)]), id, cart, env)
  }

  /** The calls after a stored ticket `id`, in order, up to the one that failed. */
  function ItemsCalls(id: TicketId, cart: seq<CartLine>, env: Env): (r: seq<Call>)
    ensures |r| >= 1 && r[0] == InsertItemsCall(ItemRows(id, cart))
  {
    [InsertItemsCall(ItemRows(id, cart))] + if env.itemsRejected then [] else WriteCalls(cart) + [ReadTicketCall(id)]
  }

  /** The calls after a passed stock check, in order, up to the one that failed. */
  function TailCalls(tickets: map<TicketId, TicketRow>, seller: UserId, cart: seq<CartLine>, env: Env): (r: seq<Call>)
    ensures |r| >= 1 && r[0] == InsertTicketCall(seller, Total(cart))
  {
    [InsertTicketCall(seller, Total(cart))] +
      if TicketRefused(tickets, env) then [] else ItemsCalls(env.newTicketId, cart, env)
  }

  /** Stock is written only after the ticket and all of its items are stored,
      and the stored items are exactly one per cart line. */
  lemma StockWrittenAfterItems(t: Tables, seller: UserId, cart: seq<CartLine>, env: Env)
    ensures var r := TailTables(t, seller, cart, env);
      r.stock != t.stock ==>
        && env.newTicketId in r.tickets && env.newTicketId !in t.tickets
        && r.items == t.items + ItemRows(env.newTicketId, cart)
    ensures var r := TailTables(t, seller, cart, env);
      r.items != t.items ==> r.tickets == t.tickets[env.newTicketId := TicketRow(seller, Total(cart), env.saleDate)]
    ensures TailVerdict(t.tickets, env) == Some(TicketRejected) ==> TailTables(t, seller, cart, env) == t
  {
  }

  /** Every write call of the tail comes after the ticket insert, and stock
      writes come after the item insert. */
  lemma TailCallsOrder(tickets: map<TicketId, TicketRow>, seller: UserId, cart: seq<CartLine>, env: Env)
    ensures var r := TailCalls(tickets, seller, cart, env);
      forall k :: 0 <= k < |r| && r[k].WriteStockCall? ==> k >= 2 && r[1] == InsertItemsCall(ItemRows(env.newTicketId, cart))
    ensures var r := TailCalls(tickets, seller, cart, env);
      forall k :: 1 <= k < |r| ==> !r[k].InsertTicketCall?
  {
  }

  /** The amount of a `sales` row's items, `sum(price * quantity)`. */
  function SaleItemsAmount(items: seq<SaleItem>): int {
    if items == [] then 0 else items[0].price * items[0].quantity + SaleItemsAmount(items[1..])
  }

  /** The sale record's total is the amount of the items it lists. */
  lemma {:induction false} SaleTotalMatchesItems(user: UserId, cart: seq<CartLine>)
    ensures SaleItemsAmount(SaleOf(user, cart).items) == SaleOf(user, cart).total
    decreases |cart|
  {
    if cart != [] {
      SaleTotalMatchesItems(user, cart[1..]);
      assert SaleOf(user, cart).items[1..] == SaleOf(user, cart[1..]).items;
    }
  }

  // ---------------------------------------------------------------------------
  // One line at a time

  /** A log that already holds `done`, extended by one call. */
  lemma LogAppend<T>(log: seq<T>, done: seq<T>, c: T, next: seq<T>)
    requires next == done + [c]
    ensures log + done + [c] == log + next
  {
  }

  /** Two pieces appended to a log one after the other. */
  lemma LogConcat<T>(log: seq<T>, a: seq<T>, b: seq<T>)
    ensures log + a + b == log + (a + b)
  {
  }

  /** Reading line `i` after the lines before it. */
  lemma ReadStep(stock: map<ProductId, int>, unreadable: set<ProductId>, cart: seq<CartLine>, i: nat)
    requires i < |cart|
    ensures ReadCalls(cart[..i + 1]) == ReadCalls(cart[..i]) + [ReadStockCall(cart[i].Id())]
    ensures AllReadable(stock, unreadable, cart[..i + 1]) <==>
      AllReadable(stock, unreadable, cart[..i]) && cart[i].Id() in stock && cart[i].Id() !in unreadable
    ensures AllReadable(stock, unreadable, cart[..i + 1]) ==>
      ShortageReport(cart[..i + 1], stock) == ShortageReport(cart[..i], stock) +
        (if stock[cart[i].Id()] < cart[i].quantity then [ShortageOf(cart[i], stock[cart[i].Id()])] else [])
  {
    assert cart[..i + 1][..i] == cart[..i];
  }

  /** Writing line `i` after the lines before it. */
  lemma WriteStep(stock: map<ProductId, int>, cart: seq<CartLine>, i: nat, unwritable: set<ProductId>)
    requires i < |cart|
    ensures WriteCalls(cart[..i + 1]) ==
      WriteCalls(cart[..i]) + [WriteStockCall(cart[i].Id(), cart[i].product.stock - cart[i].quantity)]
    ensures StockAfter(stock, cart[..i + 1], unwritable) ==
      StockWrite(StockAfter(stock, cart[..i], unwritable), cart[i].Id(),
                 cart[i].product.stock - cart[i].quantity, cart[i].Id() in unwritable)
  {
    assert cart[..i + 1][..i] == cart[..i];
  }

  // ---------------------------------------------------------------------------
  // The steps

  /** `Promise.all` of the stock reads, then the shortage report: every line
      is read; one read without data makes the report fail. */
  method ReadAllStock(db: SalesDb, cart: seq<CartLine>, env: Env) returns (report: Option<seq<Shortage>>)
    modifies db`calls
    ensures db.calls == old(db.calls) + ReadCalls(cart)
    ensures report.Some? <==> AllReadable(db.stock, env.unreadable, cart)
    ensures report.Some? ==> report.value == ShortageReport(cart, db.stock)
  {
    var i := 0;
    var readable := true;
    var shortages: seq<Shortage> := [];
    while i < |cart|
      invariant 0 <= i <= |cart|
      invariant db.calls == old(db.calls) + ReadCalls(cart[..i])
      invariant readable <==> AllReadable(db.stock, env.unreadable, cart[..i])
      invariant readable ==> shortages == ShortageReport(cart[..i], db.stock)
    {
      var line := cart[i];
      ReadStep(db.stock, env.unreadable, cart, i);
      LogAppend(old(db.calls), ReadCalls(cart[..i]), ReadStockCall(line.Id()), ReadCalls(cart[..i + 1]));
      var available := db.ReadStock(line.Id(), line.Id() in env.unreadable);
      if available.None? {
        readable := false;
      } else if readable && available.value < line.quantity {
        shortages := shortages + [ShortageOf(line, available.value)];
      }
      i := i + 1;
    }
    assert cart[..i] == cart;
    report := if readable then Some(shortages) else None;
  }

  /** The `for (const item of cart)` check: lines are read in order and the
      first read error ends the check; the shortages are collected. */
  method CheckStockInOrder(db: SalesDb, cart: seq<CartLine>, env: Env) returns (report: Option<seq<Shortage>>)
    modifies db`calls
    ensures report.Some? <==> AllReadable(db.stock, env.unreadable, cart)
    ensures report.Some? ==>
      report.value == ShortageReport(cart, db.stock) && db.calls == old(db.calls) + ReadCalls(cart)
    ensures report.None? ==>
      db.calls == old(db.calls) + ReadCalls(cart[..FirstUnreadable(db.stock, env.unreadable, cart) + 1])
  {
    var i := 0;
    var shortages: seq<Shortage> := [];
    while i < |cart|
      invariant 0 <= i <= |cart|
      invariant db.calls == old(db.calls) + ReadCalls(cart[..i])
      invariant AllReadable(db.stock, env.unreadable, cart[..i])
      invariant shortages == ShortageReport(cart[..i], db.stock)
    {
      var line := cart[i];
      ReadStep(db.stock, env.unreadable, cart, i);
      LogAppend(old(db.calls), ReadCalls(cart[..i]), ReadStockCall(line.Id()), ReadCalls(cart[..i + 1]));
      var product := db.ReadStock(line.Id(), line.Id() in env.unreadable);
      if product.None? {
        FirstUnreadableAt(db.stock, env.unreadable, cart, i);
        report := None;
        return;
      }
      if product.value < line.quantity {
        shortages := shortages + [ShortageOf(line, product.value)];
      }
      i := i + 1;
    }
    assert cart[..i] == cart;
    report := Some(shortages);
  }

  /** `Promise.all(cart.map(item => update({ stock: item.stock - item.quantity })))`,
      one update per line in cart order; results are not inspected. */
  method WriteStockLevels(db: SalesDb, cart: seq<CartLine>, env: Env)
    modifies db`stock, db`calls
    ensures db.stock == StockAfter(old(db.stock), cart, env.unwritable)
    ensures db.calls == old(db.calls) + WriteCalls(cart)
  {
    var i := 0;
    while i < |cart|
      invariant 0 <= i <= |cart|
      invariant db.stock == StockAfter(old(db.stock), cart[..i], env.unwritable)
      invariant db.calls == old(db.calls) + WriteCalls(cart[..i])
    {
      var line := cart[i];
      WriteStep(old(db.stock), cart, i, env.unwritable);
      LogAppend(old(db.calls), WriteCalls(cart[..i]), WriteStockCall(line.Id(), line.product.stock - line.quantity),
                WriteCalls(cart[..i + 1]));
      db.WriteStock(line.Id(), line.product.stock - line.quantity, line.Id() in env.unwritable);
      i := i + 1;
    }
    assert cart[..i] == cart;
  }

  /** The steps after a passed stock check: insert the ticket, insert its
      items, write the stock back, read the ticket for the receipt. A failed
      step ends the sequence; what was written before it stays written. */
  method RecordTicket(db: SalesDb, cart: seq<CartLine>, seller: UserId, env: Env)
    returns (receipt: Option<TicketViews.Ticket>, err: Option<SaleError>)
    requires db.Valid()
    modifies db`tickets, db`items, db`stock, db`calls
    ensures db.Valid()
    ensures err == TailVerdict(old(db.tickets), env)
    ensures receipt.Some? <==> err.None?
    ensures err.None? ==> receipt.value == Receipt(env.newTicketId, seller, cart, env, old(db.profiles))
    ensures TablesOf(db) == TailTables(old(TablesOf(db)), seller, cart, env)
    ensures db.calls == old(db.calls) + TailCalls(old(db.tickets), seller, cart, env)
  {
    var id := env.newTicketId;
    ghost var t0 := TablesOf(db);
    var t := db.InsertTicket(seller, Total(cart), id, env.saleDate, env.ticketRejected);
    if t.None? {
      receipt, err := None, Some(TicketRejected);
      return;
    }
    assert TablesOf(db) == t0.(tickets := t0.tickets[id := TicketRow(seller, Total(cart), env.saleDate)]);
    assert forall k :: 0 <= k < |db.items| ==> db.items[k].ticket != id;
    receipt, err := RecordItems(db, cart, id, env);
    LogConcat(old(db.calls), [InsertTicketCall(seller, Total(cart))], ItemsCalls(id, cart, env));
  }

  /** The steps after the ticket `id` is stored: its items, the stock
      write-back, the read-back of the ticket. */
  method RecordItems(db: SalesDb, cart: seq<CartLine>, id: TicketId, env: Env)
    returns (receipt: Option<TicketViews.Ticket>, err: Option<SaleError>)
    requires db.Valid() && id in db.tickets
    requires forall k :: 0 <= k < |db.items| ==> db.items[k].ticket != id
    modifies db`items, db`stock, db`calls
    ensures db.Valid()
    ensures err == ItemsVerdict(env)
    ensures receipt.Some? <==> err.None?
    ensures err.None? ==>
      var row := old(db.tickets)[id];
      receipt.value == TicketViews.Ticket(id, row.saleDate, row.total, row.seller,
        if row.seller in old(db.profiles) then Some(old(db.profiles)[row.seller]) else None,
        ReceiptItems(cart))
    ensures TablesOf(db) == ItemsTables(old(TablesOf(db)), id, cart, env)
    ensures db.calls == old(db.calls) + ItemsCalls(id, cart, env)
  {
    ghost var t0 := TablesOf(db);
    var rows := ItemRows(id, cart);
    assert forall k :: 0 <= k < |rows| ==> rows[k].ticket in db.tickets;
    var ok := db.InsertItems(rows, env.itemsRejected);
    if !ok {
      receipt, err := None, Some(ItemsRejected);
      return;
    }
    assert TablesOf(db) == t0.(items := t0.items + rows);
    receipt := WriteBackAndReadTicket(db, cart, id, env, old(db.items));
    assert ItemsCalls(id, cart, env) == [InsertItemsCall(rows)] + (WriteCalls(cart) + [ReadTicketCall(id)]);
    LogConcat(old(db.calls), [InsertItemsCall(rows)], WriteCalls(cart) + [ReadTicketCall(id)]);
    err := if receipt.None? then Some(ReceiptUnreadable) else None;
  }

  /** The stock write-back, then the read-back of ticket `id` with its
      subtotals derived. */
  method WriteBackAndReadTicket(db: SalesDb, cart: seq<CartLine>, id: TicketId, env: Env, ghost before: seq<ItemRow>)
    returns (receipt: Option<TicketViews.Ticket>)
    requires id in db.tickets
    requires db.items == before + ItemRows(id, cart)
    requires forall k :: 0 <= k < |before| ==> before[k].ticket != id
    modifies db`stock, db`calls
    ensures receipt.Some? <==> !env.receiptUnreadable
    ensures receipt.Some? ==>
      var row := db.tickets[id];
      receipt.value == TicketViews.Ticket(id, row.saleDate, row.total, row.seller,
        if row.seller in db.profiles then Some(db.profiles[row.seller]) else None, ReceiptItems(cart))
    ensures db.stock == StockAfter(old(db.stock), cart, env.unwritable)
    ensures db.calls == old(db.calls) + WriteCalls(cart) + [ReadTicketCall(id)]
  {
    WriteStockLevels(db, cart, env);
    var complete := db.ReadTicket(id, env.receiptUnreadable);
    ReadBackReceipt(id, db.tickets[id], db.profiles, before, cart);
    receipt := if complete.None? then None else Some(TicketViews.WithSubtotal(complete.value));
  }
}
