/** The product and ticket store the cashier screens talk to, reduced to the
    tables they touch and one method per remote call. Each call may fail; the
    outcome the network hands back is a parameter. Every call, read or write,
    is appended to `calls`, so the order of calls and the absence of writes
    can be stated. */
module SalesStore {
  import opened JsValues
  import opened Cart
  import TicketViews

  type UserId = string
  type TicketId = string

  /** A `tickets` row: `seller_id`, `total_amount`, `sale_date`. */
  datatype TicketRow = TicketRow(seller: UserId, total: int, saleDate: string)

  /** A `ticket_items` row. */
  datatype ItemRow = ItemRow(ticket: TicketId, productId: ProductId, productName: string,
                             quantity: int, unitPrice: int)

  /** An entry of the `items` column of a `sales` row. */
  datatype SaleItem = SaleItem(productId: ProductId, quantity: int, price: int)

  /** A `sales` row: `user_id`, `total`, `items`. */
  datatype SaleRow = SaleRow(user: UserId, total: int, items: seq<SaleItem>)

  /** One remote call, with what it sent. */
  datatype Call =
    | ReadStockCall(id: ProductId)
    | WriteStockCall(id: ProductId, stock: int)
    | InsertTicketCall(seller: UserId, total: int)
    | InsertItemsCall(rows: seq<ItemRow>)
    | ReadTicketCall(ticket: TicketId)
    | InsertSaleCall(sale: SaleRow)

  predicate IsWrite(c: Call) {
    !c.ReadStockCall? && !c.ReadTicketCall?
  }

  /** `select('stock').eq('id', id).single()`: no row, or a failed request,
      gives no data. */
  function StockRead(stock: map<ProductId, int>, id: ProductId, fail: bool): (r: Option<int>)
    ensures r.Some? <==> !fail && id in stock
    ensures r.Some? ==> r.value == stock[id]
  {
    if fail || id !in stock then None else Some(stock[id])
  }

  /** `update({ stock: value }).eq('id', id)`: an update matching no row, or
      a failed one, changes nothing. */
  function StockWrite(stock: map<ProductId, int>, id: ProductId, value: int, fail: bool): (r: map<ProductId, int>)
    ensures r.Keys == stock.Keys
    ensures forall k :: k in stock && k != id ==> r[k] == stock[k]
    ensures id in stock ==> r[id] == if fail then stock[id] else value
  {
    if !fail && id in stock then stock[id := value] else stock
  }

  /** A `ticket_items` row as the joined select returns it. */
  function ItemView(row: ItemRow): TicketViews.Item {
    TicketViews.Item(row.productName, row.quantity, row.unitPrice, None)
  }

  /** The `ticket_items(...)` of ticket `id`, in the order they were stored. */
  function TicketItems(rows: seq<ItemRow>, id: TicketId): (r: seq<TicketViews.Item>)
    ensures |r| <= |rows|
  {
    if rows == [] then []
    else
      var last := rows[|rows| - 1];
      TicketItems(rows[..|rows| - 1], id) + (if last.ticket == id then [ItemView(last)] else [])
  }

  /** The joined ticket of `select('id, sale_date, ..., profiles(...), ticket_items(...)')`. */
  function TicketView(id: TicketId, row: TicketRow, profiles: map<UserId, TicketViews.Seller>,
                      rows: seq<ItemRow>): (r: TicketViews.Ticket)
    ensures r.id == id && r.total == row.total && r.sellerId == row.seller && r.saleDate == row.saleDate
    ensures r.seller == if row.seller in profiles then Some(profiles[row.seller]) else None
    ensures r.items == TicketItems(rows, id)
  {
    TicketViews.Ticket(id, row.saleDate, row.total, row.seller,
      if row.seller in profiles then Some(profiles[row.seller]) else None,
      TicketItems(rows, id))
  }

  /** The items of a ticket in a concatenation are its items in each part. */
  lemma {:induction false} TicketItemsAppend(a: seq<ItemRow>, b: seq<ItemRow>, id: TicketId)
    ensures TicketItems(a + b, id) == TicketItems(a, id) + TicketItems(b, id)
    decreases |b|
  {
    if b == [] {
      assert a + b == a;
    } else {
      var n := |b| - 1;
      assert (a + b)[..|a + b| - 1] == a + b[..n];
      assert (a + b)[|a + b| - 1] == b[n];
      TicketItemsAppend(a, b[..n], id);
    }
  }

  /** Rows of other tickets contribute nothing. */
  lemma {:induction false} TicketItemsNone(rows: seq<ItemRow>, id: TicketId)
    requires forall k :: 0 <= k < |rows| ==> rows[k].ticket != id
    ensures TicketItems(rows, id) == []
    decreases |rows|
  {
    if rows != [] {
      TicketItemsNone(rows[..|rows| - 1], id);
    }
  }

  /** When every row belongs to the ticket, its items are all of them, in order. */
  lemma {:induction false} TicketItemsAll(rows: seq<ItemRow>, id: TicketId)
    requires forall k :: 0 <= k < |rows| ==> rows[k].ticket == id
    ensures |TicketItems(rows, id)| == |rows|
    ensures forall k :: 0 <= k < |rows| ==> TicketItems(rows, id)[k] == ItemView(rows[k])
    decreases |rows|
  {
    if rows != [] {
      TicketItemsAll(rows[..|rows| - 1], id);
    }
  }

  class SalesDb {
    var stock: map<ProductId, int>
    var tickets: map<TicketId, TicketRow>
    var items: seq<ItemRow>
    var sales: seq<SaleRow>
    var profiles: map<UserId, TicketViews.Seller>
    var calls: seq<Call>

    /** Referential integrity: every ticket item belongs to a stored ticket. */
    ghost predicate Valid()
      reads this
    {
      forall k :: 0 <= k < |items| ==> items[k].ticket in tickets
    }

    /** A store holding the given stock levels and sellers, with no ticket,
        item or sale yet and nothing asked of it. */
    constructor(stock0: map<ProductId, int>, profiles0: map<UserId, TicketViews.Seller>)
      ensures Valid()
      ensures stock == stock0 && profiles == profiles0
      ensures tickets == map[] && items == [] && sales == [] && calls == []
    {
      stock := stock0;
      tickets := map[];
      items := [];
      sales := [];
      profiles := profiles0;
      calls := [];
    }

    method ReadStock(id: ProductId, fail: bool) returns (r: Option<int>)
      modifies this`calls
      ensures calls == old(calls) + [ReadStockCall(id)]
      ensures r == StockRead(stock, id, fail)
    {
      calls := calls + [ReadStockCall(id)];
      r := StockRead(stock, id, fail);
    }

    /** The update's result is never inspected by the screens, so nothing is returned. */
    method WriteStock(id: ProductId, value: int, fail: bool)
      modifies this`stock, this`calls
      ensures calls == old(calls) + [WriteStockCall(id, value)]
      ensures stock == StockWrite(old(stock), id, value, fail)
    {
      calls := calls + [WriteStockCall(id, value)];
      if !fail && id in stock {
        stock := stock[id := value];
      }
    }

    /** `insert([{ seller_id, total_amount }]).select()`: the store assigns
        `newId`; a rejected request or a taken id stores nothing. */
    method InsertTicket(seller: UserId, total: int, newId: TicketId, saleDate: string, fail: bool)
      returns (r: Option<TicketId>)
      requires Valid()
      modifies this`tickets, this`calls
      ensures Valid()
      ensures calls == old(calls) + [InsertTicketCall(seller, total)]
      ensures r.Some? <==> !fail && newId !in old(tickets)
      ensures r.Some? ==> r.value == newId && tickets == old(tickets)[newId := TicketRow(seller, total, saleDate)]
      ensures r.None? ==> tickets == old(tickets)
    {
      calls := calls + [InsertTicketCall(seller, total)];
      if fail || newId in tickets {
        r := None;
      } else {
        tickets := tickets[newId := TicketRow(seller, total, saleDate)];
        r := Some(newId);
      }
    }

    /** A bulk `insert(rows)` into `ticket_items`: one request, stored whole
        or not at all; a row naming an unknown ticket rejects it. */
    method InsertItems(rows: seq<ItemRow>, fail: bool) returns (ok: bool)
      requires Valid()
      modifies this`items, this`calls
      ensures Valid()
      ensures calls == old(calls) + [InsertItemsCall(rows)]
      ensures ok <==> !fail && forall k :: 0 <= k < |rows| ==> rows[k].ticket in tickets
      ensures items == if ok then old(items) + rows else old(items)
    {
      calls := calls + [InsertItemsCall(rows)];
      ok := !fail && forall k :: 0 <= k < |rows| ==> rows[k].ticket in tickets;
      if ok {
        items := items + rows;
      }
    }

    /** The joined `select(...).eq('id', id).single()` of one ticket. */
    method ReadTicket(id: TicketId, fail: bool) returns (r: Option<TicketViews.Ticket>)
      modifies this`calls
      ensures calls == old(calls) + [ReadTicketCall(id)]
      ensures r.Some? <==> !fail && id in tickets
      ensures r.Some? ==> r.value == TicketView(id, tickets[id], profiles, items)
    {
      calls := calls + [ReadTicketCall(id)];
      if fail || id !in tickets {
        r := None;
      } else {
        r := Some(TicketView(id, tickets[id], profiles, items));
      }
    }

    /** `insert(sale)` into `sales`. */
    method InsertSale(sale: SaleRow, fail: bool) returns (ok: bool)
      modifies this`sales, this`calls
      ensures calls == old(calls) + [InsertSaleCall(sale)]
      ensures ok == !fail
      ensures sales == if ok then old(sales) + [sale] else old(sales)
    {
      calls := calls + [InsertSaleCall(sale)];
      ok := !fail;
      if ok {
        sales := sales + [sale];
      }
    }
  }
}
