/** Read-only views of sales tickets: the per-item subtotal every screen
    derives after loading tickets, the history search of `Historial`, and
    the ten-ticket history of the sales panel. */
module TicketViews {
  import opened JsValues

  /** The seller's profile joined to a ticket (`profiles:profiles(...)`). */
  datatype Seller = Seller(username: Option<string>, fullName: Option<string>)

  /** A `ticket_items` row as loaded; `subtotal` is absent until derived. */
  datatype Item = Item(productName: string, quantity: int, unitPrice: int, subtotal: Option<int>)

  /** A ticket as loaded with its seller and items. */
  datatype Ticket = Ticket(id: string, saleDate: string, total: int, sellerId: string,
                           seller: Option<Seller>, items: seq<Item>)

  /** `{ ...item, subtotal: item.unit_price * item.quantity }`. */
  function ItemWithSubtotal(item: Item): Item {
    item.(subtotal := Some(item.unitPrice * item.quantity))
  }

  /** `ticket_items.map(ItemWithSubtotal)`. */
  function ItemsWithSubtotal(items: seq<Item>): seq<Item> {
    seq(|items|, i requires 0 <= i < |items| => ItemWithSubtotal(items[i]))
  }

  /** `{ ...ticket, ticket_items: ticket.ticket_items.map(ItemWithSubtotal) }`. */
  function WithSubtotal(t: Ticket): (r: Ticket)
  {
    t.(items := ItemsWithSubtotal(t.items))
  }

  /** `tickets.map(WithSubtotal)`. */
  function WithSubtotals(ts: seq<Ticket>): (r: seq<Ticket>)
  {
    seq(|ts|, i requires 0 <= i < |ts| => WithSubtotal(ts[i]))
  }

  /** The sum of the derived subtotals of a ticket's items. */
  function SubtotalSum(items: seq<Item>): int {
    if items == [] then 0
    else (if items[0].subtotal.Some? then items[0].subtotal.value else 0) + SubtotalSum(items[1..])
  }

  /** The sum of `unit_price * quantity` over a ticket's items. */
  function ItemsAmount(items: seq<Item>): int {
    if items == [] then 0 else items[0].unitPrice * items[0].quantity + ItemsAmount(items[1..])
  }

  /** Deriving subtotals keeps every ticket and every item, changes no other
      field, and gives each item `unit_price * quantity`. */
  lemma SubtotalMapping(ts: seq<Ticket>)
    ensures |WithSubtotals(ts)| == |ts|
    ensures forall i :: 0 <= i < |ts| ==>
      var (t, r) := (ts[i], WithSubtotals(ts)[i]);
      && r.(items := []) == t.(items := [])
      && |r.items| == |t.items|
      && forall k :: 0 <= k < |t.items| ==>
           r.items[k].(subtotal := None) == t.items[k].(subtotal := None)
           && r.items[k].subtotal == Some(t.items[k].unitPrice * t.items[k].quantity)
  {
  }

  /** After the mapping, the subtotals of a ticket add up to the amount of its items. */
  lemma {:induction false} SubtotalsAddUp(t: Ticket)
    ensures SubtotalSum(WithSubtotal(t).items) == ItemsAmount(t.items)
  {
    SubtotalsAddUpItems(t.items);
  }

  lemma {:induction false} SubtotalsAddUpItems(items: seq<Item>)
    ensures SubtotalSum(ItemsWithSubtotal(items)) == ItemsAmount(items)
  {
    if items != [] {
      SubtotalsAddUpItems(items[1..]);
      assert ItemsWithSubtotal(items)[1..] == ItemsWithSubtotal(items[1..]);
    }
  }

  // ---------------------------------------------------------------------------
  // Historial: search

  /** `name?.toLowerCase().includes(q)`: a missing name matches nothing. */
  predicate NameMatches(name: Option<string>, q: string) {
    name.Some? && Includes(Lower(name.value), q)
  }

  predicate ItemMatches(item: Item, q: string) {
    Includes(Lower(item.productName), q)
  }

  /** The `filteredTickets` test: the lower-cased term occurs in the
      lower-cased ticket id, the seller's full name or user name, or the
      name of some product on the ticket. */
  predicate Matches(t: Ticket, searchTerm: string) {
    var q := Lower(searchTerm);
    || Includes(Lower(t.id), q)
    || (t.seller.Some? && (NameMatches(t.seller.value.fullName, q) || NameMatches(t.seller.value.username, q)))
    || exists k :: 0 <= k < |t.items| && ItemMatches(t.items[k], q)
  }

  /** `filteredTickets`. */
  function FilterTickets(ts: seq<Ticket>, searchTerm: string): (r: seq<Ticket>)
  {
    Filter(ts, (t: Ticket) => Matches(t, searchTerm))
  }

  /** The filter keeps exactly the matching tickets, in their order. */
  lemma FilterTicketsSpec(ts: seq<Ticket>, searchTerm: string)
    ensures forall t :: t in FilterTickets(ts, searchTerm) <==> t in ts && Matches(t, searchTerm)
    ensures Subsequence(FilterTickets(ts, searchTerm), ts)
  {
    FilterSpec(ts, (t: Ticket) => Matches(t, searchTerm));
  }

  /** An empty search term keeps every ticket. */
  lemma EmptySearchKeepsAll(ts: seq<Ticket>)
    ensures FilterTickets(ts, "") == ts
  {
    forall i | 0 <= i < |ts| ensures Matches(ts[i], "") {
      IncludesEmpty(Lower(ts[i].id));
    }
    FilterAll(ts, (t: Ticket) => Matches(t, ""));
  }

  /** The search ignores the case of what was typed. */
  lemma SearchCaseInsensitive(ts: seq<Ticket>, searchTerm: string)
    ensures FilterTickets(ts, searchTerm) == FilterTickets(ts, Lower(searchTerm))
  {
    LowerIdempotent(searchTerm);
    FilterSameTest(ts, (t: Ticket) => Matches(t, searchTerm), (t: Ticket) => Matches(t, Lower(searchTerm)));
  }

  // ---------------------------------------------------------------------------
  // Historial: screen state

  /** The history screen's state: loaded tickets, search box, selection, modal. */
  datatype HistoryScreen = HistoryScreen(tickets: seq<Ticket>, searchTerm: string,
                                         selected: seq<Ticket>, showModal: bool)
  {
    /** The tickets the screen lists. */
    function Listed(): seq<Ticket> {
      FilterTickets(tickets, searchTerm)
    }
  }

  /** `handleTicketClick(ticket)`. */
  function HandleTicketClick(s: HistoryScreen, t: Ticket): (r: HistoryScreen)
  {
    s.(selected := [t], showModal := true)
  }

  /** `clearSearch()`. */
  function ClearSearch(s: HistoryScreen): (r: HistoryScreen)
  {
    s.(searchTerm := "")
  }

  /** Clearing the search lists every loaded ticket and touches nothing else. */
  lemma ClearSearchListsAll(s: HistoryScreen)
    ensures ClearSearch(s).Listed() == s.tickets
    ensures ClearSearch(s).(searchTerm := s.searchTerm) == s
  {
    EmptySearchKeepsAll(s.tickets);
  }

  /** Clicking a ticket selects that ticket alone, opens the modal, and keeps
      the list and the search. */
  lemma TicketClickSelectsOne(s: HistoryScreen, t: Ticket)
    ensures HandleTicketClick(s, t).selected == [t] && HandleTicketClick(s, t).showModal
    ensures HandleTicketClick(s, t).Listed() == s.Listed()
  {
  }

  // ---------------------------------------------------------------------------
  // Sales panel: recent history

  const HistoryCap := 10

  /** `ticketsWithSubtotal.slice(0, 10)`. */
  function RecentTickets(ts: seq<Ticket>): (r: seq<Ticket>)
  {
    var all := WithSubtotals(ts);
    if |all| <= HistoryCap then all else all[..HistoryCap]
  }

  /** The history holds the first ten tickets as loaded, with subtotals. */
  lemma RecentTicketsCap(ts: seq<Ticket>)
    ensures |RecentTickets(ts)| == if |ts| < HistoryCap then |ts| else HistoryCap
    ensures forall i :: 0 <= i < |RecentTickets(ts)| ==> RecentTickets(ts)[i] == WithSubtotal(ts[i])
  {
  }
}
