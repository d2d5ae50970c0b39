# Point-of-sale front end: carts, checkout, ticket views and access rules

This project models the logic of a small point-of-sale web front end
(React components talking to a hosted Postgres store) and proves
properties of it in Dafny. It covers four pieces of the application:

- **The shopping cart.** There are three versions, and the model keeps them
  apart because their rules differ:
  - The two cashier dashboards. They carry the same `addToCart` /
    `removeFromCart` code, modelled once in `DashboardCart`.
  - The sales panel `Prueba2.js`, modelled in `Prueba2Cart`. It adds
    `updateQuantity` and a product search.

  A cart is a sequence of lines. Each line holds a snapshot of the product
  and a quantity. Prices are integer cents, and the total is
  `Σ price × quantity` (`Cart.Total`).
- **The checkout pipeline,** over a store class `SalesStore.SalesDb`. Its
  tables are maps and sequences, and it logs every remote call in order.
  - Every remote call is a method that may fail. What the network answers
    during one checkout is a parameter (`Checkout.Env`).
  - `Checkout` holds the shared steps:
    - the stock read, all at once or line by line;
    - the shortage report;
    - the ticket insert;
    - the item insert;
    - the write-back of `cached stock − quantity`;
    - the read-back of the receipt.
  - Three screens run these steps:
    - `CashierSale` is `processSale` of the cashier dashboard.
    - `Prueba2Purchase` is `processPurchase` of the sales panel.
    - `FrontCashierSale` is the newer dashboard's `processSale`. It writes
      stock first and then records one `sales` row, with no stock check.
- **Ticket views** (`TicketViews`, `Historial.js`):
  - the subtotal `unit_price × quantity` derived for each item;
  - the case-insensitive history search over the ticket id, the seller's
    names and the product names;
  - selecting a ticket and clearing the search;
  - the ten-ticket history of the sales panel.
- **Access control and administration:**
  - `Login`: from role to route after sign-in.
  - `ProtectedRoute`: the decision table of `checkAuth` and the render
    decision.
  - Two admin dashboards (`AdminPanel`, `FrontAdminPanel`, over
    `AdminUsers`): the user list derived from `profiles` with its defaults,
    delete by id, the role update with its admin-only guard and per-user
    busy flag, and the entry decision.
  - `Almacen`, the warehouse screen: who may enter, edit and delete; the
    product form state machine; the confirmed delete; the low-stock flag,
    which is the plain definition `Almacen.LowStock` (fewer than ten units,
    `frontend/src/componentes/Dashboard/Almacen.js:460-462`).

Pure code (find/map/filter/reduce and if/else decision chains) is modelled
as functions with lemmas. Code that changes screen state or the store step
by step is modelled as classes whose methods state the new state. Examples
are `processSale`, `updateUserRole`, `checkAdminAndFetch` and the warehouse
form. The stock-check and stock-write loops are methods with loop
invariants, proved against the specification functions
(`Checkout.ShortageReport`, `Checkout.StockAfter`, `Checkout.ReadCalls`,
`Checkout.WriteCalls`).

Where the source behaves in ways a reader might not expect, the model
follows it:

- **Order of the user check** (`src/.../CashierDashboard.js`): `processSale`
  reads `user.id` only when it builds the ticket. With nobody signed in it
  therefore fails after the stock check, still before any write
  (`CashierSale.Verdict`).
- **Order of the user check** (`Prueba2.js`): the sales panel asks for the
  user first, so it fails before any read (`Prueba2Purchase.Verdict`).
- **The newer dashboard's `processSale`:** it dereferences `user.id` only
  after the stock writes. Without a user, the stock is already written when
  it fails (`FrontCashierSale.Cashier.ProcessSale`).
- **Unchecked stock updates:** the results of the stock updates are never
  inspected. A rejected update leaves that product's stock as it was, and
  the sale goes on.
- **The unchecked receipt read:** the read-back of the completed ticket is
  not checked either. When it returns nothing, `completeTicket.ticket_items`
  throws. Stock, ticket and items are then already written, and the cart is
  kept (`Checkout.ItemsVerdict`).

## Model

The two cashier dashboards' `addToCart`, `removeFromCart` and
`calculateTotal` are the same text. The rows cite the older file, and
`frontend/src/componentes/Dashboard/CashierDashboard.js:61-105` is the
same code.

| member | source | states |
|---|---|---|
| JsValues.Or | src/componentes/Dashboard/AdminDashboard.js:73-75 | `s \|\| fallback`: a present, non-empty string is kept, otherwise the fallback is used |
| JsValues.Lower | src/componentes/Dashboard/Historial.js:63 | `toLowerCase` keeps the length and lower-cases each character |
| JsValues.LowerIdempotent | frontend/src/componentes/Prueba2.js:90-92 | lower-casing an already lower-cased term changes nothing |
| JsValues.IncludesAt | src/componentes/Dashboard/Historial.js:65 | `s.includes(t)` holds exactly when `t` occurs in `s` at some position |
| JsValues.IncludesEmpty | src/componentes/Dashboard/Historial.js:62-71 | every string includes the empty string |
| JsValues.FilterSpec | src/componentes/Dashboard/Historial.js:62 | `filter` keeps exactly the elements that pass, as an order-preserving subsequence |
| Cart.Find | src/componentes/Dashboard/CashierDashboard.js:83 | `find` by id gives the first line with that id, and nothing exactly when no line has it |
| Cart.TotalAppend | src/componentes/Dashboard/CashierDashboard.js:118-120 | the total of two carts put together is the sum of their totals |
| Cart.TotalReplace | src/componentes/Dashboard/CashierDashboard.js:118-120 | replacing one line changes the total by the difference of the two subtotals |
| Cart.TotalNonNegative | src/componentes/Dashboard/CashierDashboard.js:118-120 | with non-negative prices and quantities the total is never negative |
| Cart.RemoveIdKeepsOthers | src/componentes/Dashboard/CashierDashboard.js:113 | filtering out an id keeps exactly the lines with other ids; an absent id changes nothing |
| Cart.RemoveIdDeletesLine | src/componentes/Dashboard/CashierDashboard.js:113 | with unique ids, filtering out line `i`'s id deletes exactly that line and keeps the rest in order |
| Cart.ShiftQuantityAt | src/componentes/Dashboard/CashierDashboard.js:91-95 | with unique ids, the id-keyed quantity change touches only that one line |
| DashboardCart.AddRefusals | src/componentes/Dashboard/CashierDashboard.js:76-88 | an add is refused exactly when the stock is ≤ 0 or the present line's quantity + 1 exceeds it; a refused add returns the same cart with the `No hay suficiente stock` error |
| DashboardCart.AddExisting | src/componentes/Dashboard/CashierDashboard.js:90-95 | an accepted add of a present product raises only that line, by exactly one, staying within the stock |
| DashboardCart.AddNew | src/componentes/Dashboard/CashierDashboard.js:96-98 | an add of a new product with stock appends one line of quantity 1 |
| DashboardCart.AddPreservesInvariants | src/componentes/Dashboard/CashierDashboard.js:76-100 | adding keeps ids unique, quantities ≥ 1 and quantities within the stock checked |
| DashboardCart.AddTotal | src/componentes/Dashboard/CashierDashboard.js:76-120 | an accepted add raises the total by the unit price of the line it touched |
| DashboardCart.RemoveEffect | src/componentes/Dashboard/CashierDashboard.js:102-115 | a line with quantity > 1 is decremented, a line with quantity 1 is deleted, and every other line is kept in order |
| DashboardCart.RemovePreservesInvariants | src/componentes/Dashboard/CashierDashboard.js:102-115 | removing keeps ids unique, quantities ≥ 1 and within stock |
| DashboardCart.RemoveTotal | src/componentes/Dashboard/CashierDashboard.js:102-120 | removing lowers the total by the unit price of the line it touched |
| DashboardCart.AddThenRemove | src/componentes/Dashboard/CashierDashboard.js:76-115 | removing a product right after an accepted add gives back the original cart |
| Prueba2Cart.FindProduct | frontend/src/componentes/Prueba2.js:126 | `data.find` by id gives the first product with that id, or none when no product has it |
| Prueba2Cart.RemoveFromCart | frontend/src/componentes/Prueba2.js:118 | no line with that id is left |
| Prueba2Cart.AddRefusals | frontend/src/componentes/Prueba2.js:99-114 | a present line already at the stock, or a new product with stock < 1, is refused with the cart unchanged; otherwise a new product is appended with quantity 1 |
| Prueba2Cart.AddAgreesWithDashboard | frontend/src/componentes/Prueba2.js:99-114 | on carts with positive quantities, this add accepts and refuses exactly as the dashboards' add does, with the same cart |
| Prueba2Cart.AddPreservesInvariants | frontend/src/componentes/Prueba2.js:99-114 | adding keeps ids unique, quantities ≥ 1 and within stock |
| Prueba2Cart.RemoveDeletesLine | frontend/src/componentes/Prueba2.js:118 | removing deletes that product's line and keeps all others in order |
| Prueba2Cart.UpdateBelowOne | frontend/src/componentes/Prueba2.js:120-124 | a quantity below one is exactly `removeFromCart` |
| Prueba2Cart.UpdateEffect | frontend/src/componentes/Prueba2.js:126-132 | above the listed product's stock the cart is unchanged and the limit is alerted; otherwise only that line gets the new quantity; an unlisted product is not bounded |
| Prueba2Cart.UpdateAbsent | frontend/src/componentes/Prueba2.js:132 | updating a product with no line leaves the cart as it is |
| Prueba2Cart.UpdatePreservesInvariants | frontend/src/componentes/Prueba2.js:120-133 | an update keeps ids unique and quantities ≥ 1; an accepted one stays within the listed stock |
| Prueba2Cart.SearchSpec | frontend/src/componentes/Prueba2.js:89-93 | an empty term keeps all products; otherwise exactly the products whose lower-cased name contains the lower-cased term, in order |
| Prueba2Cart.SearchShortcutAgrees | frontend/src/componentes/Prueba2.js:92 | the empty-term shortcut returns what the filter would |
| Prueba2Cart.SearchCaseInsensitive | frontend/src/componentes/Prueba2.js:90-92 | the result does not depend on the case of what was typed |
| TicketViews.SubtotalMapping | src/componentes/Dashboard/Historial.js:41-47 | every ticket and item is kept, no other field changes, and each item gets `subtotal = unit_price × quantity` |
| TicketViews.SubtotalsAddUp | src/componentes/Dashboard/Historial.js:41-47 | after the mapping, a ticket's subtotals add up to the amount of its items |
| TicketViews.FilterTicketsSpec | src/componentes/Dashboard/Historial.js:62-71 | a ticket is kept iff the lower-cased term occurs in its lower-cased id, the seller's full name or user name, or some product name; the result is an order-preserving subsequence |
| TicketViews.EmptySearchKeepsAll | src/componentes/Dashboard/Historial.js:62-71 | an empty search term keeps every ticket |
| TicketViews.SearchCaseInsensitive | src/componentes/Dashboard/Historial.js:63 | the search ignores the case of the typed term |
| TicketViews.ClearSearchListsAll | src/componentes/Dashboard/Historial.js:84-86 | after `clearSearch` every loaded ticket is listed, and nothing else changes |
| TicketViews.TicketClickSelectsOne | src/componentes/Dashboard/Historial.js:78-82 | clicking selects exactly that ticket, opens the modal, and keeps the list |
| TicketViews.RecentTicketsCap | frontend/src/componentes/Prueba2.js:72-81 | the history holds the first min(n, 10) loaded tickets, each with its subtotals derived |
| SalesStore.StockRead | src/componentes/Dashboard/CashierDashboard.js:134-138 | a stock read returns data exactly when the request succeeds and the product has a row, and then it is that row's stock |
| SalesStore.StockWrite | src/componentes/Dashboard/CashierDashboard.js:186-189 | an update changes only that product's stock, and only when accepted; the set of products is kept |
| SalesStore.TicketView | src/componentes/Dashboard/CashierDashboard.js:194-212 | the joined read of a ticket carries its row, its seller's profile when there is one, and its items in stored order |
| SalesStore.TicketItemsAppend | src/componentes/Dashboard/CashierDashboard.js:205-209 | a ticket's items in two batches of rows are its items in each batch, in order |
| SalesStore.TicketItemsNone | src/componentes/Dashboard/CashierDashboard.js:205-209 | rows of other tickets contribute no items |
| SalesStore.TicketItemsAll | src/componentes/Dashboard/CashierDashboard.js:205-209 | rows all of one ticket are all its items, in order |
| SalesStore.SalesDb.ReadStock | src/componentes/Dashboard/CashierDashboard.js:134-138 | the read is logged and answers as `StockRead` |
| SalesStore.SalesDb.WriteStock | src/componentes/Dashboard/CashierDashboard.js:186-189 | the update is logged and the stock becomes `StockWrite` of the old |
| SalesStore.SalesDb.InsertTicket | src/componentes/Dashboard/CashierDashboard.js:158-166 | the insert is logged; the ticket is stored under the new id exactly when the request succeeds and the id is free; otherwise nothing changes |
| SalesStore.SalesDb.InsertItems | src/componentes/Dashboard/CashierDashboard.js:169-181 | the bulk insert is logged; it stores all the rows, or none when it fails or a row names no stored ticket; every item keeps a stored ticket |
| SalesStore.SalesDb.ReadTicket | src/componentes/Dashboard/CashierDashboard.js:194-212 | the read is logged and returns the joined ticket exactly when the request succeeds and the ticket exists |
| SalesStore.SalesDb.InsertSale | frontend/src/componentes/Dashboard/CashierDashboard.js:123-135 | the insert is logged and appends the sale row exactly when it succeeds |
| Checkout.FirstUnreadable | frontend/src/componentes/Prueba2.js:151-158 | the first line whose stock read gives no data: every line before it was readable |
| Checkout.ReadCalls | src/componentes/Dashboard/CashierDashboard.js:132-140 | the reads the stock check issues: one per line, in cart order; `ReadAllStock` proves the loop issues exactly these |
| Checkout.ShortageReportEmpty | src/componentes/Dashboard/CashierDashboard.js:142-149 | the shortage report is empty exactly when every line's read stock covers its quantity |
| Checkout.ShortageReportLists | src/componentes/Dashboard/CashierDashboard.js:142-154 | the report lists every short line, with its name, available stock and quantity, and nothing else |
| Checkout.WriteCalls | src/componentes/Dashboard/CashierDashboard.js:184-191 | the updates the write-back issues: one per line, in cart order; `WriteStockLevels` proves the loop issues exactly these and `StockAfterSpec` gives the stock they leave |
| Checkout.StockAfterSpec | src/componentes/Dashboard/CashierDashboard.js:184-191 | each written product gets the cart snapshot's `stock − quantity`, whatever the table held, and every other or rejected product keeps its stock |
| Checkout.StockAfterFresh | src/componentes/Dashboard/CashierDashboard.js:132-191 | with fresh snapshots and no shortage, each written product loses exactly the quantity sold and no stock goes negative |
| Checkout.ItemRows | src/componentes/Dashboard/CashierDashboard.js:169-179 | the item rows inserted for the new ticket, one per cart line; `ReceiptOfStoredItems` proves that reading them back gives the cart's receipt |
| Checkout.ReceiptItems | src/componentes/Dashboard/CashierDashboard.js:215-221 | the receipt lines of a sale, one per cart line; `ReceiptTotal` proves their subtotals add up to the stored total |
| Checkout.ReceiptOfStoredItems | src/componentes/Dashboard/CashierDashboard.js:194-221 | the items read back for the new ticket, with subtotals derived, are exactly the receipt items of the cart |
| Checkout.ReadBackReceipt | src/componentes/Dashboard/CashierDashboard.js:194-223 | the ticket read back after its items are stored, with subtotals derived, is the receipt of the cart |
| Checkout.ReceiptTotal | src/componentes/Dashboard/CashierDashboard.js:158-221 | the receipt's subtotals add up to the total the ticket was stored with |
| Checkout.Receipt | src/componentes/Dashboard/CashierDashboard.js:215-223 | the receipt has the new ticket's id, the seller, the cart total and the receipt items |
| Checkout.SaleOf | frontend/src/componentes/Dashboard/CashierDashboard.js:125-133 | the sale row posted for a cart; `SaleTotalMatchesItems` proves its total equals the amount of the items it lists |
| Checkout.SaleTotalMatchesItems | frontend/src/componentes/Dashboard/CashierDashboard.js:125-133 | the sale row's total equals the amount of the items it lists |
| Checkout.StockWrittenAfterItems | src/componentes/Dashboard/CashierDashboard.js:158-191 | stock changes only after a new ticket and one item per line are stored; items only after the ticket; a refused ticket changes nothing |
| Checkout.TailCallsOrder | src/componentes/Dashboard/CashierDashboard.js:158-191 | every stock update comes after the ticket insert and the item insert, and no second ticket insert follows |
| Checkout.ReadAllStock | src/componentes/Dashboard/CashierDashboard.js:132-147 | reads every line's stock in order; a report comes back exactly when every read gives data, and it is then the shortage report |
| Checkout.CheckStockInOrder | frontend/src/componentes/Prueba2.js:150-162 | reads lines in order and stops at the first failed read; when all read, the shortages of every line are collected |
| Checkout.WriteStockLevels | src/componentes/Dashboard/CashierDashboard.js:184-191 | writes every line's `stock − quantity` in order, leaving the stock `StockAfter` the old |
| Checkout.RecordTicket | src/componentes/Dashboard/CashierDashboard.js:158-223 | ticket, items, stock write-back and read-back, stopping at the first refusal; tables, calls, error and receipt are as the tail functions say |
| Checkout.RecordItems | src/componentes/Dashboard/CashierDashboard.js:169-223 | item insert, stock write-back and read-back for a stored ticket, stopping at the first refusal |
| Checkout.WriteBackAndReadTicket | src/componentes/Dashboard/CashierDashboard.js:184-223 | the stock write-back, then a read-back that returns the receipt unless the read fails |
| CashierSale.CompletedSaleChecks | src/componentes/Dashboard/CashierDashboard.js:122-166 | a completed sale had a non-empty cart, a signed-in seller, a covering stock row for every line and a free ticket id |
| CashierSale.OutOfStockExactly | src/componentes/Dashboard/CashierDashboard.js:142-155 | once all reads give data, the sale stops on a shortage exactly when some line asks for more than was read, and the report names every such line |
| CashierSale.Cashier.ProcessSale | src/componentes/Dashboard/CashierDashboard.js:122-243 | an empty cart sets the error with no store calls; a shortage or read failure, or no user, stops before any write; a completed sale writes ticket, items and stock, empties the cart and opens the receipt; any failure keeps the cart and shows the error |
| CashierSale.Cashier.Sell | src/componentes/Dashboard/CashierDashboard.js:128-242 | the non-empty-cart part of `processSale`, with the same outcome |
| CashierSale.Cashier.Refuse | src/componentes/Dashboard/CashierDashboard.js:149-155 | an unreadable or short stock, or no user, ends with that error and no write |
| CashierSale.Cashier.Complete | src/componentes/Dashboard/CashierDashboard.js:157-225 | a passed check records the sale as the tail functions say and, when it completes, empties the cart and shows the receipt |
| Prueba2Purchase.AgreesWithDashboard | frontend/src/componentes/Prueba2.js:137-179 | with a signed-in user the panel ends a purchase exactly as the dashboard ends a sale; without one it stops before any read |
| Prueba2Purchase.FirstFailureReadsPrefix | frontend/src/componentes/Prueba2.js:151-158 | the in-order check reads a prefix of the dashboard's reads, up to and including the first failure |
| Prueba2Purchase.SalesPanel.ProcessPurchase | frontend/src/componentes/Prueba2.js:137-254 | the alert is the verdict; no user means no store call; a failed read stops the reads there; a shortage stops before any write; a completed purchase records the sale, empties the cart and opens the receipt |
| Prueba2Purchase.SalesPanel.Purchase | frontend/src/componentes/Prueba2.js:143-253 | the non-empty-cart part of `processPurchase`, with the same outcome |
| Prueba2Purchase.SalesPanel.FetchTickets | frontend/src/componentes/Prueba2.js:44-87 | with a user and an answer, the history becomes the ten-ticket capped list with subtotals and the panel toggles; otherwise both are kept and an alert is shown |
| FrontCashierSale.Cashier.ProcessSale | frontend/src/componentes/Dashboard/CashierDashboard.js:107-151 | an empty cart makes no call; otherwise every line's stock is written first, then one sale row is inserted when a user is signed in; the cart is cleared only when that insert succeeds |
| AdminUsers.ToUser | src/componentes/Dashboard/AdminDashboard.js:71-77 | id, date and username are copied; email defaults to `No disponible` and role to `cashier` when missing or empty |
| AdminUsers.UsersOf | src/componentes/Dashboard/AdminDashboard.js:71-77 | the user list shown for a profiles table, one user per profile in order; `RemoveAgreesWithReload` and `RoleChangeAgreesWithReload` prove the local edits keep it equal to a reload |
| AdminUsers.FrontUsersOf | frontend/src/componentes/Dashboard/AdminDashboard.js:65-72 | the second dashboard's list, one user per profile in order with the constant `last_sign_in_at` |
| AdminUsers.SetProfileRole | src/componentes/Dashboard/AdminDashboard.js:129-132 | the store's role update; `ProfileOfAfterRoleChange` proves the row read back carries the new role, and `RoleChangeAgreesWithReload` that the list kept locally matches a reload |
| AdminUsers.ProfileOfFinds | frontend/src/componentes/Dashboard/AdminDashboard.js:26-32 | the lookup finds a row exactly when the table has one with that id |
| AdminUsers.ProfileOfAfterRoleChange | src/componentes/Dashboard/AdminDashboard.js:129-145 | the row returned after an update is the same row with the new role, or nothing when there was none |
| AdminUsers.RemoveUserSpec | src/componentes/Dashboard/AdminDashboard.js:112 | deleting keeps exactly the users with another id, in order |
| AdminUsers.SetRoleSpec | src/componentes/Dashboard/AdminDashboard.js:147-151 | only users with that id change, and only in their role |
| AdminUsers.RemoveAgreesWithReload | src/componentes/Dashboard/AdminDashboard.js:102-112 | the list kept after a delete is the list a reload of the edited table would give |
| AdminUsers.RoleChangeAgreesWithReload | src/componentes/Dashboard/AdminDashboard.js:129-151 | for a non-empty role, the list kept after a role change is what a reload would give |
| AdminUsers.EmptyRoleReloadsAsDefault | src/componentes/Dashboard/AdminDashboard.js:75 | a role set to the empty string reloads as `cashier` |
| AdminUsers.ProfilesDb.ReadProfile | frontend/src/componentes/Dashboard/AdminDashboard.js:26-32 | a failed query gives nothing; otherwise the row with that id |
| AdminUsers.ProfilesDb.ReadAll | src/componentes/Dashboard/AdminDashboard.js:64-69 | the whole table, or the error |
| AdminUsers.ProfilesDb.Delete | src/componentes/Dashboard/AdminDashboard.js:102-105 | an accepted delete removes exactly the rows with that id |
| AdminUsers.ProfilesDb.UpdateRole | src/componentes/Dashboard/AdminDashboard.js:129-134 | an accepted update sets the role of the rows with that id and returns the updated row, if any |
| AdminPanel.RoleUpdateErrorCases | src/componentes/Dashboard/AdminDashboard.js:125-145 | a role change succeeds exactly when an admin asks, the store accepts and a row is returned; code `42501` gives the permission message; a non-admin gets `No tienes permisos…` |
| AdminPanel.Panel.FetchAllUsers | src/componentes/Dashboard/AdminDashboard.js:62-84 | success replaces the list by the mapped table; failure keeps it and reports `Error al cargar usuarios: …` |
| AdminPanel.Panel.DeleteUser | src/componentes/Dashboard/AdminDashboard.js:91-117 | unconfirmed does nothing; a non-admin or a store error deletes nothing and sets the error; success removes exactly that id from table and list; a list in sync with the table stays so |
| AdminPanel.Panel.UpdateUserRole | src/componentes/Dashboard/AdminDashboard.js:120-160 | the user's busy flag is set before the request and still set when it comes back, and is false afterwards, with the other flags unchanged; success changes only that user's role; failure sets the error and reloads the list; sync with the table is kept |
| AdminPanel.Panel.RequestRoleChange | src/componentes/Dashboard/AdminDashboard.js:124-151 | the `try` block: its failure is `RoleUpdateError`; only an admin's accepted update changes the table; only success changes the list |
| FrontAdminPanel.ListedOnlyForAdmins | frontend/src/componentes/Dashboard/AdminDashboard.js:19-49 | users are listed only for a signed-in user whose profile says `admin`; with such a profile and every query answered, they are |
| FrontAdminPanel.Panel.CheckAdminAndFetch | frontend/src/componentes/Dashboard/AdminDashboard.js:19-49 | no user or no profile goes to `/login` with the message and the stored role untouched; a non-admin goes to `/unauthorized` with its role stored and the list not loaded; for an admin the role stored is `admin`, kept also when the list load fails and sends to `/login`, and otherwise the mapped list is shown; loading ends false |
| FrontAdminPanel.Panel.UpdateUserRole | frontend/src/componentes/Dashboard/AdminDashboard.js:85-107 | a non-admin gets `Permisos insuficientes` and no change; a store error keeps the list and shows its message; success sets `role = newRole` of exactly that id in table and list |
| Login.HandleLogin | frontend/src/componentes/Auth/login.js:12-45 | a sign-in error is shown with no profile query or navigation; a profile error is shown with no navigation; `admin` goes to `/AdminDashboard`, `cashier` to `/CashierDashboard`, any other role shows `Rol no reconocido` |
| Login.OnlyKnownRolesNavigate | frontend/src/componentes/Auth/login.js:33-39 | only the two known roles ever leave the login page |
| ProtectedRoute.GetUserRole | src/componentes/Auth/protectetroute.js:64-77 | the role query fails exactly when the store errs or the profile is missing |
| ProtectedRoute.RedirectByRole | src/componentes/Auth/protectetroute.js:83-94 | `admin` goes to `/admin`, `cashier` to `/cashier`, anything else to `/` |
| ProtectedRoute.CheckAuthTable | src/componentes/Auth/protectetroute.js:19-57 | auth page with a user: redirect by role, or stay when the role cannot be read; protected page: no user or an unreadable role goes to `/login`; a set required role that differs goes to `/unauthorized`; otherwise stay |
| ProtectedRoute.NoRequiredRoleAdmitsAll | src/componentes/Auth/protectetroute.js:36-44 | without a required role every signed-in user whose role can be read stays |
| ProtectedRoute.Render | src/componentes/Auth/protectetroute.js:96-120 | a spinner while loading; children exactly on an auth page with no user or a protected page with a user |
| ProtectedRoute.ProtectedPageShows | src/componentes/Auth/protectetroute.js:36-117 | a protected page shows its children exactly when a signed-in user's role was read or a user was already kept, even on the way to `/unauthorized` |
| ProtectedRoute.AuthPageShowsWhenSignedOut | src/componentes/Auth/protectetroute.js:25-33 | an auth page with nobody signed in navigates nowhere and shows its children |
| Almacen.PermissionTable | frontend/src/componentes/Dashboard/Almacen.js:469-484 | whoever may delete may edit; `inventory_manager` may edit but not delete; no role may do neither |
| Almacen.FormOf | frontend/src/componentes/Dashboard/Almacen.js:137-143 | the form gets exactly name, description, price, stock and category |
| Almacen.WithForm | frontend/src/componentes/Dashboard/Almacen.js:101-104 | an updated row keeps its id and carries the form's fields |
| Almacen.UpdateRowsSpec | frontend/src/componentes/Dashboard/Almacen.js:101-104 | the update gives rows with that id the form's fields and leaves every other row as it was |
| Almacen.UneditedSubmitKeepsRows | frontend/src/componentes/Dashboard/Almacen.js:99-146 | saving a form just filled by `editProduct` leaves the table as it was |
| Almacen.DeleteRowsSpec | frontend/src/componentes/Dashboard/Almacen.js:152-155 | a delete removes exactly the rows with that id and keeps the rest in order |
| Almacen.SubmitError | frontend/src/componentes/Dashboard/Almacen.js:119 | the error names `actualizar` in edit mode and `crear` otherwise |
| Almacen.ProductsDb.ReadAll | frontend/src/componentes/Dashboard/Almacen.js:72-77 | the table, or nothing on failure |
| Almacen.ProductsDb.Update | frontend/src/componentes/Dashboard/Almacen.js:101-106 | an accepted update is `UpdateRows` of the table |
| Almacen.ProductsDb.Insert | frontend/src/componentes/Dashboard/Almacen.js:109-113 | an accepted insert adds one row with the form's fields and a fresh id, newest first |
| Almacen.ProductsDb.Delete | frontend/src/componentes/Dashboard/Almacen.js:152-157 | an accepted delete is `DeleteRows` of the table |
| Almacen.EntryTable | frontend/src/componentes/Dashboard/Almacen.js:28-68 | only a signed-in `admin` or `inventory_manager` gets in; a missing user or profile goes to `/login` |
| Almacen.Warehouse.FetchProducts | frontend/src/componentes/Dashboard/Almacen.js:70-84 | success shows the table; failure keeps the list and reports `Error al cargar productos: …` |
| Almacen.Warehouse.CheckPermissionsAndFetch | frontend/src/componentes/Dashboard/Almacen.js:28-68 | an auth or profile failure goes to `/login` with its message and the stored role untouched; another role goes to `/unauthorized` with that role stored and no products loaded; a manager's own profile role is stored and the products are loaded, or the load error is shown; loading ends false |
| Almacen.Warehouse.EditProduct | frontend/src/componentes/Dashboard/Almacen.js:136-146 | the form gets the product's fields, the product becomes the update target, and the form shows |
| Almacen.Warehouse.ResetForm | frontend/src/componentes/Dashboard/Almacen.js:124-134 | the empty form (price 0, stock 0), no update target, form hidden |
| Almacen.Warehouse.ToggleForm | frontend/src/componentes/Dashboard/Almacen.js:283 | the add button flips whether the form shows |
| Almacen.Warehouse.HandleSubmit | frontend/src/componentes/Dashboard/Almacen.js:94-122 | edit mode updates the target's row, otherwise a new row is inserted; success reloads and resets the form; failure keeps the table and the form state and names the operation |
| Almacen.Warehouse.DeleteProduct | frontend/src/componentes/Dashboard/Almacen.js:148-164 | nothing happens unless confirmed; a store error is shown; success deletes exactly that id and reloads |

## Left out

- Concurrency: `Promise.all` runs the stock reads and writes of one checkout
  concurrently. Here they are a sequential loop in cart order. The lost
  update between two cashiers writing the same product's stock is not
  modelled.
- Store queries: the hosted store's client library is not part of this
  model.
  - Every query is a method of an in-memory store class, or a parameter
    carrying its answer: failure flags, `Checkout.Env`, the signed-in user.
  - Sort orders (`order('created_at')`, `order('sale_date')`) are not
    modelled. Tables are held in the order the queries return them.
  - Row-level security that silently filters an update or a delete is not
    modelled.
- The product list refresh after a sale (the top-5 or full product query)
  is not modelled. It replaces the product list that `updateQuantity`, the
  search and `addToCart` read; the model takes that list and the clicked
  product as parameters, so a refreshed list is simply a different
  argument.
- Presentation: themes, modals, `alert` texts, loading spinners (except the
  final `loading` flag of the entry checks), the logout buttons, and
  `formatDate` with its locale.
- Arithmetic and parsing: prices are integer cents, so `toFixed(2)`
  rounding is not modelled. `parseFloat` in the warehouse's
  `handleInputChange` is not modelled: the form holds integers.
- Lower-casing: `toLowerCase` is modelled over the ASCII letters only.
- Login.HandleLogin: the `loading` flag is not modelled. It is set at the
  start and cleared in `finally`, so only its final `false` would be
  visible in a function of the answers.
- The `checkAdminAndFetch` of src/componentes/Dashboard/AdminDashboard.js is
  not modelled separately. It takes the same decision as the newer
  dashboard's (`FrontAdminPanel.EntryOf`). Only its messages and its
  handling of a failed list load differ.
- The admin buttons' `disabled` conditions
  (src/componentes/Dashboard/AdminDashboard.js:363, 379, 395 and
  frontend/src/componentes/Dashboard/AdminDashboard.js:291, 305) are not
  modelled separately. Their role test is the guard that the methods
  themselves check.
- The sign-up screens (`singup.js`) are not part of this model. They are a
  thin wrapper around the auth service's sign-up.
- AdminUsers.RoleChangeAgreesWithReload: stated only for a non-empty role.
  With an empty role the kept list shows `""` where a reload would show
  `cashier` (`AdminUsers.EmptyRoleReloadsAsDefault`).
- Historial's `fetchTickets` wrapper (auth check, error and loading state)
  is not modelled; only its subtotal mapping is.
