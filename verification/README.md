# FeastoPOS point-of-sale app — a Dafny model of its order-handling core

FeastoPOS is a React Native point-of-sale app for restaurant staff. Staff sign in
and see a dashboard. From there they open the live order queue: orders arrive
over a socket, are listed per status tab ("new", "in progress", "complete"), can
be opened in a detail view, and can be accepted, marked ready, cancelled or
delayed. From the detail view a receipt is sent to a printer. The source also
holds an order history screen that prints an order report, but nothing in the
app navigates to it (see the wiring facts below); it is modelled as written.

This project lifts the decisions buried in those screens and services out as
pure functions over immutable datatypes:

- `Payload` — the order record as the server sends it, as a record of `Option`
  fields. Every `??` chain is `FirstSome`, and every `||` chain on strings is
  `FirstTruthy`/`TruthyOr` (both in `Wrappers`).
- `OrdersService` — the list endpoint's record normalisation.
- `LiveQueue` — the pure projections of the live queue: tab to status, record to
  row, the rendered list, and the per-status counts.
- `LiveScreen` — the live queue screen as a state machine. Every awaited call is
  an explicit `Reply` input (`Ok(value)` or `Err(failure)`). Every handler returns
  the state it leaves behind and the gateway calls it issued, in order.
- `OrderDetail` — the detail view: item and total normalisation, the summary
  rows, the payment and customer blocks, and the action bar and its routing.
- `PrintService` — the receipt (as structured fields, not HTML), the print
  alert, and the order report: columns, rows, type counts, and the status groups
  it computes but does not print.
- `OrderHistory` — the history screen: the ordered date range, the history
  rows, the summary counts, the print-option toggles and the print dialog.
- `SocketContext` — the socket provider: the handler registry with set
  semantics, failure-isolating fan-out, and token-driven connect and teardown.
- `AuthService` and `AuthContext` — login response normalisation, storage, and
  the authentication state (hydrate, login, logout).
- `LoginScreen`, `Dashboard` and `AppNav` — the sign-in form, the dashboard
  subtitle, and the top-level navigation.
- Helper modules: `Text` (trimming, name joining), `Dates` (`YYYY-MM-DD`
  formatting with a parse-back inverse) and `Errors` (the shared
  "server message, else error message, else fallback" banner rule).

Money is modelled as integers (minor units), and `Number(...)` coercions are the
identity.

Several screens read the same payload differently. Each such disagreement is
stated as a lemma with a concrete witness:

- The detail view prefers a non-empty `items` array. The receipt prefers
  `products`, even when it is empty (`PrintService.ItemSourcesDisagree`).
- The two prefer opposite payment-method fields
  (`PrintService.PaymentPrecedenceDiffers`).
- They give different names for a blank first name
  (`PrintService.ReceiptNameMatchesDetail`).
- The list and the detail decide "delivery" differently
  (`OrderDetail.DetailKindImpliesListKind`).
- The "table" chip empties the list but not the badge counts
  (`LiveQueue.TableChipDisagreement`).
- The two writers of the badge counts ask different questions: `refreshCounts`
  sends the user's branch id, the `computeCounts` effect sends none
  (`LiveScreen.CountsRequestsDiffer`). The history screen's by-date request
  sends the branch id too (`OrderHistory.Refresh`, `AuthService.BranchParam`).
- The live list totals a record `finalTotal ?? totalAmount ?? total`, while the
  detail view and the history screen use `finalTotal ?? total`
  (`OrderDetail.ListAndDetailTotals`, `OrderHistory.HistoryRowMatchesLiveRow`).
- The history query sends the earlier date first, while the printed report shows
  the range as picked (`OrderHistory.ReportRangeAsPicked`).
- The dashboard's Logout only clears App.tsx's `isLoggedIn` flag
  (App.tsx:57). Nothing calls the authentication context's `logout`, so the
  stored token and the socket outlive it. `AuthContext.SignOut` and
  `AuthContext.LogoutSurvivesRestart` describe a logout no screen performs, and
  `AppNav.Handle` models the one that does.

Two more behaviours are stated with witnesses:

- The cancel confirmation is cancelable and has no dismiss handler. A dismissed
  alert never settles, so the detail's busy flag stays raised, and after Back the
  list shows "Loading order…" (`LiveScreen.DismissedCancelStrandsList`).
- An `items` entry without a price makes `printOrder` throw a TypeError at
  `item.price.toFixed(2)` before the printer is called
  (`PrintService.MissingPriceFailsPrint`). The detail view cannot reach that
  point: its items block throws first at `it.price.toFixed(2)`
  (src/screens/OrderDetailScreen.tsx:276), so the render crashes and there is
  no Print button to press (`PrintService.UnpricedReceiptCrashesDetail`).

Three facts about how the files are wired, which the model sets aside:

- App.tsx (lines 22-26) mounts neither `AuthProvider` nor `SocketProvider`, and
  `useAuth` and `useSocket` throw outside them
  (src/context/AuthContext.tsx:83, src/context/SocketContext.tsx:114). Each
  provider is modelled as it behaves once mounted.
- src/services/ordersService.ts exports only `fetchLiveOrders` (line 24).
  The live and history screens import `fetchOrderById`, `fetchOrdersByDate`,
  `updateOrderStatus` and `updateOrderEstimatedTime` from it
  (src/screens/LiveOrdersScreen.tsx:19-25, src/screens/OrderHistoryScreen.tsx:12).
  Those four are modelled as gateway calls whose replies are inputs.
- App.tsx (lines 51-62) renders only the splash, sign-in, dashboard and live
  orders screens, and the dashboard's Records button does nothing
  (src/screens/DashboardScreen.tsx:21-23). So nothing mounts the order history
  screen, and `printOrders` cannot be reached in the app as wired. `OrderHistory`
  and the report half of `PrintService` model that code as it would behave once
  mounted.

## Model

| member | source | states |
|---|---|---|
| Wrappers.FirstSome | src/services/ordersService.ts:32 | a `??` chain yields the first present value, and nothing exactly when every link is absent |
| Wrappers.FirstTruthy | src/services/authService.ts:22 | an `\|\|` chain of strings yields the first non-empty value, and nothing exactly when every link is absent or empty |
| Wrappers.TruthyOr | src/services/printService.ts:16 | an `\|\|` chain ending in a literal yields the first non-empty link, else the literal |
| Wrappers.TruthyOrPair | src/services/printService.ts:20 | a two-link `\|\|` chain with a default, spelled out case by case |
| Wrappers.FirstSomeCons | src/screens/OrderDetailScreen.tsx:89 | a `??` chain is its head, else the chain of the rest |
| Wrappers.FirstTruthyPair | src/screens/OrderDetailScreen.tsx:192-193 | a two-link `\|\|` chain is its first non-empty link, else the second, else nothing |
| Text.Trim | src/screens/LiveOrdersScreen.tsx:92 | `trim` removes exactly the leading and trailing white space: the result is empty iff the input is all white space, otherwise it starts and ends with non-space and is the input's middle slice |
| Text.TrimOfTrimmed | src/screens/LiveOrdersScreen.tsx:92 | trimming a string with no surrounding white space leaves it unchanged |
| Text.JoinNamePlain | src/screens/LiveOrdersScreen.tsx:92 | two names without surrounding white space join to exactly "first last" |
| Text.NameOrEmail | src/screens/LiveOrdersScreen.tsx:90-93 | the customer label is the joined name when either part is non-empty, else the non-empty e-mail, else the fallback, and is never empty with a non-empty fallback |
| Errors.ErrorText | src/screens/LiveOrdersScreen.tsx:106 | the banner text is the server's message, else the error's message, else the screen's fallback, and is never empty |
| Dates.DecimalRoundTrip | src/screens/OrderHistoryScreen.tsx:38 | the decimal spelling of a year parses back to the same number |
| Dates.Pad2 | src/screens/OrderHistoryScreen.tsx:39-40 | `padStart(2, '0')` of a value below 100 is two digits that parse back to the value |
| Dates.FormatDate | src/screens/LiveOrdersScreen.tsx:62-69 | the date string is the unpadded year, '-', two digits, '-', two digits |
| Dates.FormatDateRoundTrip | src/screens/OrderHistoryScreen.tsx:37-42 | `YYYY-MM-DD` parses back to the same valid date, with the month one-based in the text |
| Dates.FormatDateInjective | src/services/printService.ts:8-13 | two valid dates with the same string are the same date |
| OrdersService.Normalize | src/services/ordersService.ts:27-41 | id is `id` else `_id`; total is `totalAmount ?? total ?? 0`; the order type is non-empty iff `orderType` or `deliveryMethod` is, and then the first of them; the user is projected to three fields; every other field passes through |
| OrdersService.FetchLiveOrders | src/services/ordersService.ts:24-27 | a missing `data` yields no records; otherwise every record is normalised in order; a failed request rejects unchanged |
| LiveQueue.StatusParam | src/screens/LiveOrdersScreen.tsx:77-82 | each tab sends one of 'pending', 'processing' or 'completed' |
| LiveQueue.TabOfStatus | src/screens/LiveOrdersScreen.tsx:77-82 | a status belongs to a tab exactly when it is one of the three, and that tab sends it |
| LiveQueue.StatusParamInverse | src/screens/LiveOrdersScreen.tsx:77-82 | the tab mapping is injective: the status a tab sends leads back to that tab |
| LiveQueue.ToggleChip | src/screens/LiveOrdersScreen.tsx:416-420 | pressing a chip selects it, or returns to 'all' exactly when it was already selected |
| LiveQueue.ToggleChipTwice | src/screens/LiveOrdersScreen.tsx:436-440 | pressing the same chip twice returns to 'all' unless the chip was already selected |
| LiveQueue.ListKind | src/screens/LiveOrdersScreen.tsx:94-97 | a row is a delivery iff `orderType` or `deliveryMethod` equals 'delivery' |
| LiveQueue.MapRow | src/screens/LiveOrdersScreen.tsx:88-101 | a row keeps the id, has the fetching tab as its status, an ETA of the estimate or 20, a total of `finalTotal ?? total ?? 0`, the list's delivery rule and the shared customer label with 'Customer' as fallback |
| LiveQueue.MapRows | src/screens/LiveOrdersScreen.tsx:88-102 | the stored rows are the fetched records, in order and with none dropped, each mapped, all with the current tab's status |
| LiveQueue.RowFromRaw | src/screens/LiveOrdersScreen.tsx:94-98 | from the server record, a row's total is `finalTotal ?? totalAmount ?? total ?? 0`, and it is a delivery iff the raw `orderType` or `deliveryMethod` says so |
| LiveQueue.Visible | src/screens/LiveOrdersScreen.tsx:181-193 | the rendered list is a subsequence of the rows and holds every row of the current tab that passes the type filter exactly as many times as the rows do, and nothing else; the 'table' chip renders nothing |
| LiveQueue.StaleRowsHidden | src/screens/LiveOrdersScreen.tsx:184 | rows from another tab are never rendered |
| LiveQueue.PartitionSum | src/screens/LiveOrdersScreen.tsx:120-124 | the three status buckets plus the records in none of them account for every record exactly once |
| LiveQueue.PartitionCounts | src/screens/LiveOrdersScreen.tsx:120-124 | each badge counts the records with exactly its status; the badges sum to at most the number of records, the rest being unbucketed |
| LiveQueue.CountStatusAppend | src/screens/LiveOrdersScreen.tsx:121 | counting a status distributes over concatenation |
| LiveQueue.AddOneRecord | src/screens/LiveOrdersScreen.tsx:120-124 | one more record raises exactly the badge of its status, and a cancelled or unknown status changes no badge |
| LiveQueue.ByOrderType | src/screens/LiveOrdersScreen.tsx:203-205 | the counts effect keeps, in order and with their multiplicity, exactly the records whose `orderType` matches the filter, and all of them under 'all' |
| LiveQueue.EffectCounts | src/screens/LiveOrdersScreen.tsx:203-211 | each badge equals the number of records with that status and a matching `orderType`, counted independently of the filter step; under 'all' the badges are the partition counts |
| LiveQueue.ByOrderTypeCount | src/screens/LiveOrdersScreen.tsx:203-211 | the badge computed from the filtered records equals the independent count of records with that status and a matching type |
| LiveQueue.ByOrderTypeCountBound | src/screens/LiveOrdersScreen.tsx:203-208 | filtering by type never raises a status count |
| LiveQueue.EffectCountsBounded | src/screens/LiveOrdersScreen.tsx:203-211 | each filtered badge is at most the unfiltered badge |
| LiveQueue.TableChipDisagreement | src/screens/LiveOrdersScreen.tsx:185-205 | a 'table' order is counted in the badge under the 'table' chip, while the list under that chip is empty |
| LiveScreen.Initial | src/screens/LiveOrdersScreen.tsx:43-60 | on mount the New tab, every type and today are chosen, nothing is fetched, selected or open, counts are zero, the user is the auth context's, and the screen shows an empty list |
| LiveScreen.QueryWindow | src/screens/LiveOrdersScreen.tsx:75-76 | the window sent parses back to the start day and today |
| LiveScreen.RefreshListPending | src/screens/LiveOrdersScreen.tsx:73-74 | a silent refresh shows nothing pending; a non-silent one sets loading and clears the banner |
| LiveScreen.RefreshList | src/screens/LiveOrdersScreen.tsx:71-112 | one list request for the tab's status; success replaces the rows with the mapped records; failure keeps the rows; only a non-silent refresh touches loading and the banner, ending with loading false and 'Failed to load orders' as fallback |
| LiveScreen.RefreshCounts | src/screens/LiveOrdersScreen.tsx:114-126 | one by-date request carrying the user's `branch.id \|\| branchId`; success sets the partition counts; a failure is swallowed and changes nothing |
| LiveScreen.RefreshAll | src/screens/LiveOrdersScreen.tsx:128-130 | both requests are issued; rows, banner and loading come from the list half and counts from the counts half; the selections and the detail are untouched |
| LiveScreen.RefreshOrderIrrelevant | src/screens/LiveOrdersScreen.tsx:129 | the two halves write disjoint state, so either completion order gives the same state |
| LiveScreen.SilentRefreshIdempotent | src/screens/LiveOrdersScreen.tsx:171 | repeating a silent refresh with the same answers changes nothing more |
| LiveScreen.ComputeCounts | src/screens/LiveOrdersScreen.tsx:197-217 | one by-date request with no branch id; the effect sets the type-filtered counts; given the same reply under 'all' it writes what `refreshCounts` writes; a failure is swallowed |
| LiveScreen.CountsRequestsDiffer | src/screens/LiveOrdersScreen.tsx:118-119 | the two badge writers send the same by-date request iff the user has no branch id |
| LiveScreen.SelectTab | src/screens/LiveOrdersScreen.tsx:132-134 | changing the tab schedules both the refresh and the counts effect; re-pressing the current tab schedules nothing |
| LiveScreen.PressChip | src/screens/LiveOrdersScreen.tsx:416-458 | a chip press always changes the filter, refetches no list and schedules only the counts effect |
| LiveScreen.SelectDateOffset | src/screens/LiveOrdersScreen.tsx:661-663 | changing the start day schedules both effects; picking the same day schedules nothing |
| LiveScreen.HandleOrderEvent | src/screens/LiveOrdersScreen.tsx:158-174 | the sound is requested iff the message is an 'order_created' event; every message triggers a silent refresh, which leaves loading and the banner alone |
| LiveScreen.SelectOrder | src/screens/LiveOrdersScreen.tsx:222-237 | tapping a row selects it, clears the banner and fetches its detail with the user's branch id; failure sets 'Failed to load order'; the busy flag ends false |
| LiveScreen.MutateStatus | src/screens/LiveOrdersScreen.tsx:259-280 | without a detail nothing happens; otherwise the status update is the first call and the refetch by id with the branch id the second; a failed update or refetch keeps the detail and sets the banner; on success the detail and selection are cleared after a full non-silent refresh, keeping tab, filter, start day and user; the busy flag ends false; the call log is the update alone, then the refetch, then the list and counts requests, as far as each step succeeds |
| LiveScreen.Accept | src/screens/LiveOrdersScreen.tsx:259-280 | Accept moves the order to 'processing' and reports 'Failed to accept order' |
| LiveScreen.Ready | src/screens/LiveOrdersScreen.tsx:281-302 | Ready moves the order to 'completed' and reports 'Failed to mark ready' |
| LiveScreen.Cancel | src/screens/LiveOrdersScreen.tsx:303-347 | "No" returns before any gateway call and lowers the busy flag; a dismissed alert never settles and leaves the busy flag raised; a confirmed cancel moves the order to 'cancelled' and on failure keeps the detail with 'Failed to cancel order' |
| LiveScreen.Back | src/screens/LiveOrdersScreen.tsx:348-352 | Back clears the selection and the detail and refreshes both halves, leaving the detail busy flag as it was |
| LiveScreen.OpenDelay | src/screens/LiveOrdersScreen.tsx:258 | the delay button opens the menu and changes nothing else |
| LiveScreen.CloseDelay | src/screens/LiveOrdersScreen.tsx:618 | the menu's Cancel closes it and changes nothing else |
| LiveScreen.StoredEta | src/screens/LiveOrdersScreen.tsx:586-588 | the current estimate is the stored one, or 0 when absent |
| LiveScreen.Delay | src/screens/LiveOrdersScreen.tsx:582-609 | a menu entry sends the stored estimate plus the increment as the new absolute estimate, then refetches the order with the branch id; on success the detail stays open with the refetched payload, the menu closes and a non-silent refresh sets rows, banner and counts while tab, filter, start day and user are kept; failures set 'Failed to update order'; the call log is the update alone, then the refetch, then the list and counts requests, as far as each step succeeds |
| LiveScreen.DelaysAccumulate | src/screens/LiveOrdersScreen.tsx:582-609 | when the refetch carries the estimate just sent, the detail stays open and a second delay sends the original estimate plus both increments |
| LiveScreen.ViewOf | src/screens/LiveOrdersScreen.tsx:254-530 | the screen shows the detail when one is open, else 'Loading…' while the list loads, else 'Loading order…' while the detail is busy, else the filtered rows |
| LiveScreen.DismissedCancelStrandsList | src/screens/LiveOrdersScreen.tsx:310-326 | after a dismissed cancel alert and Back, the screen shows 'Loading order…' whatever the refresh returns |
| LiveScreen.SettledHandlersClearBusy | src/screens/LiveOrdersScreen.tsx:222-347 | selecting, accepting, marking ready, delaying and every cancel answer but a dismissal leave the busy flag false |
| LiveScreen.SelectedOrderIsShown | src/screens/LiveOrdersScreen.tsx:222-237 | a loaded order is what the screen shows next |
| LiveScreen.ActionReturnsToList | src/screens/LiveOrdersScreen.tsx:259-280 | a completed status change shows the refetched rows of the same tab under the same filter |
| LiveScreen.ReselectSchedulesNothing | src/screens/LiveOrdersScreen.tsx:132-134 | re-selecting the current tab or start day schedules nothing and changes nothing |
| LiveScreen.PressChipTwice | src/screens/LiveOrdersScreen.tsx:416-440 | pressing a chip twice from 'all' or from that chip restores the state |
| LiveScreen.RepeatedEventsSettle | src/screens/LiveOrdersScreen.tsx:158-174 | a second push message meeting the same answers changes nothing, and the open detail is never disturbed |
| OrderDetail.NormalizeAttributes | src/screens/OrderDetailScreen.tsx:91-100 | each attribute keeps its name and its selected items, an absent list becoming empty |
| OrderDetail.ProductLine | src/screens/OrderDetailScreen.tsx:85-101 | a product line's id is `id` else `_id`; its name is the product's name else its own; qty defaults to 1; price is `itemTotal ?? price.total ?? price ?? 0`; attributes are normalised when present |
| OrderDetail.ProductLines | src/screens/OrderDetailScreen.tsx:84-101 | products are mapped one to one, in order |
| OrderDetail.DetailItems | src/screens/OrderDetailScreen.tsx:82-104 | the items are `items` when it is non-empty, else the mapped `products`, else none |
| OrderDetail.DetailTotals | src/screens/OrderDetailScreen.tsx:107-122 | each of the seven amounts follows its own `??` chain ending in 0 |
| OrderDetail.ListAndDetailTotals | src/screens/OrderDetailScreen.tsx:107-122 | the list row and the detail view give the same total iff a final total is present, `totalAmount` is absent, or it equals `total ?? 0`; 1200 against 1000 otherwise |
| OrderDetail.DetailKind | src/screens/OrderDetailScreen.tsx:158-162 | the detail shows a delivery iff `orderType \|\| deliveryMethod` is 'delivery' |
| OrderDetail.DetailKindImpliesListKind | src/screens/OrderDetailScreen.tsx:158-162 | a detail delivery is always a list delivery, but not conversely: a 'collection' order type with a 'delivery' method is a list delivery and a detail collection |
| OrderDetail.ServiceChargeShown | src/screens/OrderDetailScreen.tsx:126-129 | a numeric `serviceCharge` is shown as is (even 0); otherwise the derived charge is shown only when non-zero |
| OrderDetail.SubtotalShown | src/screens/OrderDetailScreen.tsx:130-131 | the subtotal row shows the derived subtotal |
| OrderDetail.SummaryOf | src/screens/OrderDetailScreen.tsx:302-348 | the summary always ends with the subtotal row and then the total row, after the optional rows |
| OrderDetail.SummaryShows | src/screens/OrderDetailScreen.tsx:302-348 | a row label appears iff it is discount, tips or tax with a non-zero amount, the delivery fee with a non-zero amount on a delivery, the service charge when one is shown, or the subtotal or total, which always appear |
| OrderDetail.DetailSummary | src/screens/OrderDetailScreen.tsx:302-348 | the same conditions stated on the raw payload fields, with the subtotal and total rows last |
| OrderDetail.SummaryAmounts | src/screens/OrderDetailScreen.tsx:302-348 | every summary line carries its own amount: each optional line its total, the service charge its shown value, the subtotal the derived subtotal |
| OrderDetail.SummaryOrdered | src/screens/OrderDetailScreen.tsx:302-348 | the summary lines appear in the order discount, tips, delivery fee, tax, service charge, subtotal, total |
| OrderDetail.DetailSummaryAmounts | src/screens/OrderDetailScreen.tsx:302-348 | the optional lines carry the raw payload amounts: discount applied else discount, tips, delivery fee, tax, service charge |
| OrderDetail.DetailSummaryOrdered | src/screens/OrderDetailScreen.tsx:302-348 | the detail summary keeps the display order |
| OrderDetail.HeaderNumber | src/screens/OrderDetailScreen.tsx:140 | the header shows `orderNumber` when non-empty, else the id |
| OrderDetail.DetailPayment | src/screens/OrderDetailScreen.tsx:157-165 | the payment block's method and status prefer the nested `payment` object over the flat fields, and show '-' when both are empty |
| OrderDetail.ContactName | src/screens/OrderDetailScreen.tsx:187-191 | with a non-empty first name the name is "first last" trimmed, otherwise the customer object's name |
| OrderDetail.DetailContact | src/screens/OrderDetailScreen.tsx:185-195 | the customer block shows iff a user or a customer is attached; its name is never empty; its e-mail and phone are the user's non-empty value, else the customer's, else none |
| OrderDetail.ActionBar | src/screens/OrderDetailScreen.tsx:389-450 | Delay is always first; Reject and Accept only on 'new'; Ready and Cancel only 'in progress'; Print on every stage but 'new'; no stage offers both Accept and Ready |
| OrderDetail.Route | src/screens/OrderDetailScreen.tsx:60-79 | Print always prints; every other button invokes its supplied callback, and Reject and Cancel both invoke the cancel callback; a missing callback shows a local alert titled after the button |
| OrderDetail.RejectIsCancel | src/screens/OrderDetailScreen.tsx:70-75 | with a cancel callback supplied, Reject and Cancel do the same thing |
| PrintService.ReceiptProduct | src/services/printService.ts:30-45 | a receipt product has the product's name else its own, qty defaulting to 1, price `itemTotal ?? price.total ?? price ?? 0`, notes defaulting to '', and attributes defaulting to none |
| PrintService.ReceiptLineItem | src/services/printService.ts:47-53 | an `items` entry keeps name, qty and price, and its notes and attributes default to empty |
| PrintService.ReceiptItems | src/services/printService.ts:29-54 | the receipt takes `products` whenever it is an array, even an empty one, else `items`, else nothing |
| PrintService.ReceiptProductMatchesDetail | src/services/printService.ts:30-45 | a product shows the same name, qty and price on the receipt as in the detail view |
| PrintService.ItemSourcesDisagree | src/services/printService.ts:29-54 | an order with one `items` entry and an empty `products` array shows the item in the detail view but prints no items |
| PrintService.ReceiptName | src/services/printService.ts:21-23 | with a non-empty first name the receipt name is "first last" trimmed, else the customer name, else 'Customer' |
| PrintService.ReceiptNameMatchesDetail | src/services/printService.ts:21-23 | the receipt and the detail show the same name except exactly when the first name is non-empty but both names trim to nothing |
| PrintService.ReceiptSummary | src/services/printService.ts:242-291 | the receipt summary starts with the subtotal row and ends with the total row |
| PrintService.ReceiptShows | src/services/printService.ts:242-291 | a row label appears iff it is discount, service charge or tips with a positive amount, the delivery fee with a positive amount when the order type is 'delivery', or the subtotal or total; tax never appears |
| PrintService.ReceiptCharges | src/services/printService.ts:56-68 | the same rows stated on the raw payload fields, including the `orderType \|\| deliveryMethod \|\| 'collection'` test for the delivery fee |
| PrintService.ReceiptAmounts | src/services/printService.ts:242-291 | every receipt summary line carries its own amount |
| PrintService.ReceiptOrdered | src/services/printService.ts:242-291 | the receipt lines appear in the order subtotal, discount, service charge, tips, delivery fee, total |
| PrintService.ReceiptChargesAmounts | src/services/printService.ts:56-68 | the receipt's optional lines carry the raw payload amounts and keep the receipt order |
| PrintService.FormatReceipt | src/services/printService.ts:15-73 | the receipt defaults order number to 'N/A', type to 'collection', branch to 'Restaurant', payment method to 'card' and status to 'paid', preferring the flat payment fields, and none of these is ever empty; the placed stamp and the customer notes appear exactly when the payload's are non-empty |
| PrintService.ReceiptContact | src/services/printService.ts:24-25 | the receipt's e-mail and phone are the user's non-empty value, else the customer's, else blank, and match the detail view's customer block whenever it shows |
| PrintService.ReceiptNumberMatchesHeader | src/services/printService.ts:16 | the receipt's order number is the one the detail header shows, or 'N/A' when the header would be blank |
| PrintService.PaymentPrecedenceDiffers | src/services/printService.ts:70-73 | with flat 'cash' and nested 'card', the receipt prints 'cash' while the detail view shows 'card' |
| PrintService.PrintOrder | src/services/printService.ts:210-343 | a receipt reaches the printer iff every item has a price; otherwise formatting throws and the print fails with the engine's TypeError |
| PrintService.MissingPriceFailsPrint | src/services/printService.ts:47-53 | products always print; on its own, `printOrder` given an `items` entry without a price fails before the printer is called |
| PrintService.UnpricedReceiptCrashesDetail | src/screens/OrderDetailScreen.tsx:249-276 | a receipt line without a price always comes from an `items` entry the detail view's items block also renders, so that render throws first; with `products` present the receipt prints while an unpriced `items` entry still breaks the render |
| PrintService.PrintError | src/services/printService.ts:340-343 | a printer failure is rethrown with a message starting 'Failed to print: ' |
| PrintService.PrintAlert | src/screens/OrderDetailScreen.tsx:60-67 | a successful print alerts 'Receipt sent to printer'; a failure alerts 'Print error' with the rethrown message |
| PrintService.SelectColumns | src/services/printService.ts:454-486 | the chosen columns are exactly the selected ones among those given, kept in the given order |
| PrintService.Columns | src/services/printService.ts:454-486 | the report header starts with '#', holds exactly the selected optional columns, and keeps the fixed order ID, CUSTOMER, T, TIME, STATUS, AMOUNT |
| PrintService.Truncate | src/services/printService.ts:500-502 | a customer longer than 15 characters becomes its first 15 plus '...'; shorter ones are unchanged |
| PrintService.CellFor | src/services/printService.ts:491-531 | each cell holds its column's value: the one-based index, the order number, the truncated customer of at most 18 characters, D exactly for a delivery, the time, the status and the total |
| PrintService.ReportRow | src/services/printService.ts:487-533 | every row has one cell per header column, each of the matching kind |
| PrintService.Bump | src/services/printService.ts:389 | counting one more order adds its status key when new and keeps every other key |
| PrintService.BumpCounts | src/services/printService.ts:387-393 | one more order raises exactly its status group by one, keeps the keys distinct and raises the total by one |
| PrintService.StatusGroupsCount | src/services/printService.ts:387-393 | every status appears as a key once, each group counts the orders with that status, and the groups sum to the number of orders |
| PrintService.KindsPartition | src/services/printService.ts:383-384 | delivery and collection counts sum to the number of orders |
| PrintService.PrintOrders | src/services/printService.ts:355-533 | an empty list prints nothing; otherwise the report prints the picked range as `YYYY-MM-DD`, uses the given options or the four-true, two-false defaults, has row i equal to the report row of order i, and its counts and status groups partition the orders |
| PrintService.ReportRange | src/services/printService.ts:436 | the printed range reads back as the two picked dates |
| OrderHistory.QueryRange | src/screens/OrderHistoryScreen.tsx:63-67 | the range sent has the earlier picked date first and the later one last, whichever picker holds which |
| OrderHistory.QueryRangeSymmetric | src/screens/OrderHistoryScreen.tsx:64-67 | swapping two different picked dates sends the same range |
| OrderHistory.HistoryRow | src/screens/OrderHistoryScreen.tsx:70-84 | a history row passes id, number, status and time through, is a delivery iff either type field says so, totals `finalTotal ?? total ?? 0`, and takes the shared customer label with 'Customer' as fallback |
| OrderHistory.HistoryRowMatchesLiveRow | src/screens/OrderHistoryScreen.tsx:70-84 | the history row and the live row agree on customer and delivery; their totals agree iff a final total is present, `totalAmount` is absent, or it equals `total ?? 0` |
| OrderHistory.HistoryRows | src/screens/OrderHistoryScreen.tsx:70-85 | every fetched order becomes a row, in order |
| OrderHistory.Toggle | src/screens/OrderHistoryScreen.tsx:267-397 | a checkbox flips its own flag and leaves the other five unchanged |
| OrderHistory.ToggleTwice | src/screens/OrderHistoryScreen.tsx:269-274 | ticking a checkbox twice restores the options |
| OrderHistory.ToggleCommute | src/screens/OrderHistoryScreen.tsx:267-397 | ticks of two checkboxes give the same options in either order |
| OrderHistory.Initial | src/screens/OrderHistoryScreen.tsx:31-57 | both pickers start on the current moment, exactly Time and Status start unticked, and the user is the auth context's |
| OrderHistory.RefreshPending | src/screens/OrderHistoryScreen.tsx:61-62 | while loading, the banner is cleared and the rest of the state is kept |
| OrderHistory.Refresh | src/screens/OrderHistoryScreen.tsx:59-91 | the ordered range is queried with the user's branch id; success replaces the rows; failure keeps them and sets the banner with 'Failed to load' as fallback; loading always ends false |
| OrderHistory.RefreshIdempotent | src/screens/OrderHistoryScreen.tsx:59-91 | refreshing twice with the same answer is the same as once |
| OrderHistory.PickFrom | src/screens/OrderHistoryScreen.tsx:233-235 | confirming the from-picker stores the moment and always fetches again, the picker handing over a new `Date` |
| OrderHistory.PickTo | src/screens/OrderHistoryScreen.tsx:244-246 | confirming the to-picker stores the moment and always fetches again |
| OrderHistory.UserChanged | src/screens/OrderHistoryScreen.tsx:91 | a new user from the auth context fetches again iff it differs |
| OrderHistory.PickedRangeIsQueried | src/screens/OrderHistoryScreen.tsx:59-91 | the fetch after a pick spans the picked day and the other picker's day, scoped to the same branch |
| OrderHistory.UserChangeRescopesQuery | src/screens/OrderHistoryScreen.tsx:68-91 | after a user change the same range is fetched with the new user's branch id, and a changed branch always triggers the fetch |
| OrderHistory.Summarize | src/screens/OrderHistoryScreen.tsx:189-213 | the delivery and collection counts sum to the orders count |
| OrderHistory.OpenPrintDialog | src/screens/OrderHistoryScreen.tsx:168-171 | the Print button opens the dialog only when there are orders |
| OrderHistory.TickOption | src/screens/OrderHistoryScreen.tsx:269-274 | a tick changes only the print options |
| OrderHistory.ConfirmPrint | src/screens/OrderHistoryScreen.tsx:407-412 | confirming closes the dialog and produces exactly the report of the listed orders over the picked range with the chosen options |
| OrderHistory.ReportRangeAsPicked | src/screens/OrderHistoryScreen.tsx:63-67 | with the pickers reversed the report prints the later date first while the query starts with the earlier one |
| OrderHistory.ReportAgreesWithSummary | src/screens/OrderHistoryScreen.tsx:189-213 | the printed report's order, delivery and collection counts are the summary widget's |
| SocketContext.Register | src/context/SocketContext.tsx:97-99 | registering adds the handler once, keeping the registry free of duplicates |
| SocketContext.Unregister | src/context/SocketContext.tsx:100-102 | unregistering removes exactly that handler |
| SocketContext.RegisterIdempotent | src/context/SocketContext.tsx:97-99 | registering the same handler twice is the same as once |
| SocketContext.UnregisterUndoesRegister | src/context/SocketContext.tsx:97-102 | removing a newly added handler restores the registry |
| SocketContext.Forward | src/context/SocketContext.tsx:69-75 | every registered handler is called, in order, and exactly those that do not throw complete |
| SocketContext.ReplaceHttpPrefix | src/context/SocketContext.tsx:42 | a leading 'http' becomes 'ws'; anything else is unchanged |
| SocketContext.SocketUrlIsSecure | src/context/SocketContext.tsx:41-42 | the socket URL is 'wss://dev.feasto.co.uk' |
| SocketContext.OptionsFor | src/context/SocketContext.tsx:43-50 | the socket opens on '/api/socket' with the token, websocket then polling, and 5 reconnection attempts 1000 ms apart |
| SocketContext.Dropped | src/context/SocketContext.tsx:30-35 | an existing socket is told to disconnect and otherwise unchanged |
| SocketContext.TokenEffect | src/context/SocketContext.tsx:27-77 | without a token any socket is disconnected and dropped and the flag cleared; with one, a socket is opened with that token, listened to on three channels and asked to join the restaurant room with it |
| SocketContext.Cleanup | src/context/SocketContext.tsx:79-88 | teardown stops listening, disconnects, drops the socket and clears the flag |
| SocketContext.TokenChange | src/context/SocketContext.tsx:27-89 | a token change first tears down the previous run's socket, closed and no longer listened to, then runs the effect: the new socket carries the new token, or there is none without a token; a replaced socket leaves the flag false |
| SocketContext.TokenChangeLeavesOneOpenSocket | src/context/SocketContext.tsx:27-89 | after a new token replaces an old one, the old socket is closed and unlistened, the new one open with the new token on all three channels, and nothing is disconnected twice |
| SocketContext.LogoutClosesSocketOnce | src/context/SocketContext.tsx:27-89 | losing the token tears the socket down through the cleanup, leaves none, and the no-token branch finds nothing to disconnect |
| SocketContext.OnSocketEvent | src/context/SocketContext.tsx:53-63 | a listened-to connect sets the flag, a disconnect clears it, and an event on a channel not listened to changes nothing |
| SocketContext.ConnectedFollowsEvents | src/context/SocketContext.tsx:53-60 | once a token has opened a socket, connect sets the flag and disconnect clears it |
| SocketContext.OnOrderEvent | src/context/SocketContext.tsx:97-99 | `onOrderEvent` adds the handler with set semantics and leaves the connection alone |
| SocketContext.OffOrderEvent | src/context/SocketContext.tsx:100-102 | `offOrderEvent` removes exactly that handler and leaves the connection alone |
| SocketContext.DeliverOrder | src/context/SocketContext.tsx:76-77 | an 'order' message reaches every registered handler while the socket listens, and none otherwise |
| AuthService.Login | src/services/authService.ts:14-29 | the token is `token \|\| accessToken \|\| data.token`, and the user is `user \|\| data.user`; a missing token fails with 'Invalid login response: missing token' before anything is stored; on success exactly the returned token and user are stored |
| AuthService.StoreChangesOnlyOnSuccess | src/services/authService.ts:24-27 | storage changes only when the login succeeds |
| AuthService.BranchParam | src/screens/OrderHistoryScreen.tsx:68 | the branch id both order screens send is the user's non-empty `branch.id`, else the flat `branchId`, and none without a user |
| AuthContext.Hydrate | src/context/AuthContext.tsx:34-51 | after hydration loading is false, the state is authenticated iff the stored token is non-empty, and token and user are the stored ones; it differs from the initial state only in loading exactly when storage is empty |
| AuthContext.SignIn | src/context/AuthContext.tsx:53-61 | success sets authenticated, the token and the user (or none); a rejection leaves the state and storage unchanged and propagates |
| AuthContext.SignOut | src/context/AuthContext.tsx:63-71 | logout clears storage and ends unauthenticated, not loading, with no token or user |
| AuthContext.LoginSurvivesRestart | src/context/AuthContext.tsx:41-61 | after a successful login, hydrating from storage reproduces the logged-in state |
| AuthContext.LogoutSurvivesRestart | src/context/AuthContext.tsx:41-71 | after logout, hydrating from storage is unauthenticated |
| LoginScreen.SubmitPending | src/screens/LoginScreen.tsx:29-30 | while signing in the error is cleared and loading is set |
| LoginScreen.Submit | src/screens/LoginScreen.tsx:23-39 | an empty field sets 'Enter email and password' and sends nothing; otherwise the trimmed e-mail and the verbatim password are sent; `onLogin` fires iff the login succeeds; a failure sets a non-empty message with 'Login failed' as fallback; loading ends false |
| LoginScreen.BlankEmailIsSentEmpty | src/screens/LoginScreen.tsx:24-31 | an e-mail of only spaces passes validation and is sent as the empty string |
| LoginScreen.SubmitOutcomes | src/screens/LoginScreen.tsx:23-39 | a successful submit leaves a session a restart restores; a refused submit is a fixed point of resubmitting |
| Dashboard.DisplayName | src/screens/DashboardScreen.tsx:12-15 | the display name is the joined name when either part is non-empty, else the e-mail, else '' |
| Dashboard.DisplayNameIsNameOrEmail | src/screens/DashboardScreen.tsx:12-15 | with '' as the default, the dashboard's `??` agrees with the lists' customer label |
| Dashboard.BranchName | src/screens/DashboardScreen.tsx:16 | the branch name is the user's non-empty branch name, else '' |
| Dashboard.SubtitleOf | src/screens/DashboardScreen.tsx:28-31 | the subtitle shows iff the name or branch is non-empty, with the separator iff both are |
| Dashboard.SubtitleFallsBackToEmail | src/screens/DashboardScreen.tsx:12-31 | signed out there is no subtitle; a user without a name is shown by e-mail, with the separator iff the branch has a name |
| AppNav.Rendered | App.tsx:51-61 | the splash hides everything; signed out shows the sign-in screen; signed in shows the remembered screen |
| AppNav.Handle | App.tsx:36-61 | the splash timer ends the splash; each callback acts only from the screen it is given to: sign-in sets signed in, logout clears it without touching the screen, and live orders and back switch screens |
| AppNav.HandleKeepsConsistent | App.tsx:53-61 | while signed out, the remembered screen stays the dashboard |
| AppNav.RunKeepsConsistent | App.tsx:32-61 | from any consistent state, every sequence of events keeps it consistent |
| AppNav.SignInLandsOnDashboard | App.tsx:32-56 | from start-up, signing in always lands on the dashboard |

## Left out

- Rendering, styles, animations and modal layout: these have no behaviour beyond the state modelled, except that the items block throws on an unpriced line (next line).
- OrderHistory.UserChanged: users are compared by value, while React compares the `user` dependency by reference (`Object.is`, src/screens/OrderHistoryScreen.tsx:91). A fresh but equal user object, as a repeated login as the same user would set, refetches in the app and not in the model.
- OrderDetail.DetailItems: an `items` entry without a price crashes the detail render at `it.price.toFixed(2)` (src/screens/OrderDetailScreen.tsx:276). The model has no render step; `OrderDetail.ItemsRender` only names when the crash happens, and `LiveScreen.ViewOf` still reports such an order as `DetailView`.
- Currency formatting (`toFixed(2)`), the revenue sums and `Number(...)` coercions of non-numeric values: they are floating point. Amounts are integers here.
- The clock and `Date` arithmetic (`new Date()`, `setDate(-offset)`, `toLocaleString`, `toLocaleTimeString`). Callers pass calendar dates, and the TIME cell carries the raw `createdAt`.
- The HTML and CSS text of the receipt and report, `RNPrint.print` and console logging: these are foreign calls. The receipt and report are structured records, and the printer outcome is an input.
- The alert sound (`playNewOrderSound`, vibration and permissions): it is foreign and best-effort. Only whether it is requested is modelled.
- Storage and the HTTP client are not part of this model. Storage is the `Stored` value, and each request is a `Reply` input. Storage failures and a corrupt stored user are not modelled.
- The order-gateway calls (`fetchOrderById`, `fetchOrdersByDate`, `updateOrderStatus`, `updateOrderEstimatedTime`) are not part of this model. They are opaque calls recorded in a log, and their replies are inputs.
- Concurrency: overlapping refreshes, the two writers of the badge counts (`refreshCounts` and the `computeCounts` effect), and a login racing hydration. Each writer is a separate function and no winner is picked.
- The random id fallback `String(Math.random())` for a product without an id: it is nondeterministic, so the id is left absent.
- socket.io transport and reconnection mechanics: only the options passed are modelled.
- The splash screen's markup: it is static.
- PrintService.PrintOrder: an `items` entry whose attribute lacks `selectedItems` also throws in the app (`attr.selectedItems.map`). Here an item's attributes are held already normalised, so only the missing price is modelled as a failure.
- PrintService.StatusGroupsCount: groups are keyed by the optional status, where the app keys an object by `String(status)`, so an absent status and the string "undefined" share one group there but not here. The groups are never printed.
- PrintService.PrintOrders: the picked dates are valid calendar dates, as a JavaScript `Date` always is. Invalid dates are not modelled.
- The rejection of `printOrders` ('Failed to print orders: ...'): the history screen does not await it, so no state depends on it.
- Text.Trim: recognises a fixed list of white-space characters rather than every Unicode `White_Space` character.
- PrintService.Truncate: counts characters, where JavaScript counts UTF-16 code units.
- OrderDetail.ProductLine: a `price` object without a `total` yields NaN in the app. Here a product's price fields are integers.
- Dates.FormatDate: years are non-negative, and a year below 1000 prints unpadded, as in the app.
- AppNav.Handle: each callback is assumed to fire only from the screen that received it. A stale callback firing after navigation is not modelled.
