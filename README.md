# Storefront payment reconciliation: a Dafny model

This project models the core of a Next.js storefront that takes orders payable in
USDC, waits for the Mural payment rail to report that funds were credited to the
store's account, matches the credit to a pending order, and then pays the merchant
out in Colombian pesos through the same rail. It covers:

- the ledger of `lib/db.ts`: the `orders` and `payouts` tables, held by the class
  `Ledger.Db` whose methods are the branches of `prepare(sql).run / get / all`
  (insertion at the end, status update of the first row with an id, the lookup of
  the first pending order within 0.01 of an amount, listings newest first);
- the webhook endpoint (`MuralWebhook`): dispatch on the payload type, the
  account and token checks, marking the matched order paid, payout initiation and
  execution, and the payout status events. `MuralWebhook.Deliver` specifies one
  delivery on the two tables as values; `MuralWebhook.Post` performs it step by
  step on the ledger object and is proved equal to it;
- the payout service (`Payouts`): the request body, the rows stored for each rail
  answer, the value returned, and the reading of the execute answer;
- the order API (`Orders`) and the withdrawals API (`Withdrawals`): validation,
  order ids and payment references, the pending-order insertion, lookups and the
  reshaping of rows for replies;
- the cart reducer (`Cart`) and the cart hooks (`CartHooks`).

Money is `real`, so the 0.01 tolerance is exact. ISO-8601 timestamps are the
integers they denote. `Date.now()`, `new Date()` and `Math.random()` are
parameters. The rail is a pair of functions (`MuralWebhook.Rail`): one maps the
payout request to the rail's answer (accepted with a body, rejected with error
text, or unreachable), the other maps a payout id to the answer to the execute call.

## Where the code and the design differ (the model follows the code)

- Payout status events overwrite the stored status unconditionally. Nothing
  enforces forward-only progress, and a terminal status can be replaced
  (`MuralWebhook.StatusEventOverwrites`).
- Deliveries are not deduplicated by `eventId`. For distinct order ids, a
  redelivered credit cannot claim the same order twice, because that order is no
  longer `pending` (`MuralWebhook.ClaimedOrderNotClaimedAgain`). It can still
  claim another pending order with the same total. Nothing in the code keeps
  ids distinct (see "## Left out").
- Ties between matching orders go to the first row in insertion order, not the
  oldest `created_at` (`Ledger.FindByAmountPrefersEarlier`).
- The matcher's SQL says `total = ?`. The model runs the query with the
  semantics of lib/db.ts, which compare within 0.01.
- The find and the status update are separate steps. There is no atomic claim.
- The order is marked `paid` before the payout is initiated. It stays `paid` when
  initiation fails.
- Signature verification is commented out, so deliveries are not authenticated.

## Model

| member | source | states |
|---|---|---|
| `Ledger.Db.constructor` | lib/db.ts:33-43 | a missing or unreadable database reads as two empty tables |
| `Ledger.Db.InsertOrder` | lib/db.ts:66-78 | the order row is appended at the end; existing orders and all payouts are unchanged |
| `Ledger.Db.InsertPayout` | lib/db.ts:79-90 | the payout row is appended at the end; orders are untouched |
| `Ledger.Db.UpdateOrderStatus` | lib/db.ts:91-96 | the orders table becomes `WithOrderStatus` of the old one, payouts unchanged |
| `Ledger.Db.UpdatePayoutStatus` | lib/db.ts:97-103 | the payouts table becomes `WithPayoutStatus` of the old one, orders unchanged |
| `Ledger.Db.Run` | lib/db.ts:61-111 | each statement has its branch's effect, unrecognised SQL changes nothing, and the result is `{changes: 1}` even when no row matched |
| `Ledger.Db.Get` | lib/db.ts:112-132 | the amount/status lookup, the id lookup, and nothing for unrecognised SQL |
| `Ledger.Db.All` | lib/db.ts:133-155 | both listings are the tables sorted newest first; unrecognised SQL gives `[]`; the stored tables are not reordered |
| `Ledger.UpdateOrderEffect` | lib/db.ts:91-96 | only the status of the first order with the id changes; length is kept; an absent id changes nothing |
| `Ledger.UpdatePayoutEffect` | lib/db.ts:97-103 | only `status` and `updated_at` of the first payout with the id change; an absent id changes nothing |
| `Ledger.PayoutStatusOverwrites` | lib/db.ts:97-103 | for distinct payout ids, the new status is written whatever the old status was |
| `Ledger.FindByAmountFirstMatch` | lib/db.ts:117-121 | the lookup returns the first row in insertion order within 0.01 and with the status, and returns nothing exactly when no row qualifies |
| `Ledger.FindByAmountWithinTolerance` | lib/db.ts:118-120 | a returned order's total lies strictly within 0.01 of the amount and has the requested status |
| `Ledger.FindByAmountPrefersEarlier` | lib/db.ts:118-120 | of two matching orders with distinct ids, the later-inserted one is never returned |
| `Ledger.SortDescCorrect` | lib/db.ts:138-147 | a listing has non-increasing `created_at` and is a permutation of the table |
| `Ledger.SortDescLength` | lib/db.ts:138-147 | a listing has as many rows as the table |
| `Ledger.InsertDescSorted` | lib/db.ts:139-141 | inserting a row into a newest-first list keeps it newest first |
| `Ledger.InsertDescPermutes` | lib/db.ts:139-141 | inserting a row adds exactly that row |
| `Ledger.InsertDescKeysAtMost` | lib/db.ts:139-141 | an upper bound on `created_at` survives insertion |
| `Seqs.FirstIndex` | lib/db.ts:92 | `findIndex`: -1 exactly when no element qualifies, otherwise the least qualifying index |
| `Seqs.Find` | lib/db.ts:118-123 | `find`: nothing exactly when no element qualifies, otherwise the element at the first qualifying index |
| `Payouts.CreatePayoutRequest` | app/api/payouts/service.ts:136-174 | the body carries the source account, a memo starting "Payout for order ", and exactly one payout of the input amount and token to the fixed merchant profile |
| `Payouts.MemoNamesOrder` | app/api/payouts/service.ts:139 | the order id can be read back out of the memo |
| `Payouts.FailedPayoutId` | app/api/payouts/service.ts:112 | a failed id starts with `failed_` and ends with the order id |
| `Payouts.FailedIdsDependOnClock` | app/api/payouts/service.ts:112 | any two distinct clock readings give distinct failed ids, so the returned id need not equal the stored one |
| `Payouts.AcceptedStoresCreated` | app/api/payouts/service.ts:118-125 | an ok reply stores one `created` row with the rail's id and the input order, amount and currency, with created_at = updated_at, and returns the rail's body |
| `Payouts.RejectedStoresFailed` | app/api/payouts/service.ts:106-116 | a non-ok reply stores one `failed` row for the input order, amount and currency, and returns `failed` with the error text verbatim and a `failed_…_<orderId>` id |
| `Payouts.UnreachableStoresNothing` | app/api/payouts/service.ts:127-130 | a thrown error stores nothing and returns null |
| `Payouts.ExecutePayoutRequest` | app/api/payouts/service.ts:57-92 | the result is present exactly when the rail answered ok, and it is then the parsed body |
| `Payouts.StoreFailedPayout` | app/api/payouts/service.ts:195-213 | appends the failed row; orders unchanged |
| `Payouts.StoreSuccessfulPayout` | app/api/payouts/service.ts:218-235 | appends the created row; orders unchanged |
| `Payouts.InitiatePayoutToCop` | app/api/payouts/service.ts:97-131 | the rows appended and the value returned are those the rail's answer to the built request calls for; orders unchanged |
| `MuralWebhook.Post` | app/api/webhooks/mural/route.ts:94-146 | the reply and both tables after a delivery are those `Deliver` specifies |
| `MuralWebhook.HandleAccountCredited` | app/api/webhooks/mural/route.ts:151-194 | reply and tables follow `AccountCreditedEffect`: wrong account, no match, or mark paid and process the payout |
| `MuralWebhook.FindMatchingOrder` | app/api/webhooks/mural/route.ts:257-272 | nothing for a token other than USDC, otherwise the ledger's first pending order within 0.01 |
| `MuralWebhook.ProcessMatchedOrder` | app/api/webhooks/mural/route.ts:277-305 | the order is marked `paid`, and the payouts become `PayoutsAfterProcessing`: initiation rows, then the execution status if execution ran and answered |
| `MuralWebhook.UpdatePayoutStatus` | app/api/webhooks/mural/route.ts:310-315 | status and update time of the payout with the id are overwritten; orders unchanged |
| `MuralWebhook.UnknownTypeRejected` | app/api/webhooks/mural/route.ts:121-145 | an unknown payload type gets 400 and an unreadable body 500, both with no state change |
| `MuralWebhook.WrongAccountChangesNothing` | app/api/webhooks/mural/route.ts:154-162 | a credit to another account gets success=false "Payment to incorrect account" and changes nothing |
| `MuralWebhook.OtherTokenNeverMatches` | app/api/webhooks/mural/route.ts:170-176 | a non-USDC credit is acknowledged "no matching order found" and changes nothing |
| `MuralWebhook.NoPendingOrderWithinTolerance` | app/api/webhooks/mural/route.ts:165-176 | a credit at least 0.01 away from every pending total changes nothing |
| `MuralWebhook.MatchedOrderMarkedPaid` | app/api/webhooks/mural/route.ts:179-185 | for distinct order ids, on a match the reply carries the matched order's id, that order alone becomes `paid`, and the at most one payout row written is for that order with the credited amount and token, not the order total |
| `MuralWebhook.ProcessingPaysCredit` | app/api/webhooks/mural/route.ts:277-305 | processing a matched order appends at most one payout row, for the order, the credited amount and the credited token; execution changes no amount |
| `MuralWebhook.ClaimedOrderNotClaimedAgain` | app/api/webhooks/mural/route.ts:264-282 | for distinct order ids, after a claim the same credit cannot match the claimed order again |
| `MuralWebhook.RejectedPayoutNotExecuted` | app/api/webhooks/mural/route.ts:287-304 | a rejected initiation leaves exactly the failed row and no execution |
| `MuralWebhook.UnreachableRailStoresNothing` | app/api/webhooks/mural/route.ts:287-304 | an initiation that threw leaves the payouts unchanged |
| `MuralWebhook.NoExecutionWithoutInitiation` | app/api/webhooks/mural/route.ts:287-304 | when the rail was unreachable, refused the payout, or accepted it with an empty id or a `failed` status, execution is skipped and only the initiation rows are written |
| `MuralWebhook.ExecutedStatusWrittenBack` | app/api/webhooks/mural/route.ts:295-304 | a successful execution writes the rail's status into the freshly created payout, or `pending` when that status is missing or empty, with the update time |
| `MuralWebhook.FailedExecutionKeepsCreated` | app/api/webhooks/mural/route.ts:296-303 | when execution is attempted and the rail refuses it or is unreachable, nothing is written back: the new payout stays exactly the `created` row |
| `MuralWebhook.StatusEventOverwrites` | app/api/webhooks/mural/route.ts:205-208 | for distinct payout ids, a status event overwrites the payout keyed by the payout-request id with the current status, whatever it was; nothing else changes |
| `MuralWebhook.StatusEventForUnknownPayout` | app/api/webhooks/mural/route.ts:236-244 | a status event for an unknown id is acknowledged as success and changes nothing |
| `MuralWebhook.AsWrittenNeverReconciles` | app/api/webhooks/mural/route.ts:263-266 | as written, a matching USDC credit gets a 500 and changes nothing, where the intended ledger confirms the payment |
| `MuralWebhook.AsWrittenScenario` | app/api/webhooks/mural/route.ts:279-282 | one pending 25.00 order and a 25.00 USDC credit: a 500 as written; paid with the intended ledger |
| `MuralWebhook.AsWrittenStatusEventsFail` | app/api/webhooks/mural/route.ts:310-315 | as written, every status event gets a 500 |
| `Orders.AsWrittenOrderNeverSaved` | app/api/orders/route.ts:70-92 | as written, no order is ever stored: a request the intended handler stores gets 500 "Failed to save order" |
| `Orders.AsWrittenStoredOrderUnreadable` | app/api/orders/route.ts:119-157 | as written, a lookup of a stored order's id gets 500, where the intended handler returns the order |
| `Withdrawals.AsWrittenWithdrawalsFail` | app/api/withdrawals/route.ts:27-45 | as written, the withdrawals reply is 500 whatever the ledger holds, never the listing |
| `Orders.ValidateOrderRequest` | app/api/orders/route.ts:31-41 | "No items in cart" exactly when items are missing or empty; "Invalid total amount" exactly when items are present and the total is missing or not positive; no error otherwise |
| `Orders.GenerateOrderId` | app/api/orders/route.ts:15-19 | an order id starts with "order_" and ends with the random suffix; `OrderIdRoundTrip` reads both parts back |
| `Orders.OrderIdRoundTrip` | app/api/orders/route.ts:15-19 | an order id is "order_" + timestamp + "_" + random string, and both parts can be read back |
| `Orders.GeneratePaymentReference` | app/api/orders/route.ts:24-26 | "REF_" followed by the last 8 characters of the id (all of a shorter id), upper-cased |
| `Orders.ReferenceFromRandomSuffix` | app/api/orders/route.ts:15-26 | for a random suffix of 8 or more characters the reference depends on the suffix alone |
| `Orders.JsonContentTypeRequired` | app/api/orders/route.ts:48-54 | a request is refused 400 for its content type exactly when "application/json" occurs nowhere in the header, so a JSON type with parameters passes |
| `Orders.RejectedRequestInsertsNothing` | app/api/orders/route.ts:48-62 | a non-JSON content type or a validation failure gets a 400 and inserts nothing |
| `Orders.AcceptedRequestInsertsPending` | app/api/orders/route.ts:64-105 | a valid request appends one order and keeps the others. The new row has: the id made of the clock and the random suffix; the request's items and total; the email, or null when it is empty; the configured address; the reference derived from the id; `pending`; and the creation time. The reply names that order with currency USDC and status pending |
| `Orders.Post` | app/api/orders/route.ts:46-114 | the reply and orders table follow `CreateOrder`; payouts unchanged |
| `Orders.Get` | app/api/orders/route.ts:119-172 | the reply is `GetOrders` of the table |
| `Orders.GetByIdFindsOrder` | app/api/orders/route.ts:141-157 | an absent id gets 404; a present one gets the first stored order with that id, every column formatted |
| `Orders.ListingIsNewestFirst` | app/api/orders/route.ts:162-172 | the list has one view per order, newest first, and the views read back to a permutation of the stored rows |
| `Orders.FormatOrders` | app/api/orders/route.ts:169 | one formatted view per row, in row order |
| `Orders.FormatOrderResponse` | app/api/orders/route.ts:177-187 | the view reads back to the stored row, so no column is lost; `FormatOrderRoundTrip` gives the renamings |
| `Orders.FormatOrderRoundTrip` | app/api/orders/route.ts:177-187 | `id` becomes `orderId` and `created_at` becomes `createdAt`; the other fields are copied, and the mapping is invertible |
| `Withdrawals.FormatPayoutResponse` | app/api/withdrawals/route.ts:50-59 | the view reads back to the stored payout, so no column is lost; `FormatPayoutRoundTrip` gives the renamings |
| `Withdrawals.FormatPayoutRoundTrip` | app/api/withdrawals/route.ts:50-59 | `id`, `order_id`, `created_at` and `updated_at` are renamed; amount, currency and status are copied; invertible |
| `Withdrawals.StatusNotValidated` | app/api/withdrawals/route.ts:56 | every stored status reaches the reply unchanged, whether or not it is one of the six declared ones |
| `Withdrawals.FormatPayouts` | app/api/withdrawals/route.ts:35 | one formatted view per row, in row order |
| `Withdrawals.WithdrawalsMirrorLedger` | app/api/withdrawals/route.ts:29-37 | the reply has one entry per stored payout, newest first, and reads back to a permutation of the table |
| `Withdrawals.Get` | app/api/withdrawals/route.ts:27-45 | the reply is the newest-first payouts listing, formatted |
| `Cart.CartReducer` | app/context/CartContext.tsx:26-64 | after ADD_ITEM or REMOVE_ITEM the total is Σ price × quantity; CLEAR_CART gives the initial state; an unknown action returns the state unchanged |
| `Cart.AddExistingIncrements` | app/context/CartContext.tsx:30-41 | ADD_ITEM for a present id adds 1 to the quantity of that id's items only; length, order, names and prices are kept |
| `Cart.AddNewAppends` | app/context/CartContext.tsx:42-46 | ADD_ITEM for a new id appends the product with quantity 1, and the total grows by its price |
| `Cart.RemoveDropsItem` | app/context/CartContext.tsx:48-53 | REMOVE_ITEM drops every item with the id and keeps all the others |
| `Cart.WithoutItemAppend` | app/context/CartContext.tsx:49 | the filter distributes over concatenation, so it keeps the remaining items in order |
| `Cart.ClearEmpties` | app/context/CartContext.tsx:55-67 | CLEAR_CART yields no items and total 0, the same as the initial state |
| `Cart.ReducerKeepsIdsUnique` | app/context/CartContext.tsx:26-64 | item ids stay unique under every action if they start unique |
| `Cart.IncrementItemAt` | app/context/CartContext.tsx:32-36 | the map increments exactly the items with the id |
| `Cart.TotalAppend` | app/context/CartContext.tsx:45 | the total of a cart with one more item grows by price × quantity |
| `Cart.WithoutItemRemovesAll` | app/context/CartContext.tsx:49 | the filter keeps exactly the items with another id |
| `Cart.WithoutAbsentItem` | app/context/CartContext.tsx:49 | filtering an absent id returns the cart unchanged |
| `Cart.WithoutItemUnique` | app/context/CartContext.tsx:49 | filtering keeps ids unique |
| `CartHooks.UseCartData` | app/hooks/useCartHooks.ts:22-32 | items and total pass through from the reducer; itemCount is Σ quantity |
| `CartHooks.AddItemAction` | app/hooks/useCartHooks.ts:7-9 | `addItem` dispatches an ADD_ITEM action carrying the product; its effect on itemCount is `AddItemCountsOne` |
| `CartHooks.RemoveItemAction` | app/hooks/useCartHooks.ts:11-13 | `removeItem` dispatches a REMOVE_ITEM action carrying the id; its effect on itemCount is `RemoveItemCount` |
| `CartHooks.ClearCartAction` | app/hooks/useCartHooks.ts:15-17 | `clearCart` dispatches the CLEAR_CART action; its effect is `ClearCartCountsZero` |
| `CartHooks.AddItemCountsOne` | app/hooks/useCartHooks.ts:7-9 | with unique ids, `addItem` raises itemCount by exactly 1 |
| `CartHooks.RemoveItemCount` | app/hooks/useCartHooks.ts:11-13 | `removeItem` lowers itemCount by the quantity held under that id |
| `CartHooks.ClearCartCountsZero` | app/hooks/useCartHooks.ts:15-17 | `clearCart` brings itemCount and total to 0 |
| `CartHooks.ItemCountIncrement` | app/hooks/useCartHooks.ts:25 | incrementing an id raises itemCount by the number of items with that id |
| `CartHooks.ItemCountAppend` | app/hooks/useCartHooks.ts:25 | appending an item raises itemCount by its quantity |
| `CartHooks.ItemCountWithout` | app/hooks/useCartHooks.ts:25 | filtering an id lowers itemCount by that id's quantity |
| `CartHooks.CountOfUnique` | app/hooks/useCartHooks.ts:25 | with unique ids, an id is carried by exactly one item or none |
| `Text.NatToString` | app/api/orders/route.ts:18 | the numeral of a timestamp is non-empty, all digits, and its digits read back as the timestamp |
| `Text.NatToStringInjective` | app/api/orders/route.ts:18 | distinct timestamps have distinct numerals |
| `Text.ToUpperCase` | app/api/orders/route.ts:25 | upper-casing keeps the length, maps each character, and leaves no lower-case ASCII letter |
| `Text.SliceLast` | app/api/orders/route.ts:25 | `slice(-n)` is a suffix of length min(n, length) |
| `Text.ContainsAt` | app/api/orders/route.ts:49 | `includes` holds whenever the text occurs at some position |
| `Text.ContainsOccurs` | app/api/orders/route.ts:49 | when `includes` holds, it names a position where the text occurs |
| `Text.ContainsIff` | app/api/orders/route.ts:49 | `includes` holds exactly when the text occurs at some position |

## Findings

| source | as written | input that shows it | evidently intended | confidence | as-written member | corrected member |
|---|---|---|---|---|---|---|
| app/api/webhooks/mural/route.ts:263-266 | every ledger access calls `DATABASE_CLIENT.execute({sql, args})`, but the imported lib/db.ts exports only `prepare(sql).run/get/all`, so each call throws and the handler answers 500 | a 25.00 USDC credit to the configured account while one 25.00 order is pending | run the SQL against the ledger with lib/db.ts semantics, so that the order is marked paid and the payout initiated | high; not executed | `MuralWebhook.AsWrittenNeverReconciles` | `MuralWebhook.MatchedOrderMarkedPaid` |
| app/api/orders/route.ts:71-85 | the insertion calls the same missing `DATABASE_CLIENT.execute`, so it throws into the inner catch | any valid JSON request with items and a positive total | store the pending order and answer with its payment details | high; not executed | `Orders.AsWrittenOrderNeverSaved` | `Orders.AcceptedRequestInsertsPending` |
| app/api/orders/route.ts:142-145 | the lookup and the listing call the missing `execute`, so GET answers 500 | a GET with the id of a stored order | answer that order, or the newest-first list | high; not executed | `Orders.AsWrittenStoredOrderUnreadable` | `Orders.GetByIdFindsOrder` |
| app/api/withdrawals/route.ts:29-32 | the listing calls the missing `execute`, so GET answers 500 | a GET with any ledger, the empty one included | answer the stored payouts newest first | high; not executed | `Withdrawals.AsWrittenWithdrawalsFail` | `Withdrawals.WithdrawalsMirrorLedger` |

## Left out

- MatchedOrderMarkedPaid: stated only for distinct order ids. Nothing enforces them: the insertion at app/api/orders/route.ts:71-85 does not check the id, and an id is only a millisecond timestamp plus a random suffix. With a duplicate id, the update at lib/db.ts:91-96 marks the first row with that id, which need not be the matched one. `Ledger.UpdateOrderEffect` states that first-row behaviour for every table.
- ClaimedOrderNotClaimedAgain: stated only for distinct order ids, for the same reason. With a duplicate id, the matched order can stay `pending` and be claimed again.
- StatusEventOverwrites: stated only for distinct payout ids. Payout ids come from the rail, or from the clock for failed payouts (`failed_<ms>_<orderId>`), so two failures within one millisecond share an id. With a duplicate id, only the first row with it is written, as `Ledger.UpdatePayoutEffect` states for every table.
- PayoutStatusOverwrites: stated only for distinct payout ids, for the same reason.

- Signature verification is left out. It is a foreign call to `crypto.verify`, and the source has it commented out.
- The HTTP calls to the payout rail are left out. They are network I/O; the rail's answers are inputs (`MuralWebhook.Rail`).
- File persistence is left out. The tables are in-memory state, and write errors (which the source logs and swallows) do not arise.
- Ledger failures reaching the catch blocks are left out. The in-memory ledger cannot fail, so the 500 replies from those paths are not modelled in the intended handlers. Examples: the `reject` branches of lib/db.ts, and the ledger errors caught by the webhook, orders GET, withdrawals GET and "Failed to save order". The as-written members in Findings model them. Two catch-block 500s that do not come from the ledger are modelled: an unparseable webhook body (`MuralWebhook.UnknownTypeRejected`) and an order body that is not JSON ("Failed to create order" in `Orders.CreateOrder`).
- SQL text dispatch is left out. The `sql.includes(...)` tests are represented by the constructors of `Ledger.Command`, `Ledger.Query` and `Ledger.Listing`. SQL text that contains several of the tested fragments is not modelled.
- Untyped parameters are left out. The `any` parameters become typed fields. A missing parameter, which would be stored as `undefined`, is not modelled.
- JSON serialisation is left out. Order items are stored and returned as opaque JSON text, and the parse on read is not modelled. The reply's `message` text and the `toFixed(2)` rendering are not modelled either.
- Floating-point arithmetic is left out. Amounts, prices and totals are exact reals, and `NaN` totals are not modelled.
- Clock and randomness are left out. They are parameters; `created_at` strings are the instants they denote. Unparsable dates, which would make the sort comparator NaN, are not modelled.
- Ordering among rows with equal `created_at` is left out. The model's sort is stable like the source's, but no lemma states it.
- Unicode upper-casing is left out. `toUpperCase` is modelled for ASCII letters only. Order ids are ASCII.
- Concurrency between deliveries is left out. The model is sequential, including the non-atomic find-then-update.
- Unused payload fields are left out. The credit's `transactionDetails` is never read by the handler.
- The health-check GET, logging, the UI pages and components, the client fetch hooks, and the type-only and data-only files are left out.
- Cart arithmetic is left out. `Cart.CartReducer` computes totals exactly, not in floating point.
