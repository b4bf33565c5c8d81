# Puente order fulfilment, modelled in Dafny

This project models the order-fulfilment saga of the Puente marketplace and the
smaller pieces of logic around it, and proves properties of the model.

The saga has two halves:

- The products service reserves stock for an order. Each product has two
  counters, `stock` and `reservedStock`. `reserveStock` walks the items,
  checks availability, raises `reservedStock` with a conditional update, and
  rolls back what it reserved when an item fails. `releaseStock` and
  `confirmStock` are unconditional decrements.
- The finance service keeps orders and an append-only ledger. `createOrder`
  writes the order, a 5% commission record and two ledger entries.
  `compensateOrder` marks the order FAILED and appends one opposite REFUND
  entry per existing entry. A second call writes nothing.

Around the saga, the project also models:

- the point-of-sale cart reducer and the checkout page's stock guard;
- the offline product queue and its drain step;
- the inventory dashboard's tag rules, submit routing, bulk tag merge and list order;
- the payment keypad;
- the seller tag store, with its 30-tag limit;
- the delivery store and tracking link;
- the authentication state machine: credentials, refresh token, reset token;
- the role and shared-secret guards;
- the GET/DELETE body check;
- the gateway's path rewrite and header injection;
- the P2P adapter registry;
- the OpenTelemetry environment parsers;
- the request-logging helpers: trace id, request id and health filter.

Database tables and Redis keys are maps and sequences held by classes. Every
operation that changes a store is a method with `modifies` and a postcondition
stating the whole new state. Its properties are proved as lemmas about
specification functions. Ids that a database, `uuid`, `Date.now()` or
`Math.random()` would produce are method parameters or counters held by the
class.

Shared modules:

- `Wrappers` holds `Option`, `Result` and `Outcome`. It also holds `Truthy`
  and `OrElse`, which model JavaScript's treatment of `undefined` and `''` in
  `if (x)` and `x || y`.
- `Seqs` holds `Array.prototype.filter` and lookups by key.
- `Text` holds `split` on one character, `join`, `trim`, `includes`, ASCII
  case folding and base-10 rendering.

## Model

| member | source | states |
|---|---|---|
| Products.ProductStore.FindOne | apps/backend/products-service/src/products/products.service.ts:36-42 | the product's counters, or NotFound for an unknown id |
| Products.ProductStore.Update | apps/backend/products-service/src/products/products.service.ts:51-59 | an unknown id is NotFound and changes nothing; otherwise only that product's counters change: `stock` and `reservedStock` each take the body's value when the raw body carries one (no validation pipe strips `reservedStock`, so `{"reservedStock":0}` zeroes it) and keep their old value otherwise; the store stays `Valid` exactly when the written counters satisfy `0 <= reservedStock <= stock`, which nothing re-checks |
| Products.ProductStore.Remove | apps/backend/products-service/src/products/products.service.ts:67-73 | an unknown id is NotFound and changes nothing; otherwise that product alone is deleted and returned |
| Products.ProductStore.ReserveOne | apps/backend/products-service/src/products/products.service.ts:87-113 | one item: NotFound if the product is absent, InsufficientStock if its available quantity is below the quantity (store unchanged in both); otherwise the concurrent write, if any, lands, and the conditional update either raises `reservedStock` by the quantity or, when the available quantity no longer covers it, fails with ConcurrentUpdate leaving the store as the concurrent write left it |
| Products.ProductStore.ReserveItems | apps/backend/products-service/src/products/products.service.ts:85-115 | the `try` loop stops at the first failing item; every item before the stop passed; on success the store is the raced run over all items, and on a failure the failure and the store are exactly what the pass on the stopping item reports and leaves after the items before it were reserved |
| Products.Attempt | apps/backend/products-service/src/products/products.service.ts:87-113 | one pass: it succeeds iff the product exists, its available quantity covers the item and still does after the concurrent write; it touches only the item's product; a failure records its cause; without a concurrent write it is the check followed by the `$inc`, and a failure leaves the store alone; with valid inputs a success keeps the store valid |
| Products.RacedFrame | apps/backend/products-service/src/products/products.service.ts:86-114 | the passes add or remove no product and leave every product no item names as it was |
| Products.RacedWithoutRace | apps/backend/products-service/src/products/products.service.ts:86-114 | without a concurrent writer the passing passes are the race-free reservation: outcome Pass and the store `ApplyAll` of Reserve over that prefix |
| Products.RacedKeepsValid | apps/backend/products-service/src/products/products.service.ts:93-113 | with valid counters, non-negative quantities and valid concurrent writes, every passing prefix leaves `0 <= reservedStock <= stock` |
| Products.ProductStore.ReserveStock | apps/backend/products-service/src/products/products.service.ts:82-121 | no product is added or removed, and products no item names are untouched. Without a concurrent writer: the outcome is the first failing check, or Pass; on Pass every named product's `reservedStock` rose by its total quantity; on failure the store is exactly as before. A ConcurrentUpdate error can only come from a concurrent writer. With valid counters, non-negative quantities and valid concurrent writes, a Pass keeps `0 <= reservedStock <= stock`. On any failure (ConcurrentUpdate included) the final store is the store at the failure with the items before it released, and the error names the failing item: NotFound when it is absent then, InsufficientStock when its available quantity was short then, ConcurrentUpdate when the concurrent write left too little for the conditional update. In all cases, the call passes iff every pass succeeds, the Pass store is the raced run over all items, and on a failure `atFailure` is exactly the store the failing pass leaves after the passes before it, with the failure that pass reports |
| Products.ReserveStep | apps/backend/products-service/src/products/products.service.ts:93-113 | one more passing item extends the race-free reservation of the prefix by exactly that item |
| Products.ReserveFailed | apps/backend/products-service/src/products/products.service.ts:86-119 | when item `i` fails its check (NotFound or InsufficientStock), releasing the items reserved so far restores the store, and the whole call fails with that error |
| Products.FailureIsFinal | apps/backend/products-service/src/products/products.service.ts:86-119 | once a prefix of the items fails, the whole list fails with the same error |
| Products.RollbackFrame | apps/backend/products-service/src/products/products.service.ts:116-119 | the rollback adds or removes no product and touches only products that some item names |
| Products.ProductStore.ReleaseStock | apps/backend/products-service/src/products/products.service.ts:128-134 | the new store is the old one with each item's quantity subtracted from `reservedStock`, unclamped |
| Products.ProductStore.ConfirmStock | apps/backend/products-service/src/products/products.service.ts:141-147 | the new store is the old one with each item's quantity subtracted from both `stock` and `reservedStock` |
| Products.ApplyAllAt | apps/backend/products-service/src/products/products.service.ts:128-147 | applying a list of items changes each product by its summed quantity; products no item names are unchanged, and no key is added or removed |
| Products.NotNamedTotal | apps/backend/products-service/src/products/products.service.ts:86 | a product no item names has a total requested quantity of zero |
| Products.ReleaseUndoesReserve | apps/backend/products-service/src/products/products.service.ts:82-134 | releasing exactly the items just reserved restores every counter |
| Products.ReserveKeepsValid | apps/backend/products-service/src/products/products.service.ts:93-106 | with non-negative quantities, a reservation that passes keeps `0 <= reservedStock <= stock` for every product |
| Products.ReleaseKeepsValid | apps/backend/products-service/src/products/products.service.ts:128-134 | releasing keeps `0 <= reservedStock <= stock` when each product's released total is between zero and what it has reserved |
| Products.ConfirmKeepsValid | apps/backend/products-service/src/products/products.service.ts:141-147 | confirming keeps `0 <= reservedStock <= stock` under the same bound |
| Products.ConfirmKeepsAvailable | apps/backend/products-service/src/products/products.service.ts:141-147 | confirming leaves `stock - reservedStock` of every product unchanged |
| Finance.TotalAppend | apps/backend/finance-service/src/finance/finance.service.ts:18 | the order total over concatenated item lists is the sum of the two totals |
| Finance.TotalNonNegative | apps/backend/finance-service/src/finance/finance.service.ts:18-19 | with non-negative prices and quantities, the total is non-negative and the 5% commission lies between zero and the total |
| Finance.Ledger.CreateOrder | apps/backend/finance-service/src/finance/finance.service.ts:17-78 | a fresh PENDING order with the item snapshots and their total; a commission record of total × 0.05 at rate 0.05; exactly a CREDIT/SALE entry for the total and a DEBIT/COMMISSION entry for the commission, both for the seller, appended; the ledger invariant is kept |
| Finance.NewOrderEntries | apps/backend/finance-service/src/finance/finance.service.ts:49-71 | the new order's entries are exactly the two sale entries; their CREDIT total is the order total and their DEBIT total is the commission |
| Finance.Ledger.GeneratePaymentForOrder | apps/backend/finance-service/src/finance/finance.service.ts:80-94 | an unknown order is NotFound; otherwise the payment request carries the order's id, the title `Order #<id> - Puente Platform` and the unchanged total |
| Finance.Ledger.CompensateOrder | apps/backend/finance-service/src/finance/finance.service.ts:97-138 | unknown order: NotFound, nothing written. FAILED or CANCELLED order: returned unchanged, nothing written. Otherwise: the status becomes FAILED and one reversal per existing entry of the order is appended. Existing entries are never edited, commissions are untouched, and afterwards the order's CREDIT total equals its DEBIT total |
| Finance.AppendReversals | apps/backend/finance-service/src/finance/finance.service.ts:122-134 | the loop appends, in order, the REFUND reversal of each original entry, numbered from the ledger's length |
| Finance.Reversals | apps/backend/finance-service/src/finance/finance.service.ts:122-134 | one reversal per entry |
| Finance.ReversalsSwapTotals | apps/backend/finance-service/src/finance/finance.service.ts:127 | reversals swap the CREDIT and DEBIT totals, because each reversal has the opposite type and the same amount |
| Finance.CompensationBalances | apps/backend/finance-service/src/finance/finance.service.ts:115-134 | after the reversals are appended, the order's CREDIT total equals its DEBIT total |
| Finance.ReversalsReferenceOnce | apps/backend/finance-service/src/finance/finance.service.ts:131 | among the reversals of entries with distinct ids, each original id is referenced exactly once and no other id is referenced |
| Finance.CompensationRefundsOnce | apps/backend/finance-service/src/finance/finance.service.ts:122-134 | compensating an order refunds each of its entries exactly once |
| Finance.EntriesOfMembers | apps/backend/finance-service/src/finance/finance.service.ts:103 | an entry is among the order's entries iff it is in the ledger with that order id |
| Finance.EntriesOfAppend | apps/backend/finance-service/src/finance/finance.service.ts:103 | selecting an order's entries distributes over concatenation |
| Finance.CompensationKeepsValid | apps/backend/finance-service/src/finance/finance.service.ts:115-134 | compensation keeps the ledger invariant: entry ids are positions, every entry's order exists, and REFUND entries belong to FAILED orders |
| Finance.CreationKeepsValid | apps/backend/finance-service/src/finance/finance.service.ts:21-71 | order creation keeps the ledger invariant |
| Cart.Cart.AddToCart | apps/frontend/pwa/src/features/checkout/cartSlice.ts:35-43 | an existing id gains one unit in place; a new id is appended with quantity 1 whatever the payload says. Ids stay unique, quantities stay at least 1, and the total grows by one unit price |
| Cart.Cart.RemoveFromCart | apps/frontend/pwa/src/features/checkout/cartSlice.ts:44-47 | the new list is the old one filtered on the id, order kept; the id is gone and the total drops by that line |
| Cart.Cart.UpdateQuantity | apps/frontend/pwa/src/features/checkout/cartSlice.ts:48-57 | unknown id: no change; a quantity at most 0 removes the line; otherwise the line's quantity is replaced in place; the cart stays valid |
| Cart.Cart.ClearCart | apps/frontend/pwa/src/features/checkout/cartSlice.ts:58-61 | no lines remain and the total is 0 |
| Cart.LineAt | apps/frontend/pwa/src/features/checkout/cartSlice.ts:49 | in a valid cart, `find` by a line's id returns that very line, since ids are unique |
| Cart.QuantityOf | apps/frontend/pwa/src/features/checkout/CheckoutPage.tsx:25-26 | 0 for an id without a line, else the quantity of that id's unique line |
| Cart.TotalUpdate | apps/frontend/pwa/src/features/checkout/cartSlice.ts:68-69 | replacing a line changes the total by the difference of the two lines |
| Cart.TotalAppend | apps/frontend/pwa/src/features/checkout/cartSlice.ts:68-69 | the total of a concatenation is the sum of the totals |
| Cart.TotalRemoveAt | apps/frontend/pwa/src/features/checkout/cartSlice.ts:68-69 | dropping a line lowers the total by that line |
| Cart.TotalWithout | apps/frontend/pwa/src/features/checkout/cartSlice.ts:44-69 | filtering out the unique line of an id lowers the total by exactly that line |
| Cart.AppendKeepsValid | apps/frontend/pwa/src/features/checkout/cartSlice.ts:40 | appending a line for a new id keeps ids unique and is where that id is then found |
| Cart.SetQuantityKeepsValid | apps/frontend/pwa/src/features/checkout/cartSlice.ts:35-57 | a positive quantity on an existing line keeps the cart valid and the line in place |
| Cart.TotalScenario | apps/frontend/pwa/src/features/checkout/cartSlice.ts:68-69 | a single worked example, not a general property: one 100 item totals 100, and adding a 50 item totals 150 |
| Checkout.FindProduct | apps/frontend/pwa/src/features/checkout/CheckoutPage.tsx:45 | a found product is in the catalogue with that id; none is found iff no product has that id |
| Checkout.CheckoutPage.HandleAddToCart | apps/frontend/pwa/src/features/checkout/CheckoutPage.tsx:24-42 | the product is added iff its cart quantity plus 1 is within its stock; a refusal changes nothing; an addition leaves the cart quantity within stock, appends a quantity-1 line for a product not yet in the cart, and otherwise raises that product's line by one leaving every other line as it was |
| Checkout.CheckoutPage.HandleIncrement | apps/frontend/pwa/src/features/checkout/CheckoutPage.tsx:44-53 | the line is incremented iff its product is in the catalogue and one more unit is within stock, and then only that line changes, its quantity raised by one; otherwise nothing changes |
| Checkout.CheckoutPage.HandleDecrement | apps/frontend/pwa/src/features/checkout/CheckoutPage.tsx:156-159 | the quantity becomes one less than shown, and the line is gone iff it showed 1: a line showing 1 is filtered out of the cart, any other line is the only one that changes, its quantity lowered by one |
| Checkout.CheckoutPage.HandleRemove | apps/frontend/pwa/src/features/checkout/CheckoutPage.tsx:179 | the line is filtered out of the cart |
| Checkout.CheckoutPage.HandlePayment | apps/frontend/pwa/src/features/checkout/CheckoutPage.tsx:55-58 | an empty cart keeps the view; otherwise the payment view opens |
| Checkout.CheckoutPage.HandleFinish | apps/frontend/pwa/src/features/checkout/CheckoutPage.tsx:60-63 | the cart is emptied and the cart view shown |
| Inventory.TempId | apps/frontend/pwa/src/features/inventory/inventorySlice.ts:39 | every local id starts with `temp-` |
| Inventory.InventoryQueue.AddPendingProduct | apps/frontend/pwa/src/features/inventory/inventorySlice.ts:38-46 | exactly one entry with the request, the temp id and the timestamp is appended; the error list is unchanged |
| Inventory.InventoryQueue.RemovePendingProduct | apps/frontend/pwa/src/features/inventory/inventorySlice.ts:47-50 | pending is filtered on the temp id; the error list is unchanged |
| Inventory.InventoryQueue.MoveToError | apps/frontend/pwa/src/features/inventory/inventorySlice.ts:51-60 | an absent temp id changes nothing; otherwise the entry leaves pending and is appended to errors with the message; with unique temp ids the total count is kept |
| Inventory.InventoryQueue.RemoveErrorProduct | apps/frontend/pwa/src/features/inventory/inventorySlice.ts:61-64 | errors are filtered on the temp id; pending is unchanged |
| Inventory.InventoryQueue.RetryErrorProduct | apps/frontend/pwa/src/features/inventory/inventorySlice.ts:65-74 | an absent temp id changes nothing; otherwise the entry leaves errors and its queued product, without the error, is appended to pending; with unique temp ids the total count is kept |
| Inventory.FilterOutShortens | apps/frontend/pwa/src/features/inventory/inventorySlice.ts:51-74 | filtering out a unique temp id shortens the list by exactly one |
| Inventory.MoveThenRetry | apps/frontend/pwa/src/features/inventory/inventorySlice.ts:51-72 | a moved entry is found at the end of errors with every field of the queued product intact, and retrying it restores the old error list |
| OfflineSync.ErrorMessage | apps/frontend/pwa/src/features/inventory/OfflineSyncManager.tsx:62 | never empty; a non-empty server message is kept |
| OfflineSync.SyncManager.StartSync | apps/frontend/pwa/src/features/inventory/OfflineSyncManager.tsx:38-48 | nothing is sent while a sync is in flight, offline or with an empty queue; otherwise only the head is sent, without temp id and timestamp, and the in-flight flag is set |
| OfflineSync.SyncManager.FinishSync | apps/frontend/pwa/src/features/inventory/OfflineSyncManager.tsx:50-73 | success removes the head's temp id from pending; a 4xx status moves it to errors with the server message or the fallback; a 4xx for a temp id no longer pending, and any other failure, leave both lists unchanged; the flag is always cleared |
| OfflineSync.SuccessAdvancesQueue | apps/frontend/pwa/src/features/inventory/OfflineSyncManager.tsx:52 | with unique temp ids, removing the head's temp id leaves exactly the rest of the queue |
| Dashboard.TagToggle | apps/frontend/pwa/src/features/inventory/InventoryDashboard.tsx:77-89 | the tag is in the result iff it was absent and there were fewer than 5; other tags are kept; an added tag goes at the end |
| Dashboard.TagToggleKeepsFormValid | apps/frontend/pwa/src/features/inventory/InventoryDashboard.tsx:77-89 | from a form with at most 5 distinct tags, toggling keeps at most 5 distinct tags |
| Dashboard.ToggleTwiceRestores | apps/frontend/pwa/src/features/inventory/InventoryDashboard.tsx:80-87 | adding a tag and toggling it again restores the list |
| Dashboard.Vertical | apps/frontend/pwa/src/features/inventory/InventoryDashboard.tsx:147 | never empty; the first tag when it is non-empty |
| Dashboard.ProductData | apps/frontend/pwa/src/features/inventory/InventoryDashboard.tsx:144-149 | every form field (name, description, price, sku, stock, tags, image URL and the attributes map) passes to the request unchanged, with the seller id, and the vertical is the first non-empty tag or `other` instead of the form's own |
| Dashboard.InventoryDashboard.HandleSubmit | apps/frontend/pwa/src/features/inventory/InventoryDashboard.tsx:137-167 | a negative price or stock is rejected with nothing queued or sent; offline, the product is queued and the form reset and closed; online, only a successful create resets and closes |
| Dashboard.InventoryDashboard.HandleTagToggle | apps/frontend/pwa/src/features/inventory/InventoryDashboard.tsx:77-89 | only the form's tags change, by the toggle |
| Dashboard.InventoryDashboard.HandleAttributeChange | apps/frontend/pwa/src/features/inventory/InventoryDashboard.tsx:66-75 | only the named attribute changes, to the input's value; every other attribute and form field, and the dialog, are kept |
| Dashboard.InventoryDashboard.ResetForm | apps/frontend/pwa/src/features/inventory/InventoryDashboard.tsx:169-181 | the form becomes the empty form |
| Dashboard.BulkTagsFor | apps/frontend/pwa/src/features/inventory/InventoryDashboard.tsx:209-238 | nothing when no selected tag is new or the product has 5 or more; otherwise the current tags followed by the new ones, cut to 5 |
| Dashboard.BulkAddsOnlyNewTags | apps/frontend/pwa/src/features/inventory/InventoryDashboard.tsx:213 | every added tag was selected and not already on the product |
| Dashboard.BulkUpdates | apps/frontend/pwa/src/features/inventory/InventoryDashboard.tsx:199-242 | no selected tags, no updates; each update is for a selected product, carries that product's merged tags, and sets `vertical` from the first one; with selected tags, every selected product that gains a tag gets an update |
| Dashboard.BulkUpdatesInSelectionOrder | apps/frontend/pwa/src/features/inventory/InventoryDashboard.tsx:206-230 | the updates' ids are exactly the selected ids that gain a tag, in selection order |
| Dashboard.AllProducts | apps/frontend/pwa/src/features/inventory/InventoryDashboard.tsx:279-284 | error items, then pending, then server products, each group in its own order |
| Payment.KeyResult | apps/frontend/pwa/src/features/finance/PaymentFlow.tsx:68-77 | the amount is kept, replaced by the key or extended by it; nothing changes at 8 characters; a second '.' is ignored; otherwise "0" followed by a digit becomes that digit and every other accepted key is appended |
| Payment.ClearResult | apps/frontend/pwa/src/features/finance/PaymentFlow.tsx:79-81 | the last character is dropped; an empty amount stays empty |
| Payment.KeyKeepsWellFormed | apps/frontend/pwa/src/features/finance/PaymentFlow.tsx:68-77 | keypad input keeps the amount at most 8 characters, with at most one '.', and no '0' before a digit |
| Payment.ClearKeepsWellFormed | apps/frontend/pwa/src/features/finance/PaymentFlow.tsx:79-81 | clearing keeps the amount well formed |
| Payment.ClearUndoesKey | apps/frontend/pwa/src/features/finance/PaymentFlow.tsx:68-81 | clearing after an appended key restores the amount |
| Payment.KeypadScenario | apps/frontend/pwa/src/features/finance/PaymentFlow.tsx:68-77 | a single worked example, not a general property: "0","0","5" gives "5" and "1",".",".","5" gives "1.5" |
| Payment.PaymentFlow.constructor | apps/frontend/pwa/src/features/finance/PaymentFlow.tsx:13-15 | with a non-zero initial amount, the flow starts at QR with that amount's text; otherwise at AMOUNT with ""; no order yet |
| Payment.PaymentFlow.HandleKeyPress | apps/frontend/pwa/src/features/finance/PaymentFlow.tsx:68-77 | the amount becomes the keypad result; step and order are kept |
| Payment.PaymentFlow.HandleClear | apps/frontend/pwa/src/features/finance/PaymentFlow.tsx:79-81 | the amount loses its last character; step and order are kept |
| Payment.PaymentFlow.HandleSubmitAmount | apps/frontend/pwa/src/features/finance/PaymentFlow.tsx:83-96 | a created order is recorded and the step becomes QR; a failure changes nothing |
| Payment.PaymentFlow.AutoCreateOrder | apps/frontend/pwa/src/features/finance/PaymentFlow.tsx:28-42 | with a non-zero initial amount at QR and no order, the created order is recorded, and a failure calls back; otherwise nothing happens |
| Payment.PaymentFlow.OnOrderStatus | apps/frontend/pwa/src/features/finance/PaymentFlow.tsx:45-53 | PAID moves the step to SUCCESS; any other status changes nothing |
| Payment.PaymentFlow.HandleCancel | apps/frontend/pwa/src/features/finance/PaymentFlow.tsx:98-106 | with a back callback, only the callback runs; without one, the step returns to AMOUNT and the order is cleared |
| Payment.PaymentFlow.HandleReset | apps/frontend/pwa/src/features/finance/PaymentFlow.tsx:108-116 | with a complete callback, only the callback runs; without one, step, amount and order are reset |
| Tags.TagStore.FindAll | apps/backend/products-service/src/tags/tags.service.ts:10-12 | exactly the seller's tags, sorted by name |
| Tags.SortByName | apps/backend/products-service/src/tags/tags.service.ts:11 | sorted by name and a permutation of its input |
| Tags.InsertKeepsSorted | apps/backend/products-service/src/tags/tags.service.ts:11 | inserting into a sorted list keeps it sorted |
| Tags.FindAllSelects | apps/backend/products-service/src/tags/tags.service.ts:11 | a tag is listed iff it is stored for that seller |
| Tags.TagStore.Create | apps/backend/products-service/src/tags/tags.service.ts:14-33 | LimitReached iff the seller has 30 or more tags; an error stores nothing; below the limit, an empty trimmed name or seller fails validation, a (seller, trimmed name) pair already stored is AlreadyExists, and otherwise the trimmed name with colour defaulting to `emerald` is appended under a fresh id |
| Tags.ColorOrDefault | apps/backend/products-service/src/tags/tags.service.ts:24 | never empty; a non-empty colour is kept |
| Tags.TagStore.Delete | apps/backend/products-service/src/tags/tags.service.ts:35-37 | only a tag matching both id and seller is removed; other sellers' tags are unchanged |
| Tags.DeleteKeepsOtherSellers | apps/backend/products-service/src/tags/tags.service.ts:36 | deleting for one seller never changes another seller's tags |
| Tags.SellerTagsAppend | apps/backend/products-service/src/tags/tags.service.ts:15 | a stored tag raises its seller's count by one and no one else's |
| Tags.CreateKeepsValid | apps/backend/products-service/src/tags/tags.service.ts:14-33 | a creation within the limit and without a duplicate keeps ids and (seller, name) pairs unique and every seller within 30 |
| Tags.DeleteKeepsValid | apps/backend/products-service/src/tags/tags.service.ts:35-37 | a deletion keeps the store invariant |
| Delivery.TrackingLink | apps/backend/logistics-service/src/delivery/delivery.service.ts:63-66 | the link is the tracking prefix followed by the id |
| Delivery.TrackingLinkRoundTrip | apps/backend/logistics-service/src/delivery/delivery.service.ts:63-66 | the id can be read back from its link |
| Delivery.TrackingLinkInjective | apps/backend/logistics-service/src/delivery/delivery.service.ts:63-66 | distinct ids have distinct links |
| Delivery.InitialStatus | apps/backend/logistics-service/src/delivery/delivery.service.ts:16 | ASSIGNED iff a non-empty driver id is supplied, else PENDING |
| Delivery.ParseStatus | apps/backend/logistics-service/src/delivery/delivery.service.ts:35 | no body `status` gives a record with no status; a body string that spells an enum value gives that value; any other string is kept as it is |
| Delivery.ParseThenSerialise | apps/backend/logistics-service/src/delivery/delivery.service.ts:35-38 | the serialised record carries exactly the body's `status`, or none when the body has none |
| Delivery.ParseStatusName | apps/backend/logistics-service/src/delivery/dto/update-status.dto.ts:3-10 | each enum member's string value is read as that member |
| Delivery.SerialiseThenParse | apps/backend/logistics-service/src/delivery/delivery.service.ts:25-38 | a stored status read back from its serialised form is the same status |
| Delivery.DeliveryStore.CreateDelivery | apps/backend/logistics-service/src/delivery/delivery.service.ts:11-23 | the record stored under the new id has the new id, or the body's own `id` when it sends one (the spread overwrites it), the request's fields, the initial status and both timestamps set to now; without a body `id` every record stays stored under its own id, and a body `id` different from the new one breaks that |
| Delivery.DeliveryStore.GetDelivery | apps/backend/logistics-service/src/delivery/delivery.service.ts:25-31 | the stored record, or NotFound |
| Delivery.DeliveryStore.UpdateStatus | apps/backend/logistics-service/src/delivery/delivery.service.ts:33-47 | unknown id: NotFound and nothing stored; otherwise the body's `status`, unvalidated, becomes the record's status through `ParseStatus` (an enum value, any other string, or none when the body has no `status`), with no transition check, and only `status` and `updatedAt` change |
| Delivery.DeliveryStore.AssignDriver | apps/backend/logistics-service/src/delivery/delivery.service.ts:49-61 | unknown id: NotFound and nothing stored; otherwise the driver is set, possibly to none when the body has no `driverId`, and the status becomes ASSIGNED whatever it was; only that record changes |
| Delivery.StatusUpdatesCommuteToLast | apps/backend/logistics-service/src/delivery/delivery.service.ts:35-36 | two status updates leave what the last one alone would |
| Auth.VerifyHash | apps/backend/auth-service/src/auth/auth.service.ts:57-108 | a hash verifies exactly its own secret |
| Auth.AuthService.Register | apps/backend/auth-service/src/auth/auth.service.ts:30-49 | a taken email is a conflict and creates nobody; otherwise one user is appended with the hashed password and the issued refresh token's hash, and is then found by that email |
| Auth.AuthService.Login | apps/backend/auth-service/src/auth/auth.service.ts:57-74 | succeeds iff the email is known and the password verifies; both failures are InvalidCredentials and change nothing; success stores the new refresh hash |
| Auth.AuthService.Logout | apps/backend/auth-service/src/auth/auth.service.ts:81-86 | the user's refresh hash is cleared and nothing else changes |
| Auth.AuthService.RefreshTokens | apps/backend/auth-service/src/auth/auth.service.ts:95-108 | succeeds iff the user exists, has a refresh hash and the token verifies against it; failures are AccessDenied and change nothing; success rotates the hash |
| Auth.AuthService.UpdateRefreshToken | apps/backend/auth-service/src/auth/auth.service.ts:116-122 | only that user's refresh hash changes |
| Auth.AuthService.ForgotPassword | apps/backend/auth-service/src/auth/auth.service.ts:154-170 | the same message either way; a known user gets the token and an expiry one hour later |
| Auth.AuthService.ResetPassword | apps/backend/auth-service/src/auth/auth.service.ts:180-202 | succeeds iff the email is known, the token matches, an expiry is set and it is not before now; failures change nothing; success stores the new hash and clears token and expiry |
| Auth.AuthService.VerifyEmail | apps/backend/auth-service/src/auth/auth.service.ts:209-218 | the same message either way; a known user's flag is set |
| Auth.OnlyLatestRefreshToken | apps/backend/auth-service/src/auth/auth.service.ts:95-122 | after a rotation only the newest refresh token is accepted |
| Auth.LogoutRevokesRefresh | apps/backend/auth-service/src/auth/auth.service.ts:81-103 | after logout no refresh token is accepted |
| Auth.ResetWindow | apps/backend/auth-service/src/auth/auth.service.ts:154-189 | a reset token is accepted iff it is the issued one and now is at most one hour after the request |
| Auth.ResetIsSingleUse | apps/backend/auth-service/src/auth/auth.service.ts:191-199 | after a reset the token no longer works, and only the new password verifies |
| Auth.AppendKeepsValid | apps/backend/auth-service/src/auth/auth.service.ts:40-44 | appending a user with a new email keeps emails unique and ids positional |
| Auth.UpdateKeepsValid | apps/backend/auth-service/src/auth/auth.service.ts:118-121 | updating a user without changing id or email keeps the table valid and every lookup |
| Guards.SomeEquals | apps/backend/products-service/src/common/guards/roles.guard.ts:33 | true iff the role is among the required ones |
| Guards.RolesCanActivate | apps/backend/products-service/src/common/guards/roles.guard.ts:10-34 | no required roles: allowed; required roles with a missing or empty role header: forbidden; otherwise allowed iff the role is required |
| Guards.RolesMonotone | apps/backend/products-service/src/common/guards/roles.guard.ts:33 | adding required roles never denies a role that was allowed |
| Guards.RolesAllowedOnlyWithRole | apps/backend/products-service/src/common/guards/roles.guard.ts:24-33 | with roles required, access is granted iff a non-empty role is present and required |
| Guards.ServiceCanActivate | apps/backend/finance-service/src/common/guards/service-auth.guard.ts:17-35 | no configured secret: denied; a header other than the secret: unauthorized; the exact secret: allowed |
| Guards.ServicePassMeansSecretMatched | apps/backend/finance-service/src/common/guards/service-auth.guard.ts:22-34 | access is granted iff a secret is configured and the header equals it, and refused quietly iff none is configured |
| SanityCheck.Use | apps/backend/logistics-service/src/common/middleware/sanity-check.middleware.ts:13-24 | rejected iff the upper-cased method is GET or DELETE and the body has at least one key; the rejection carries the fixed message |
| SanityCheck.MethodCaseIgnored | apps/backend/api-gateway/src/middleware/sanity-check.middleware.ts:5-14 | `get` and `Delete` are treated like `GET` and `DELETE` |
| SanityCheck.OtherMethodsPass | apps/backend/api-gateway/src/middleware/sanity-check.middleware.ts:9 | a POST and a request without a method always pass |
| SanityCheck.EmptyBodyPasses | apps/backend/logistics-service/src/common/middleware/sanity-check.middleware.ts:18 | no body or an empty body always passes |
| GatewayProxy.SegmentLength | apps/backend/api-gateway/src/middleware/proxy.middleware.ts:18 | the length of the longest '/'-free prefix |
| GatewayProxy.PathRewrite | apps/backend/api-gateway/src/middleware/proxy.middleware.ts:16-19 | the result is a suffix of the path; it differs from the path iff the path starts with '/' followed by a non-'/' character, and then it is empty or starts with '/' |
| GatewayProxy.PathRewriteDropsFirstSegment | apps/backend/api-gateway/src/middleware/proxy.middleware.ts:18 | `/<segment><rest>` becomes `<rest>` |
| GatewayProxy.PathRewriteExamples | apps/backend/api-gateway/src/middleware/proxy.middleware.ts:16-19 | `/products/123` becomes `/123`, `/products` becomes empty, and `/` and `//x` are kept |
| GatewayProxy.SecretOrEmpty | apps/backend/api-gateway/src/middleware/proxy.middleware.ts:23 | the configured secret when set, else "" |
| GatewayProxy.ProxyRequest.OnProxyReq | apps/backend/api-gateway/src/middleware/proxy.middleware.ts:21-31 | with header names stored lower-case (as Node stores them), `x-gateway-secret` is always set to the configured secret or ''; `x-user-id` and `x-user-role` are set to the authenticated user's id and role only when a user is attached, replacing whatever the client sent under those names; no other header changes and names stay lower-case |
| GatewayProxy.LowerCaseFixed | apps/backend/api-gateway/src/middleware/proxy.middleware.ts:24-28 | a name without ASCII capitals is its own lower-case spelling |
| GatewayProxy.OneSpellingPerName | apps/backend/api-gateway/src/middleware/proxy.middleware.ts:24-28 | in a header map with lower-case names, the only entry matching a name case-insensitively is that name itself, so a client-sent `X-User-Role` cannot survive beside the injected one |
| GatewayProxy.ForwardedSecretPasses | apps/backend/api-gateway/src/middleware/proxy.middleware.ts:23-24 | when the gateway and the service share a secret, the forwarded header passes the service guard; when only the service has one, it is refused |
| P2P.P2PService.constructor | apps/backend/finance-service/src/p2p/p2p.service.ts:9-11 | the default adapter is the only one registered |
| P2P.P2PService.RegisterAdapter | apps/backend/finance-service/src/p2p/p2p.service.ts:13-16 | the adapter is stored under its name, replacing any earlier one |
| P2P.P2PService.GetAdapter | apps/backend/finance-service/src/p2p/p2p.service.ts:28-33 | the adapter registered under a non-empty name, else the default |
| P2P.P2PService.GetUSDTQuote | apps/backend/finance-service/src/p2p/p2p.service.ts:18-21 | the quote is delegated to the selected adapter with the currency |
| P2P.P2PService.InitiateUSDTConversion | apps/backend/finance-service/src/p2p/p2p.service.ts:23-26 | the sell order is delegated to the selected adapter with amount and currency |
| Instrumentation.TrimAll | apps/backend/finance-service/src/instrumentation.ts:27 | each segment trimmed, same count |
| Instrumentation.SegmentsTrimmed | apps/backend/finance-service/src/instrumentation.ts:25-28 | every segment is non-empty and trimmed |
| Instrumentation.SegmentPair | apps/backend/finance-service/src/instrumentation.ts:31-35 | an accepted pair has a trimmed key other than `__proto__` and a trimmed value |
| Instrumentation.ParseKeyValuePairs | apps/backend/finance-service/src/instrumentation.ts:22-40 | the loop computes the left fold of the segments; null, undefined and '' give the empty object |
| Instrumentation.ReduceSegments | apps/backend/finance-service/src/instrumentation.ts:29-39 | the loop computes the left fold of the segments |
| Instrumentation.FoldEntries | apps/backend/finance-service/src/instrumentation.ts:29-39 | every parsed key and value is trimmed, and no key is `__proto__` |
| Instrumentation.SegmentEntry | apps/backend/finance-service/src/instrumentation.ts:31-35 | `k=v` with a non-empty, '='-free `k` sets `trim(k)` to `trim(v)`, keeping any '=' inside `v` |
| Instrumentation.SegmentSkipped | apps/backend/finance-service/src/instrumentation.ts:32-34 | a segment without '=' or starting with '=' is skipped |
| Instrumentation.LaterDuplicateWins | apps/backend/finance-service/src/instrumentation.ts:35 | of two segments for the same key, the later one's value is kept |
| Instrumentation.BuildOtlpHeaders | apps/backend/finance-service/src/instrumentation.ts:42-53 | the parsed headers when there are any; else an Authorization header when one is set; else none, and none exactly then |
| Instrumentation.ResolveResourceAttributes | apps/backend/finance-service/src/instrumentation.ts:55-79 | every parsed attribute is kept except the three overridden keys, which take the parsed value, else the environment value, else the fixed default |
| Instrumentation.ResourceAttributesNonEmpty | apps/backend/finance-service/src/instrumentation.ts:57-71 | none of the three attributes is ever empty |
| Instrumentation.KnownDetectors | apps/backend/finance-service/src/instrumentation.ts:88-91 | no more detectors than names, and none iff no trimmed name is `env`, `host` or `os` |
| Instrumentation.KnownDetectorsFilterMap | apps/backend/finance-service/src/instrumentation.ts:88-91 | the detector list is the map-then-filter of the names through the trimmed lookup |
| Instrumentation.KnownDetectorsMembers | apps/backend/finance-service/src/instrumentation.ts:88-91 | a detector is in the list iff some listed name, trimmed, is `env`, `host` or `os` naming it |
| Instrumentation.ResolveResourceDetectors | apps/backend/finance-service/src/instrumentation.ts:81-94 | the known detectors in order, or undefined iff no name is known |
| Instrumentation.ResolveResourceDetectorsAsWritten | apps/backend/finance-service/src/instrumentation.ts:81-94 | the lookup through the object literal; a result is never an empty list |
| Instrumentation.InheritedNamePassesAsWritten | apps/backend/finance-service/src/instrumentation.ts:82-91 | a member name every object inherits, such as `toString`, passes as written, and the intended selection ignores it |
| Instrumentation.ToStringIsInheritedName | apps/backend/finance-service/src/instrumentation.ts:90 | `toString` is such a name |
| Instrumentation.AsWrittenAgreesOnOwnNames | apps/backend/finance-service/src/instrumentation.ts:88-91 | where no inherited name is requested, the as-written lookup and the intended one agree |
| Instrumentation.ShouldBuildTraceExporter | apps/backend/finance-service/src/instrumentation.ts:96-100 | an exporter is built only with an endpoint set; when no exporter name is set, exactly when an endpoint is set; when a name is set, exactly when it lower-cases to `otlp` and an endpoint is set, so any other exporter disables it |
| Instrumentation.TraceExporterExamples | apps/backend/finance-service/src/instrumentation.ts:97-98 | `OTLP` counts as `otlp`, `console` turns the exporter off, and no endpoint gives none |
| RequestLogging.TraceparentTraceId | apps/backend/products-service/src/app.module.ts:20-23 | a trace id taken from `traceparent` is non-empty and holds no '-' |
| RequestLogging.ExtractTraceId | apps/backend/products-service/src/app.module.ts:13-32 | no headers give undefined |
| RequestLogging.W3CTraceparent | apps/backend/logistics-service/src/app.module.ts:15-34 | a `version-traceid-parentid-flags` header yields its trace id, whatever the B3 header says |
| RequestLogging.B3Fallback | apps/backend/finance-service/src/app.module.ts:15-34 | without a usable `traceparent` trace id, the string `x-b3-traceid` is taken, else undefined |
| RequestLogging.TraceparentWithoutDash | apps/backend/products-service/src/app.module.ts:20-21 | a `traceparent` without '-' yields no trace id |
| RequestLogging.ExtractRequestId | apps/backend/products-service/src/app.module.ts:34-54 | a string id is kept, a number id is rendered in base 10, and otherwise the `x-request-id` header is used (its first element when repeated) |
| RequestLogging.LoggerIdWins | apps/backend/logistics-service/src/app.module.ts:36-56 | the logger's id wins over the header, and 42 becomes "42" |
| RequestLogging.FinanceExtractRequestId | apps/backend/finance-service/src/app.module.ts:36 | the request's id as is, undefined without a request |
| RequestLogging.ShouldSkipAutoLogging | apps/backend/products-service/src/app.module.ts:56 | a request without a URL is always logged |
| RequestLogging.SkipExamples | apps/backend/logistics-service/src/app.module.ts:58 | `/health` and `/api/health/live` are skipped; `/orders` and no URL are logged |
| Text.SplitJoin | apps/backend/finance-service/src/instrumentation.ts:31-35 | joining a split with the same separator gives the string back |
| Text.SplitAtFirst | apps/backend/finance-service/src/instrumentation.ts:31-35 | the first part ends at the first separator, and the other parts join back to everything after it |
| Text.Trim | apps/backend/products-service/src/tags/tags.service.ts:22 | the result starts and ends with a non-space character, and is no longer than the input |
| Text.TrimEmpty | apps/backend/finance-service/src/instrumentation.ts:27-28 | the trim is empty exactly when the string is all white space |
| Text.DecimalRoundTrip | apps/backend/products-service/src/app.module.ts:41 | reading back the base-10 rendering of a natural number gives the number |
| Seqs.Filter | apps/frontend/pwa/src/features/checkout/cartSlice.ts:45 | every kept element passes; an element is kept iff it was present and passes; nothing is dropped when all pass |
| Seqs.FilterOutUnique | apps/frontend/pwa/src/features/checkout/cartSlice.ts:45 | filtering out the key of the unique element at `i` leaves the elements before and after it |
| Seqs.FilterKeepsUnique | apps/frontend/pwa/src/features/inventory/inventorySlice.ts:48 | a filtered list keeps unique keys |
| Seqs.FilterMapMembers | apps/backend/finance-service/src/instrumentation.ts:90-91 | a value is among the hits of `map(f).filter(Boolean)` iff `f` gives it for some element |

## Left out

- Cart.Total: prices and quantities are exact reals and the sum is taken from the right; the source sums JavaScript doubles with a left `reduce`, so its rounding (and the order it rounds in) is not modelled.
- Persistence: MongoDB, Prisma, Redis and browser `localStorage` are modelled as maps and sequences. Transactions are single methods. Serialisation and the copies in storage are not modelled.
- Concurrency: `reserveStock` is modelled with one concurrent writer. An `interleaved` parameter gives, per item, the counters another request may leave on that item's product between the read and the conditional update. The outcome and final store are stated exactly for every such run. Several writes per item, and writes landing at other moments (for instance during the rollback), are not modelled.
- Products.ProductStore.ReserveStock: quantities are integers. The products service installs no global validation pipe, so the DTO's decorators are not enforced at runtime and any JSON number (fractional or negative) would reach `reserveStock`; the `Valid` guarantee is stated for non-negative quantities only.
- Products.ProductStore.Update: the store keeps only the two counters, so a body that writes the other schema paths (name, description, price, sku, vertical, attributes, isActive, sellerId) changes nothing the model holds; body counters are integers.
- Products.ProductStore.ReleaseStock: the schema's `min: 0` is not re-checked. The invariant `0 <= reservedStock <= stock` is therefore stated under preconditions rather than enforced.
- Finance.Ledger.CreateOrder: amounts are exact `real` numbers, not IEEE doubles, so rounding in `price * quantity` and `* 0.05` is not modelled.
- Finance: order and entry ids are positions in the ledger, not Prisma's generated ids. `reason` and the logger output are not modelled.
- Finance.Ledger.GeneratePaymentForOrder: the payment provider call is not modelled. The method returns the request it would make.
- Cart.Cart.AddToCart: the payload's quantity is an integer.
- Cart.Cart.UpdateQuantity: the payload's quantity is an integer. The source's `Math.max(0, quantity)` on a JavaScript number would keep a fractional quantity such as 0.5, which the model cannot express.
- Auth: argon2 hashing is a digest that verifies exactly its own preimage. Salting and timing are not modelled. JWT signing is not modelled: tokens are inputs. Prisma user ids are positions in the table.
- Auth.AuthService.Logout: an unknown id fails with UserNotFound, which stands for Prisma's record-not-found error.
- Auth.AuthService.ForgotPassword: the reset token and the current time are parameters. The console log is not modelled.
- Delivery: `uuid` and the ISO timestamps are parameters. The Redis `publish` events are not modelled. The unvalidated spread also stores any undeclared body fields; only a body `id` is modelled, because it is the only generated field the spread can overwrite (`status` and the timestamps are written after it).
- Delivery.DeliveryStore.UpdateStatus: the body's `status` is a string or absent. A JSON number, boolean or object would be stored just the same; the model has no such values.
- Tags.TagStore.Create: ValidationFailed stands for the schema's `required` name and seller (tags/schemas/tag.schema.ts:8-12); Mongoose's error object is not modelled.
- Tags.TagStore.Create: the count check and the insert are one step here. Mongo runs them as two queries, so two concurrent creates could pass the limit; that race is not modelled. The duplicate check stands for the unique index that raises error 11000.
- Checkout: toasts, rendering and the `view` transitions other than payment and finish are not modelled. The handlers require the item to be a rendered cart line.
- Dashboard.BulkUpdates: the `p.id || p._id` fallback is not modelled; products are looked up by `id`. The toasts and the `Promise.all` of updates are not modelled.
- Dashboard.InventoryDashboard.HandleSubmit: `alert` and the image upload are not modelled. `navigator.onLine` and the create result are parameters.
- Payment.PaymentFlow.constructor: the rendering of the initial amount by `toString` is taken as given text, and `parseFloat` of the keypad amount is not modelled.
- Payment: the `isCreating` re-entrancy flag, polling intervals, vibration and QR rendering are not modelled.
- NestJS errors: exception classes and their message arrays are modelled as error constructors with one fixed message.
- GatewayProxy.ProxyRequest.OnProxyReq: header values are single strings, not arrays.
- Guards.RolesCanActivate: the role header is a single string; a repeated header is not modelled.
- SanityCheck.Use: case folding is ASCII only. That suffices for the `GET` and `DELETE` comparisons; non-ASCII methods are not modelled.
- RequestLogging.ExtractRequestId: number ids are integers. Fractional and non-finite numeric ids are not rendered.
- RequestLogging.ExtractTraceId: its own contract only states the no-headers case. The W3C and B3 cases are stated by W3CTraceparent and B3Fallback.
- RequestLogging.ShouldSkipAutoLogging: its own contract only states the no-URL case. The `/health` cases are stated by SkipExamples.
- Instrumentation: the OpenTelemetry SDK start and shutdown, `shouldInitialize` and the global flag are not modelled. The exporter, the detectors and the semantic-convention keys are identified by name.
- Instrumentation.ParseKeyValuePairs: a `__proto__` key is skipped. On a plain object, assigning a string to it changes nothing visible.
- P2P: the adapters' network calls are not modelled. The service returns the call it delegates.

## Findings

| source | as written | input that shows it | evidently intended | confidence | as-written member | corrected member |
|---|---|---|---|---|---|---|
| apps/backend/finance-service/src/instrumentation.ts:81-94 | the requested detector names are looked up in a plain object literal, so member names every object inherits (`toString`, `constructor`, `valueOf`, ...) yield a truthy function that passes `.filter(Boolean)` and is handed to the SDK as a resource detector | `OTEL_NODE_RESOURCE_DETECTORS=toString` | only `env`, `host` and `os` are selected, and a list naming none of them gives undefined | not executed | Instrumentation.InheritedNamePassesAsWritten | Instrumentation.ResolveResourceDetectors |
