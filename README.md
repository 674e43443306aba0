# Checkout and voucher redemption in Food_Manager

Food_Manager is a restaurant back end written in Go. This model covers its
checkout path. A user builds an active cart with cart lines
(`CartController`). The user claims vouchers into `user_vouchers` rows under a
date window and per-user and global usage limits (`VoucherController`).
`CreateOrder` turns the active cart into an order, its order lines and a
cash-on-delivery payment, consumes the held voucher, and replaces the cart with
a new empty one (`OrderController`). Afterwards the owner cancels a pending
order, or an administrator moves an order to any status; completing an order
marks its payments paid. `GetOrderById` shows an order only to its owner.

Modules:
- `Common`: the error kinds that replace the HTTP answers, and the writes that can fail.
- `Models`: the rows and the status constants.
- `Query`: `WHERE`, `First` and `UPDATE … WHERE` over a table kept in id order, with their algebra.
- `Pricing`: the subtotal, the voucher discount and the amount charged.
- `Store`: the tables, the store's invariants and the `Database` class.
- `CartController`, `VoucherController` and `OrderController`: one each for the three handler files.

Each handler is a module-level method that takes the `Database` object `db`.
- Its result and the store it leaves are stated equal to an outcome function of the old store.
- The outcome function spells out the handler's checks in the handler's order.
- Every write the handler issues may fail. The parameter `failing` names the writes that fail.
- A failed transaction is rolled back: the store is left as it was.
- The handler also keeps the store's invariants (`Database.Valid`).
- Lemmas about the outcome functions state what the handler promises.

Where the code and its data comments disagree, the model follows the code:
- The discount stored on an order is not clamped to the subtotal. Only the charged total is floored at 0.
- Checkout does not re-check a voucher's dates or usage limits. It only requires an unused claim and the minimum order.
- The administrator's status update allows every transition, including out of `completed` and `cancelled`.
- `UpdateCartItem` and `RemoveItemFromCart` do not check whose cart a line is in. `UpdateCartItem` takes no user at all.
- A cart line whose product row is gone is priced 0, as a zero-valued preloaded product.
- `AddItemToCart` creates a missing cart outside its transaction, so a later failure keeps that cart.
- Checkout deletes the old cart row; it does not mark it closed.

## Model

| member | source | states |
|---|---|---|
| Pricing.SumLines | backend/app/http/controllers/order_controller.go:126-130 | the accumulation loop over the cart lines yields the subtotal, the sum of price × quantity |
| Pricing.SubtotalConcat | backend/app/http/controllers/cart_controller.go:282-285 | the subtotal of two runs of lines is the sum of their subtotals |
| Pricing.SubtotalNonNegative | backend/app/http/controllers/cart_controller.go:282-285 | lines with non-negative prices and quantities never total below zero |
| Pricing.FinalTotal | backend/app/http/controllers/order_controller.go:170-173 | the amount charged is subtotal − discount, or 0 when that is negative; never negative |
| Pricing.PercentDiscountIsCappedShare | backend/app/http/controllers/order_controller.go:159-164 | a percent voucher gives subtotal × value / 100, replaced by the cap exactly when the cap is positive and exceeded; it never exceeds that share, nor a positive cap |
| Pricing.PercentDiscountWithinSubtotal | backend/app/http/controllers/order_controller.go:159-164 | a percent voucher of at most 100% discounts between 0 and the subtotal |
| Pricing.PercentDiscountMonotone | backend/app/http/controllers/order_controller.go:159-164 | a percent voucher discounts a larger subtotal at least as much |
| Pricing.FixedDiscountIgnoresSubtotal | backend/app/http/controllers/order_controller.go:165-167 | any other voucher type gives its value whatever the subtotal, even above it |
| Pricing.FinalTotalSplitsSubtotal | backend/app/http/controllers/order_controller.go:170-173 | charge plus discount is the subtotal when the discount does not exceed it; otherwise nothing is charged |
| Pricing.CappedPercentExample | backend/app/http/controllers/order_controller.go:159-173 | 10% of 500,000 capped at 40,000 gives discount 40,000 and charge 460,000 |
| Pricing.FixedDiscountAboveSubtotalExample | backend/app/http/controllers/order_controller.go:165-173 | a fixed 150,000 voucher on 100,000 keeps discount 150,000 and charges 0 |
| Store.Database.Commit | backend/app/http/controllers/order_controller.go:279-285 | committing a transaction makes its working copy the stored state |
| Store.OpenCartKeepsConsistent | backend/app/http/controllers/cart_controller.go:100-110 | creating a cart for a user without one keeps the store consistent, and the new cart is the user's one active cart, with no lines |
| Store.SetQuantityKeepsConsistent | backend/app/http/controllers/cart_controller.go:199-200 | setting a positive quantity on a line keeps the store consistent |
| Store.InsertLineKeepsConsistent | backend/app/http/controllers/cart_controller.go:220-233 | inserting a line with a new id and positive quantity into a cart without a line for the product keeps the store consistent |
| Store.DeleteLinesKeepsConsistent | backend/app/http/controllers/cart_controller.go:379-385 | deleting cart lines, under any condition, keeps the store consistent |
| CartController.ViewListsCartLines | backend/app/http/controllers/cart_controller.go:273-285 | a cart's view lists exactly its lines, all with positive quantity, and its total is not negative when prices are not |
| CartController.CartOfIsTheActiveCart | backend/app/http/controllers/cart_controller.go:259-271 | with no active cart the answer is an empty view with total 0; otherwise the view of the one active cart |
| CartController.ReadCart | backend/app/http/controllers/cart_controller.go:273-285 | reading a cart's lines and summing them gives the cart's view |
| CartController.GetCartByUserID | backend/app/http/controllers/cart_controller.go:250-296 | the handler answers the specified view of the user's cart and changes nothing |
| CartController.InitCartKeepsConsistent | backend/app/http/controllers/cart_controller.go:60-121 | `InitCart` keeps the store consistent |
| CartController.InitCartLeavesOneActiveCart | backend/app/http/controllers/cart_controller.go:69-110 | a cart is created only when the user has no active cart; afterwards the user has exactly one, and the answer is what `GetCartByUserID` shows |
| CartController.InitCartIdempotent | backend/app/http/controllers/cart_controller.go:69-98 | a second `InitCart` changes nothing and answers the same |
| CartController.InitCart | backend/app/http/controllers/cart_controller.go:60-121 | the handler's answer and new store are the specified outcome, and the store stays consistent |
| CartController.AddItemKeepsConsistent | backend/app/http/controllers/cart_controller.go:123-247 | `AddItemToCart` keeps the store consistent: one active cart per user, one line per product, positive quantities |
| CartController.AddItemFailureChangesAtMostTheCart | backend/app/http/controllers/cart_controller.go:178-241 | a failed add changes nothing except that a cart created before the transaction stays |
| CartController.AddItemRejectsBeforeStorage | backend/app/http/controllers/cart_controller.go:139-167 | a non-positive product id or quantity, or an unknown product, is rejected in that order with nothing changed |
| CartController.AddItemMergesOrAppends | backend/app/http/controllers/cart_controller.go:193-233 | a cart is created only when the user has no active cart, and no other cart changes; afterwards the cart has exactly one line for the product, holding the old quantity (0 if absent) plus the added one; other lines are unchanged; a line is added only when the product was absent |
| CartController.RaiseTouchesOnlyThatLine | backend/app/http/controllers/cart_controller.go:193-218 | raising the product's line changes that line alone |
| CartController.InsertTouchesOnlyThatLine | backend/app/http/controllers/cart_controller.go:220-241 | inserting a line for an absent product adds that line alone |
| CartController.AddItemRaisesCartTotal | backend/app/http/controllers/cart_controller.go:282-285 | a successful add raises the total `GetCartByUserID` reports by the product's price times the quantity added |
| CartController.TotalAfterRaise | backend/app/http/controllers/cart_controller.go:283-285 | rewriting the one line with an id changes the total by the difference of the two lines' amounts |
| CartController.AddItemToCart | backend/app/http/controllers/cart_controller.go:123-247 | the handler's answer and new store are the specified outcome, and the store stays consistent |
| CartController.UpdateItemKeepsConsistent | backend/app/http/controllers/cart_controller.go:298-360 | `UpdateCartItem` keeps the store consistent |
| CartController.UpdateItemSetsOnlyThatLine | backend/app/http/controllers/cart_controller.go:314-346 | a non-positive id or quantity is rejected before storage; a success gives the named line the new quantity, keeping its cart and product, in whoever's cart, and changes nothing else |
| CartController.UpdateCartItem | backend/app/http/controllers/cart_controller.go:298-360 | the handler's answer and new store are the specified outcome |
| CartController.RemoveItemKeepsConsistent | backend/app/http/controllers/cart_controller.go:362-398 | `RemoveItemFromCart` keeps the store consistent |
| CartController.RemoveItemDeletesOnlyThatLine | backend/app/http/controllers/cart_controller.go:363-385 | a success deletes the line with the id, in whoever's cart, and nothing else; a failure changes nothing |
| CartController.RemoveItemFromCart | backend/app/http/controllers/cart_controller.go:362-398 | the handler's answer and new store are the specified outcome |
| VoucherController.ClaimSucceedsExactlyWhen | backend/app/http/controllers/voucher_controller.go:184-298 | a claim succeeds if and only if the code is given, the user known, the voucher found and inside its window, no unused copy held, both limits leave room, and no write fails |
| VoucherController.ClaimRefusals | backend/app/http/controllers/voucher_controller.go:186-270 | each of the seven refusals (missing code, no user, unknown code, outside the window, unused copy held, per-user limit, global limit) holds exactly when the checks before it pass and its own fails; every refusal leaves the store as it was |
| VoucherController.ClaimAddsOneRow | backend/app/http/controllers/voucher_controller.go:272-298 | a success inserts exactly one row {user, voucher, used = false} with the next id and changes nothing else; the user's claims and all claims of the voucher grow by one |
| VoucherController.ClaimKeepsConsistent | backend/app/http/controllers/voucher_controller.go:229-270 | under claims, a user holds at most one unused row per voucher, and no voucher's per-user or global count exceeds its limit |
| VoucherController.SecondClaimRejected | backend/app/http/controllers/voucher_controller.go:238-248 | claiming again before the first copy is used is refused at any time in the window |
| VoucherController.ZeroLimitAdmitsNoClaim | backend/app/http/controllers/voucher_controller.go:251-266 | a per-user or global limit of zero or less admits no claim |
| VoucherController.UserAddVoucher | backend/app/http/controllers/voucher_controller.go:184-304 | the handler's answer and new store are the specified outcome, and the store stays consistent |
| OrderController.PlanFromDatabase | backend/app/http/controllers/order_controller.go:63-173 | the checks and the loop that sums the cart give the specified plan of the checkout |
| OrderController.PlaceOrder | backend/app/http/controllers/order_controller.go:176-285 | the transaction's writes, the order-line loop included, give the specified store when none fails and leave the store unchanged otherwise |
| OrderController.CreateOrder | backend/app/http/controllers/order_controller.go:61-297 | the handler's answer and new store are the specified outcome, and the store stays consistent |
| OrderController.PlanFacts | backend/app/http/controllers/order_controller.go:63-168 | a plan exists only for a complete COD form and a known user with a non-empty active cart; its subtotal is the cart's; its discount is 0 without a code, otherwise the voucher's discount with the minimum met |
| OrderController.PlanClaimFacts | backend/app/http/controllers/order_controller.go:144-150 | the claim planned is the user's only unused row for the voucher |
| OrderController.CheckoutKeepsConsistent | backend/app/http/controllers/order_controller.go:176-285 | checkout keeps the store consistent: one active cart per user, lines per cart unique, voucher limits respected, order ids distinct |
| OrderController.CheckoutRefusals | backend/app/http/controllers/order_controller.go:63-124 | the form, the user, `COD` and the cart are checked in this order, each with its own error; every refusal writes nothing |
| OrderController.CheckoutVoucherRefusals | backend/app/http/controllers/order_controller.go:136-157 | with a code, checkout fails exactly when no voucher has it, when the user holds no unused claim of it, or when the cart total is below its minimum order; dates and limits are not re-checked |
| OrderController.CheckoutPricesTheCart | backend/app/http/controllers/order_controller.go:126-235 | the order's discount is 0 or the voucher's unclamped discount on the cart total; the order and its payment both carry the floored final total and start pending |
| OrderController.CheckoutCopiesCart | backend/app/http/controllers/order_controller.go:205-220 | one order line per cart line, in order, with the same product and quantity and the product's current price; earlier order lines are kept |
| OrderController.CopiedLinesSelected | backend/app/http/controllers/order_controller.go:205-220 | the new order's lines are exactly the rows appended for it |
| OrderController.CheckoutConsumesVoucher | backend/app/http/controllers/order_controller.go:237-246 | without a code no claim changes; with one, the claim row with the held claim's id is rewritten with `used` true and every other claim row is kept; no claim count but that user's unused count for the voucher moves; products, vouchers and the claim and cart-line id counters are unchanged |
| OrderController.ClaimMarkedUsed | backend/app/http/controllers/order_controller.go:237-246 | marking the one row with the claim's id used empties the user's unused claims of that voucher and keeps every other count |
| OrderController.CheckoutRotatesCart | backend/app/http/controllers/order_controller.go:248-277 | the old cart and its lines are deleted, other carts and lines kept, and the user is left exactly one active cart, new and empty, shown with total 0 |
| OrderController.OrderDetailShowsOnlyOwnOrders | backend/app/http/controllers/order_controller.go:323-364 | an order is shown only to its owner, with exactly its lines and one of its payments; it is not found exactly when the caller owns no order with that id |
| OrderController.PlacedOrderVisibleToOwner | backend/app/http/controllers/order_controller.go:323-364 | after checkout the owner finds the new order with its copied lines and its pending payment |
| OrderController.GetOrderById | backend/app/http/controllers/order_controller.go:323-364 | the handler answers the specified order detail |
| OrderController.OrderStatusSet | backend/app/http/controllers/order_controller.go:439-445 | setting a stored order's status changes that row alone and keeps the order ids consistent |
| OrderController.PaymentStatusSet | backend/app/http/controllers/order_controller.go:447-456 | setting an order's payment status changes the status of each of its payments, and no other field and no other payment |
| OrderController.CancelRefusals | backend/app/http/controllers/order_controller.go:477-503 | cancellation checks user, id, ownership and then pending status, in that order; the order is looked up as `GetOrderById` finds it; refusals write nothing |
| OrderController.CancelSetsBothStatuses | backend/app/http/controllers/order_controller.go:491-527 | a cancellation turns exactly the caller's pending order and every payment of it to cancelled, changing only their status fields and nothing else |
| OrderController.CancelTwiceFails | backend/app/http/controllers/order_controller.go:498-503 | a cancelled order cannot be cancelled again |
| OrderController.CancelKeepsConsistent | backend/app/http/controllers/order_controller.go:513-529 | cancellation keeps the store consistent |
| OrderController.CancelOrder | backend/app/http/controllers/order_controller.go:476-540 | the handler's answer and new store are the specified outcome, and the store stays consistent |
| OrderController.StatusRefusals | backend/app/http/controllers/order_controller.go:384-429 | a missing status or unparsable id, a status outside the six, and a missing order are refused in that order, writing nothing |
| OrderController.StatusUpdateAllowsAnyTransition | backend/app/http/controllers/order_controller.go:408-456 | any stored order, whatever its status, takes any of the six statuses when the writes succeed |
| OrderController.StatusUpdatePaysExactlyOnCompletion | backend/app/http/controllers/order_controller.go:439-456 | the order alone takes the new status; its payments, and no others, become paid exactly when the status is completed, with only their status changed; otherwise payments are untouched |
| OrderController.StatusKeepsConsistent | backend/app/http/controllers/order_controller.go:439-458 | a status update keeps the store consistent |
| OrderController.UpdateOrderStatus | backend/app/http/controllers/order_controller.go:383-473 | the handler's answer and new store are the specified outcome, and the store stays consistent |

## Left out

- JWT parsing, the token blacklist and the `Bearer` prefix are foreign-library code. The authenticated user id is a parameter, with 0 standing for "no user".
- The administrator middleware is not modelled. `UpdateOrderStatus` takes no user.
- The package-level `AuthUserID`/`AuthRole` globals matter only under concurrency, which is not modelled. The model is sequential.
- The races are not modelled (`UserAddVoucher` counts and then inserts; `AddItemToCart` looks a cart up and then creates it).
- Money is `real`, so `float64` rounding is not modelled.
- The `payments.amount` column is `numeric(10,2)` (backend/app/models/payments.go:10), but the model keeps the amount unrounded and unbounded. On an engine that enforces the column type, the stored amount is rounded to cents, and an amount too large for the column makes the payment insert fail. The model can express such a failure only as a failing `InsertPayment`, never as a consequence of the amount.
- OrderController.CheckoutPricesTheCart: the payment's amount is stated as the exact order total, not that total rounded to cents.
- OrderController.PlacedOrderVisibleToOwner: the owner reads back the exact order total as the payment's amount, not that total rounded to cents.
- Ids are modelled as a counter per table (`nextId`) that a rolled-back transaction restores, so after a failed checkout the next order reuses the id. A database sequence is not handed back on rollback and leaves a gap. Gaps in the id sequence are not modelled, and `OrderController.CheckoutPricesTheCart` relies on this when it states that the order's id is `s.orders.nextId`.
- Ids and cart quantities are unbounded integers, so 64-bit overflow is not modelled. In particular `existingItem.Quantity += quantity` cannot wrap to a negative quantity in the model.
- CartController.AddItemMergesOrAppends: the merged quantity is the exact sum of the old and added quantities; the Go `int` addition could wrap, and the model does not say what happens then.
- CartController.AddItemKeepsConsistent: lines keep positive quantities only because the model's addition does not wrap.
- `time.Now()` is the parameter `now`. Voucher dates are ordered integers.
- Request binding, JSON answers and HTTP codes are not modelled. The error kinds of `Common.Error` stand for the answers.
- The 500 answer when `Validate()` itself fails is not modelled.
- Failures of read queries are not modelled. Only writes, transaction begin and commit can fail, and a failing `First` is "no row".
- An id that does not parse is `None` (`Option<int>`).
- Rows carry only the fields the core reads or writes. Timestamps, names and preloaded associations are not modelled.
- Voucher `Create`, `Update`, `Delete` and the voucher listings are not modelled. They parse strings and write or list a row.
- `GetUserOrders`, `GetAllOrders`, `GetPaymentMethods`, `GetSalesReport` and `GetRevenueStats` are not modelled. They are plain listings, constants or float aggregates over wall-clock dates.
- The auth, category, product, reservation and booking controllers and the routes are not modelled.
