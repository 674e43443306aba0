/** The order handlers: checkout (`CreateOrder`), which turns the user's
    active cart into an order with its lines and payment, consumes the held
    voucher and swaps the cart for a fresh one; the owner's view of an order
    (`GetOrderById`); cancellation by the owner (`CancelOrder`); and the
    administrator's status change (`UpdateOrderStatus`). */
module OrderController {
  import opened Common
  import opened Models
  import opened Query
  import opened Pricing
  import opened Store
  import opened CartController

  /** The checkout form. `note` and `voucherCode` may be empty. */
  datatype CheckoutRequest = CheckoutRequest(
    fullName: string,
    phone: string,
    address: string,
    paymentMethod: string,
    note: string,
    voucherCode: string)

  /** What checkout has established before it writes: the cart, its lines,
      their subtotal, the discount, and the held claim row when a code was
      given. */
  datatype Plan = Plan(cart: Cart, lines: seq<CartItem>, subtotal: real, discount: real, claim: Option<UserVoucher>)

  /** The four required fields of the form are filled in. */
  predicate FormComplete(req: CheckoutRequest) {
    req.fullName != "" && req.phone != "" && req.address != "" && req.paymentMethod != ""
  }

  /** The checks of `CreateOrder` before its transaction, in the handler's
      order. */
  function PlanCheckout(s: State, user: int, req: CheckoutRequest): Result<Plan> {
    if !FormComplete(req) then Err(ValidationFailed)
    else if user == 0 then Err(Unauthorized)
    else if req.paymentMethod != CashOnDelivery then Err(UnsupportedPaymentMethod)
    else match ActiveCartFor(s.carts.rows, user)
      case None => Err(CartNotFound)
      case Some(c) =>
        var lines := LinesOfCart(s.cartItems.rows, c.id);
        var subtotal := Subtotal(Priced(s.products, lines));
        if lines == [] then Err(EmptyCart)
        else if req.voucherCode == "" then Ok(Plan(c, lines, subtotal, 0.0, None))
        else match FindVoucher(s.vouchers, req.voucherCode)
          case None => Err(VoucherNotFound)
          case Some(v) =>
            match First(Where(s.userVouchers.rows, UnusedBy(user, v.id)))
            case None => Err(VoucherNotHeld)
            case Some(uv) =>
              if subtotal < v.minOrder then Err(MinOrderNotMet)
              else Ok(Plan(c, lines, subtotal, ComputeDiscount(subtotal, v), Some(uv)))
  }

  /** The order row checkout inserts. */
  function PlacedOrder(s: State, user: int, req: CheckoutRequest, p: Plan): Order {
    Order(s.orders.nextId, user, req.fullName, req.phone, req.address,
      FinalTotal(p.subtotal, p.discount), req.note, p.discount, req.paymentMethod, Pending)
  }

  /** The payment row checkout inserts. */
  function PlacedPayment(s: State, req: CheckoutRequest, p: Plan): Payment {
    Payment(s.payments.nextId, s.orders.nextId, req.paymentMethod, FinalTotal(p.subtotal, p.discount), Pending)
  }

  /** The order line copied from a cart line, at the product's current price. */
  function CopiedLine(products: seq<Product>, l: CartItem, orderId: int, id: int): OrderItem {
    OrderItem(id, orderId, l.productId, l.quantity, PriceOf(products, l.productId))
  }

  /** The order lines copied from the cart lines, with consecutive ids from
      `firstId`. */
  function OrderLines(products: seq<Product>, lines: seq<CartItem>, orderId: int, firstId: int): (r: seq<OrderItem>)
    ensures |r| == |lines|
  {
    seq(|lines|, i requires 0 <= i < |lines| => CopiedLine(products, lines[i], orderId, firstId + i))
  }

  /** Whether checkout marks the claim row used: a code was given and the
      row found has a positive id. */
  predicate MarksClaim(p: Plan) {
    p.claim.Some? && p.claim.value.id > 0
  }

  /** `UPDATE user_vouchers SET used = true WHERE id = ?` when the claim is
      marked. */
  function ConsumeClaim(t: Table<UserVoucher>, p: Plan): Table<UserVoucher> {
    if MarksClaim(p) then t.(rows := Update(t.rows, UserVoucherWithId(p.claim.value.id), MarkedUsed)) else t
  }

  /** The new, empty, active cart checkout leaves the user. */
  function FreshCart(s: State, user: int): Cart {
    Cart(s.carts.nextId, user, Active)
  }

  /** The state checkout commits: the order, its lines and its payment
      added, the claim consumed, the old cart and its lines deleted, and a new
      active cart added. */
  function Checkout(s: State, user: int, req: CheckoutRequest, p: Plan): State {
    var items := OrderLines(s.products, p.lines, s.orders.nextId, s.orderItems.nextId);
    s.(orders := Inserted(s.orders, PlacedOrder(s, user, req, p)),
       orderItems := Table(s.orderItems.rows + items, s.orderItems.nextId + |items|),
       payments := Inserted(s.payments, PlacedPayment(s, req, p)),
       userVouchers := ConsumeClaim(s.userVouchers, p),
       cartItems := s.cartItems.(rows := Where(s.cartItems.rows, LineOutsideCart(p.cart.id))),
       carts := Table(Where(s.carts.rows, OtherCart(p.cart.id)) + [FreshCart(s, user)], s.carts.nextId + 1))
  }

  /** None of the writes the transaction attempts fails. */
  predicate CheckoutWritesSucceed(p: Plan, failing: set<Write>) {
    && BeginTx !in failing && InsertOrder !in failing
    && (forall i :: 0 <= i < |p.lines| ==> InsertOrderItem(i) !in failing)
    && InsertPayment !in failing
    && (MarksClaim(p) ==> MarkVoucherUsed !in failing)
    && DeleteCartItems !in failing && DeleteCart !in failing && InsertCart !in failing
    && CommitTx !in failing
  }

  /** What `CreateOrder` answers (the order row) and leaves. */
  function CheckoutOutcome(s: State, user: int, req: CheckoutRequest, failing: set<Write>): Outcome<Order> {
    match PlanCheckout(s, user, req)
    case Err(e) => Outcome(Err(e), s)
    case Ok(p) =>
      if CheckoutWritesSucceed(p, failing) then Outcome(Ok(PlacedOrder(s, user, req, p)), Checkout(s, user, req, p))
      else Outcome(Err(StorageFailure), s)
  }

  /** One more cart line copies to one more order line. */
  lemma OrderLinesStep(products: seq<Product>, lines: seq<CartItem>, i: int, orderId: int, firstId: int)
    requires 0 <= i < |lines|
    ensures OrderLines(products, lines[..i + 1], orderId, firstId)
      == OrderLines(products, lines[..i], orderId, firstId) + [CopiedLine(products, lines[i], orderId, firstId + i)]
  {
  }

  /** The reads and checks of `CreateOrder`, with the subtotal accumulated
      over the cart's lines. */
  method PlanFromDatabase(db: Database, user: int, req: CheckoutRequest) returns (r: Result<Plan>)
    ensures r == PlanCheckout(db.Snapshot(), user, req)
  {
    if !FormComplete(req) {
      return Err(ValidationFailed);
    }
    if user == 0 {
      return Err(Unauthorized);
    }
    if req.paymentMethod != CashOnDelivery {
      return Err(UnsupportedPaymentMethod);
    }
    var cart := ActiveCartFor(db.carts.rows, user);
    if cart.None? {
      return Err(CartNotFound);
    }
    var c := cart.value;
    var lines := LinesOfCart(db.cartItems.rows, c.id);
    if lines == [] {
      return Err(EmptyCart);
    }
    var subtotal := SumLines(Priced(db.products, lines));
    if req.voucherCode == "" {
      return Ok(Plan(c, lines, subtotal, 0.0, None));
    }
    var voucher := FindVoucher(db.vouchers, req.voucherCode);
    if voucher.None? {
      return Err(VoucherNotFound);
    }
    var v := voucher.value;
    var claim := First(Where(db.userVouchers.rows, UnusedBy(user, v.id)));
    if claim.None? {
      return Err(VoucherNotHeld);
    }
    if subtotal < v.minOrder {
      return Err(MinOrderNotMet);
    }
    r := Ok(Plan(c, lines, subtotal, ComputeDiscount(subtotal, v), claim));
  }

  /** The transaction of `CreateOrder`: each write on the transaction's copy,
      order lines one per cart line, and the copy committed at the end. */
  method PlaceOrder(db: Database, user: int, req: CheckoutRequest, p: Plan, failing: set<Write>) returns (r: Result<Order>)
    modifies db
    ensures CheckoutWritesSucceed(p, failing) ==>
      r == Ok(PlacedOrder(old(db.Snapshot()), user, req, p)) && db.Snapshot() == Checkout(old(db.Snapshot()), user, req, p)
    ensures !CheckoutWritesSucceed(p, failing) ==> r == Err(StorageFailure) && db.Snapshot() == old(db.Snapshot())
  {
    var s := db.Snapshot();
    if BeginTx in failing || InsertOrder in failing {
      return Err(StorageFailure);
    }
    var order := PlacedOrder(s, user, req, p);
    var orderItems := s.orderItems;
    var i := 0;
    while i < |p.lines|
      invariant 0 <= i <= |p.lines|
      invariant orderItems == Table(s.orderItems.rows + OrderLines(s.products, p.lines[..i], order.id, s.orderItems.nextId), s.orderItems.nextId + i)
      invariant forall j :: 0 <= j < i ==> InsertOrderItem(j) !in failing
      invariant db.Snapshot() == s
    {
      if InsertOrderItem(i) in failing {
        assert !CheckoutWritesSucceed(p, failing);
        return Err(StorageFailure);
      }
      OrderLinesStep(s.products, p.lines, i, order.id, s.orderItems.nextId);
      orderItems := Inserted(orderItems, CopiedLine(s.products, p.lines[i], order.id, orderItems.nextId));
      i := i + 1;
    }
    assert p.lines[..i] == p.lines;
    if InsertPayment in failing || (MarksClaim(p) && MarkVoucherUsed in failing) {
      return Err(StorageFailure);
    }
    if DeleteCartItems in failing || DeleteCart in failing || InsertCart in failing || CommitTx in failing {
      return Err(StorageFailure);
    }
    var tx := s.(orders := Inserted(s.orders, order), orderItems := orderItems);
    tx := tx.(payments := Inserted(s.payments, PlacedPayment(s, req, p)));
    tx := tx.(userVouchers := ConsumeClaim(s.userVouchers, p));
    tx := DeleteLines(tx, LineOutsideCart(p.cart.id));
    var kept := Where(s.carts.rows, OtherCart(p.cart.id));
    tx := tx.(carts := Table(kept + [FreshCart(s, user)], s.carts.nextId + 1));
    db.Commit(tx);
    r := Ok(order);
  }

  /** `CreateOrder`. */
  method CreateOrder(db: Database, user: int, req: CheckoutRequest, failing: set<Write>) returns (r: Result<Order>)
    requires db.Valid()
    modifies db
    ensures db.Valid()
    ensures Outcome(r, db.Snapshot()) == CheckoutOutcome(old(db.Snapshot()), user, req, failing)
  {
    CheckoutKeepsConsistent(db.Snapshot(), user, req, failing);
    var plan := PlanFromDatabase(db, user, req);
    if plan.Err? {
      return Err(plan.error);
    }
    r := PlaceOrder(db, user, req, plan.value, failing);
  }

  /** What a successful plan has established: the user's active cart and
      its non-empty lines, their subtotal, and, when a code was given, the
      voucher found by it, the user's first unused claim row for it, a
      subtotal meeting its minimum, and its discount; with no code, no claim
      and no discount. */
  lemma PlanFacts(s: State, user: int, req: CheckoutRequest, p: Plan)
    requires PlanCheckout(s, user, req) == Ok(p)
    ensures FormComplete(req) && user != 0 && req.paymentMethod == CashOnDelivery
    ensures ActiveCartFor(s.carts.rows, user) == Some(p.cart)
    ensures p.lines == LinesOfCart(s.cartItems.rows, p.cart.id) && p.lines != []
    ensures p.subtotal == Subtotal(Priced(s.products, p.lines))
    ensures req.voucherCode == "" ==> p.claim == None && p.discount == 0.0
    ensures req.voucherCode != "" ==>
      && FindVoucher(s.vouchers, req.voucherCode).Some?
      && var v := FindVoucher(s.vouchers, req.voucherCode).value;
         && p.claim == First(Where(s.userVouchers.rows, UnusedBy(user, v.id)))
         && p.claim.Some?
         && p.subtotal >= v.minOrder
         && p.discount == ComputeDiscount(p.subtotal, v)
  {
  }

  /** The claim row a plan holds is an unused row of the user's for the
      voucher, and in a consistent store the only one, with a positive id. */
  lemma PlanClaimFacts(s: State, user: int, req: CheckoutRequest, p: Plan)
    requires VouchersConsistent(s)
    requires PlanCheckout(s, user, req) == Ok(p) && req.voucherCode != ""
    ensures var v := FindVoucher(s.vouchers, req.voucherCode).value;
      var uv := p.claim.value;
      && uv in s.userVouchers.rows && uv.userId == user && uv.voucherId == v.id && !uv.used
      && MarksClaim(p)
      && Where(s.userVouchers.rows, UnusedBy(user, v.id)) == [uv]
      && Where(s.userVouchers.rows, UserVoucherWithId(uv.id)) == [uv]
  {
    PlanFacts(s, user, req, p);
    var v := FindVoucher(s.vouchers, req.voucherCode).value;
    var rows := s.userVouchers.rows;
    var uv := p.claim.value;
    assert uv in Where(rows, UnusedBy(user, v.id));
    assert UnusedCount(rows, user, v.id) <= 1;
    OnlyMatch(rows, UnusedBy(user, v.id), uv);
    OnlyMatch(rows, UserVoucherWithId(uv.id), uv);
  }

  lemma CheckoutKeepsConsistent(s: State, user: int, req: CheckoutRequest, failing: set<Write>)
    requires Consistent(s)
    ensures Consistent(CheckoutOutcome(s, user, req, failing).after)
  {
    match PlanCheckout(s, user, req)
    case Err(_) =>
    case Ok(p) =>
      if CheckoutWritesSucceed(p, failing) {
        PlanFacts(s, user, req, p);
        CheckoutKeepsCarts(s, user, req, p);
        CheckoutKeepsCartItems(s, user, req, p);
        CheckoutKeepsClaims(s, user, req, p);
        CheckoutKeepsOrders(s, user, req, p);
      }
  }

  /** Deleting the user's one active cart and adding a fresh one leaves every
      user at most one active cart. */
  lemma CheckoutKeepsCarts(s: State, user: int, req: CheckoutRequest, p: Plan)
    requires CartsConsistent(s) && ActiveCartFor(s.carts.rows, user) == Some(p.cart)
    ensures CartsConsistent(Checkout(s, user, req, p))
  {
    var rows := s.carts.rows;
    var kept := Where(rows, OtherCart(p.cart.id));
    var newCart := FreshCart(s, user);
    assert Checkout(s, user, req, p).carts == Table(kept + [newCart], s.carts.nextId + 1);
    assert p.cart in Where(rows, ActiveCartOf(user));
    OnlyMatch(rows, ActiveCartOf(user), p.cart);
    forall u ensures |Where(kept + [newCart], ActiveCartOf(u))| <= 1 {
      WhereAppend(kept, newCart, ActiveCartOf(u));
      if u == user {
        WhereNone(kept, ActiveCartOf(user));
      } else {
        WhereOfWhere(rows, OtherCart(p.cart.id), ActiveCartOf(u));
      }
    }
  }

  /** Deleting the old cart's lines keeps the line invariants. */
  lemma CheckoutKeepsCartItems(s: State, user: int, req: CheckoutRequest, p: Plan)
    requires Consistent(s)
    ensures CartItemsConsistent(Checkout(s, user, req, p))
  {
    DeleteLinesKeepsConsistent(s, LineOutsideCart(p.cart.id));
    assert Checkout(s, user, req, p).cartItems == DeleteLines(s, LineOutsideCart(p.cart.id)).cartItems;
  }

  /** Marking one claim row used moves no count but the unused ones, and
      those only down. */
  lemma CheckoutKeepsClaims(s: State, user: int, req: CheckoutRequest, p: Plan)
    requires VouchersConsistent(s)
    ensures VouchersConsistent(Checkout(s, user, req, p))
  {
    if MarksClaim(p) {
      var rows := s.userVouchers.rows;
      var id := p.claim.value.id;
      var rows' := Update(rows, UserVoucherWithId(id), MarkedUsed);
      assert Checkout(s, user, req, p).userVouchers == Table(rows', s.userVouchers.nextId);
      forall x | x in rows' ensures 0 < x.id < s.userVouchers.nextId {
        UpdateMembers(rows, UserVoucherWithId(id), MarkedUsed, x);
      }
      forall i ensures |Where(rows', UserVoucherWithId(i))| <= 1 {
        WhereOfUpdate(rows, UserVoucherWithId(id), MarkedUsed, UserVoucherWithId(i));
      }
      forall u, w ensures UnusedCount(rows', u, w) <= 1 {
        assert UnusedCount(rows, u, w) <= 1;
        WhereOfUpdateShrinks(rows, UserVoucherWithId(id), MarkedUsed, UnusedBy(u, w));
      }
      forall w, u | w in s.vouchers ensures WithinLimit(HeldCount(rows', u, w.id), w.usageLimitPerUser) {
        assert WithinLimit(HeldCount(rows, u, w.id), w.usageLimitPerUser);
        WhereOfUpdate(rows, UserVoucherWithId(id), MarkedUsed, HeldBy(u, w.id));
      }
      forall w | w in s.vouchers ensures WithinLimit(IssuedCount(rows', w.id), w.usageLimitGlobal) {
        assert WithinLimit(IssuedCount(rows, w.id), w.usageLimitGlobal);
        WhereOfUpdate(rows, UserVoucherWithId(id), MarkedUsed, IssuedOf(w.id));
      }
    }
  }

  /** The order, its lines and its payment get fresh ids and refer to the new
      order. */
  lemma CheckoutKeepsOrders(s: State, user: int, req: CheckoutRequest, p: Plan)
    requires OrdersConsistent(s)
    ensures OrdersConsistent(Checkout(s, user, req, p))
  {
    var s' := Checkout(s, user, req, p);
    var order := PlacedOrder(s, user, req, p);
    assert s'.orders.rows == s.orders.rows + [order];
    forall id ensures |Where(s'.orders.rows, OrderWithId(id))| <= 1 {
      WhereAppend(s.orders.rows, order, OrderWithId(id));
      if id == order.id {
        WhereNone(s.orders.rows, OrderWithId(id));
      }
    }
    CheckoutKeepsOrderItems(s, user, req, p);
  }

  lemma CheckoutKeepsOrderItems(s: State, user: int, req: CheckoutRequest, p: Plan)
    requires OrdersConsistent(s)
    ensures var s' := Checkout(s, user, req, p);
      forall x :: x in s'.orderItems.rows ==> 0 < x.id < s'.orderItems.nextId && x.orderId < s'.orders.nextId
  {
    var s' := Checkout(s, user, req, p);
    var items := OrderLines(s.products, p.lines, s.orders.nextId, s.orderItems.nextId);
    assert s'.orderItems == Table(s.orderItems.rows + items, s.orderItems.nextId + |items|);
    forall x | x in s.orderItems.rows + items ensures 0 < x.id < s.orderItems.nextId + |items| && x.orderId < s.orders.nextId + 1 {
      if x !in s.orderItems.rows {
        var i :| 0 <= i < |items| && items[i] == x;
      }
    }
  }

  /** A successful checkout ran its plan with every write succeeding. */
  lemma CheckoutSucceeded(s: State, user: int, req: CheckoutRequest, failing: set<Write>)
    requires CheckoutOutcome(s, user, req, failing).result.Ok?
    ensures PlanCheckout(s, user, req).Ok?
    ensures var p := PlanCheckout(s, user, req).value;
      && CheckoutWritesSucceed(p, failing)
      && CheckoutOutcome(s, user, req, failing) == Outcome(Ok(PlacedOrder(s, user, req, p)), Checkout(s, user, req, p))
  {
  }

  /** The form, the user, the payment method and the cart are checked in
      this order, and every refusal, these and the later ones alike, writes
      nothing. */
  lemma CheckoutRefusals(s: State, user: int, req: CheckoutRequest, failing: set<Write>)
    ensures var o := CheckoutOutcome(s, user, req, failing);
      && (o.result.Err? ==> o.after == s)
      && (o.result == Err(ValidationFailed) <==> !FormComplete(req))
      && (o.result == Err(Unauthorized) <==> FormComplete(req) && user == 0)
      && (o.result == Err(UnsupportedPaymentMethod) <==> FormComplete(req) && user != 0 && req.paymentMethod != CashOnDelivery)
      && (o.result == Err(CartNotFound) <==> Admitted(user, req) && ActiveCartFor(s.carts.rows, user) == None)
      && (o.result == Err(EmptyCart) <==>
            Admitted(user, req) && ActiveCartFor(s.carts.rows, user).Some?
            && LinesOfCart(s.cartItems.rows, ActiveCartFor(s.carts.rows, user).value.id) == [])
  {
  }

  /** The form is complete, the user known and the method cash on delivery. */
  predicate Admitted(user: int, req: CheckoutRequest) {
    FormComplete(req) && user != 0 && req.paymentMethod == CashOnDelivery
  }

  /** Checkout has reached the voucher: the user's active cart has lines. */
  predicate CartReady(s: State, user: int, req: CheckoutRequest) {
    && Admitted(user, req)
    && ActiveCartFor(s.carts.rows, user).Some?
    && LinesOfCart(s.cartItems.rows, ActiveCartFor(s.carts.rows, user).value.id) != []
  }

  /** With a code, checkout is refused when no voucher has it, when the user
      holds no unused claim of it, and when the cart's total is below its
      minimum order; neither its dates nor its usage limits are looked at
      again. */
  lemma CheckoutVoucherRefusals(s: State, user: int, req: CheckoutRequest, failing: set<Write>)
    ensures var o := CheckoutOutcome(s, user, req, failing);
      var v := FindVoucher(s.vouchers, req.voucherCode);
      && (o.result == Err(VoucherNotFound) <==> CartReady(s, user, req) && req.voucherCode != "" && v.None?)
      && (o.result == Err(VoucherNotHeld) <==>
            CartReady(s, user, req) && req.voucherCode != "" && v.Some?
            && UnusedCount(s.userVouchers.rows, user, v.value.id) == 0)
      && (o.result == Err(MinOrderNotMet) <==>
            CartReady(s, user, req) && req.voucherCode != "" && v.Some?
            && UnusedCount(s.userVouchers.rows, user, v.value.id) > 0
            && CartOf(s, user).Ok? && CartOf(s, user).value.total < v.value.minOrder)
  {
  }

  /** The order is priced off the cart `GetCartByUserID` shows: the discount
      is 0 without a code and the voucher's discount on the cart total with
      one (the minimum met); the charged total is that total less the
      discount, floored at 0, and the stored discount is not clamped. The
      order and its payment are added pending, both carrying the charged
      total, and no other order or payment changes. */
  lemma CheckoutPricesTheCart(s: State, user: int, req: CheckoutRequest, failing: set<Write>)
    requires CheckoutOutcome(s, user, req, failing).result.Ok?
    ensures CartOf(s, user).Ok?
    ensures req.voucherCode != "" ==> FindVoucher(s.vouchers, req.voucherCode).Some?
    ensures var o := CheckoutOutcome(s, user, req, failing);
      var order := o.result.value;
      var subtotal := CartOf(s, user).value.total;
      && order.discount == (if req.voucherCode == "" then 0.0 else ComputeDiscount(subtotal, FindVoucher(s.vouchers, req.voucherCode).value))
      && (req.voucherCode != "" ==> subtotal >= FindVoucher(s.vouchers, req.voucherCode).value.minOrder)
      && order.total == FinalTotal(subtotal, order.discount)
      && order == Order(s.orders.nextId, user, req.fullName, req.phone, req.address, order.total, req.note, order.discount, CashOnDelivery, Pending)
      && o.after.orders.rows == s.orders.rows + [order]
      && o.after.payments.rows == s.payments.rows + [Payment(s.payments.nextId, order.id, CashOnDelivery, order.total, Pending)]
  {
    CheckoutSucceeded(s, user, req, failing);
    PlanFacts(s, user, req, PlanCheckout(s, user, req).value);
  }

  /** Checkout copies every cart line, in order, to an order line of the new
      order with the same product and quantity and the product's price at
      that moment, and keeps every earlier order line. */
  lemma CheckoutCopiesCart(s: State, user: int, req: CheckoutRequest, failing: set<Write>)
    requires Consistent(s)
    requires CheckoutOutcome(s, user, req, failing).result.Ok?
    ensures CartOf(s, user).Ok?
    ensures var o := CheckoutOutcome(s, user, req, failing);
      var lines := CartOf(s, user).value.items;
      var items := Where(o.after.orderItems.rows, ItemOfOrder(o.result.value.id));
      && o.after.orderItems.rows == s.orderItems.rows + items
      && |items| == |lines|
      && forall i :: 0 <= i < |lines| ==>
           && items[i].productId == lines[i].productId
           && items[i].quantity == lines[i].quantity
           && items[i].unitPrice == PriceOf(s.products, lines[i].productId)
  {
    CheckoutSucceeded(s, user, req, failing);
    var p := PlanCheckout(s, user, req).value;
    PlanFacts(s, user, req, p);
    var items := OrderLines(s.products, p.lines, s.orders.nextId, s.orderItems.nextId);
    assert CheckoutOutcome(s, user, req, failing).after.orderItems.rows == s.orderItems.rows + items;
    CopiedLinesSelected(s.products, s.orderItems.rows, p.lines, s.orders.nextId, s.orderItems.nextId);
  }

  /** Each copied line has its cart line's product and quantity and the
      product's current price. */
  lemma OrderLinesCopy(products: seq<Product>, lines: seq<CartItem>, orderId: int, firstId: int)
    ensures var items := OrderLines(products, lines, orderId, firstId);
      forall i :: 0 <= i < |lines| ==>
        && items[i].productId == lines[i].productId
        && items[i].quantity == lines[i].quantity
        && items[i].unitPrice == PriceOf(products, lines[i].productId)
  {
  }

  /** The lines of a new order, appended after rows of older orders, are
      what the selection by the new order's id picks out. */
  lemma CopiedLinesSelected(products: seq<Product>, rows: seq<OrderItem>, lines: seq<CartItem>, orderId: int, firstId: int)
    requires forall x :: x in rows ==> x.orderId < orderId
    ensures var items := OrderLines(products, lines, orderId, firstId);
      && Where(rows + items, ItemOfOrder(orderId)) == items
      && forall i :: 0 <= i < |lines| ==>
           && items[i].productId == lines[i].productId
           && items[i].quantity == lines[i].quantity
           && items[i].unitPrice == PriceOf(products, lines[i].productId)
  {
    var items := OrderLines(products, lines, orderId, firstId);
    var p := ItemOfOrder(orderId);
    forall x | x in items ensures p(x) {
      var i :| 0 <= i < |items| && items[i] == x;
    }
    WhereAll(items, p);
    forall x | x in rows ensures !p(x) {
    }
    WhereNone(rows, p);
    WhereConcat(rows, items, p);
    OrderLinesCopy(products, lines, orderId, firstId);
  }

  /** Without a code no claim row changes. With one, the user's one unused
      claim of the voucher becomes used: that row alone is rewritten, only
      in its `used` field. No user's number of claims of any voucher moves,
      and no other unused count does. Products, vouchers and the claim and
      cart-line id counters are left as they were. */
  lemma CheckoutConsumesVoucher(s: State, user: int, req: CheckoutRequest, failing: set<Write>)
    requires Consistent(s)
    requires CheckoutOutcome(s, user, req, failing).result.Ok?
    ensures req.voucherCode != "" ==> FindVoucher(s.vouchers, req.voucherCode).Some?
    ensures var after := CheckoutOutcome(s, user, req, failing).after;
      && after.products == s.products
      && after.vouchers == s.vouchers
      && after.userVouchers.nextId == s.userVouchers.nextId
      && after.cartItems.nextId == s.cartItems.nextId
    ensures req.voucherCode != "" ==>
      var claim := PlanCheckout(s, user, req).value.claim;
      && claim.Some?
      && CheckoutOutcome(s, user, req, failing).after.userVouchers.rows
           == Update(s.userVouchers.rows, UserVoucherWithId(claim.value.id), MarkedUsed)
    ensures var rows := s.userVouchers.rows;
      var rows' := CheckoutOutcome(s, user, req, failing).after.userVouchers.rows;
      && (req.voucherCode == "" ==> rows' == rows)
      && (forall u, w :: HeldCount(rows', u, w) == HeldCount(rows, u, w))
      && (req.voucherCode != "" ==>
            var v := FindVoucher(s.vouchers, req.voucherCode).value;
            && UnusedCount(rows, user, v.id) == 1
            && UnusedCount(rows', user, v.id) == 0
            && forall u, w :: u != user || w != v.id ==> UnusedCount(rows', u, w) == UnusedCount(rows, u, w))
  {
    CheckoutSucceeded(s, user, req, failing);
    var p := PlanCheckout(s, user, req).value;
    PlanFacts(s, user, req, p);
    if req.voucherCode != "" {
      PlanClaimFacts(s, user, req, p);
      ClaimMarkedUsed(s.userVouchers.rows, p.claim.value);
    }
  }

  /** Marking the one row with a claim's id used, when that row is the
      user's only unused claim of the voucher. */
  lemma ClaimMarkedUsed(rows: seq<UserVoucher>, uv: UserVoucher)
    requires Where(rows, UnusedBy(uv.userId, uv.voucherId)) == [uv]
    requires Where(rows, UserVoucherWithId(uv.id)) == [uv]
    ensures var rows' := Update(rows, UserVoucherWithId(uv.id), MarkedUsed);
      && (forall u, w :: HeldCount(rows', u, w) == HeldCount(rows, u, w))
      && UnusedCount(rows, uv.userId, uv.voucherId) == 1
      && UnusedCount(rows', uv.userId, uv.voucherId) == 0
      && forall u, w :: u != uv.userId || w != uv.voucherId ==> UnusedCount(rows', u, w) == UnusedCount(rows, u, w)
  {
    var p := UserVoucherWithId(uv.id);
    var rows' := Update(rows, p, MarkedUsed);
    forall u, w ensures HeldCount(rows', u, w) == HeldCount(rows, u, w) {
      WhereOfUpdate(rows, p, MarkedUsed, HeldBy(u, w));
    }
    forall x | x in rows' ensures !UnusedBy(uv.userId, uv.voucherId)(x) {
      UpdateMembers(rows, p, MarkedUsed, x);
    }
    WhereNone(rows', UnusedBy(uv.userId, uv.voucherId));
    forall u, w | u != uv.userId || w != uv.voucherId
      ensures UnusedCount(rows', u, w) == UnusedCount(rows, u, w)
    {
      forall x | x in rows && p(x) ensures UnusedBy(u, w)(MarkedUsed(x)) == UnusedBy(u, w)(x) {
        assert x in Where(rows, p);
      }
      CountOfUpdate(rows, p, MarkedUsed, UnusedBy(u, w));
    }
  }

  /** Checkout deletes the cart it emptied and its lines, keeps every other
      cart and line, and leaves the user exactly one active cart, new and
      empty, which `GetCartByUserID` then shows with total 0. */
  lemma CheckoutRotatesCart(s: State, user: int, req: CheckoutRequest, failing: set<Write>)
    requires Consistent(s)
    requires CheckoutOutcome(s, user, req, failing).result.Ok?
    ensures CartOf(s, user).Ok? && CartOf(s, user).value.cart.Some?
    ensures var after := CheckoutOutcome(s, user, req, failing).after;
      var c := CartOf(s, user).value.cart.value;
      var newCart := Cart(s.carts.nextId, user, Active);
      && after.carts.rows == Where(s.carts.rows, OtherCart(c.id)) + [newCart]
      && c !in after.carts.rows
      && after.cartItems.rows == Where(s.cartItems.rows, LineOutsideCart(c.id))
      && LinesOfCart(after.cartItems.rows, c.id) == []
      && Where(after.carts.rows, ActiveCartOf(user)) == [newCart]
      && CartOf(after, user) == Ok(CartView(Some(newCart), [], 0.0))
  {
    CheckoutSucceeded(s, user, req, failing);
    var p := PlanCheckout(s, user, req).value;
    PlanFacts(s, user, req, p);
    var after := Checkout(s, user, req, p);
    CheckoutKeepsCarts(s, user, req, p);
    CheckoutKeepsCartItems(s, user, req, p);
    var newCart := FreshCart(s, user);
    assert p.cart in s.carts.rows;
    WhereNone(after.cartItems.rows, LineInCart(p.cart.id));
    WhereNone(after.cartItems.rows, LineInCart(newCart.id));
    assert newCart in Where(after.carts.rows, ActiveCartOf(user));
    OnlyMatch(after.carts.rows, ActiveCartOf(user), newCart);
  }

  // GetOrderById

  /** An order as its owner sees it: the order row, its lines, and the first
      payment row of the order (none read when there is none). */
  datatype OrderDetail = OrderDetail(order: Order, items: seq<OrderItem>, payment: Option<Payment>)

  /** `GetOrderById`: only an order of the caller's own is found. `orderId`
      is None when the path's id does not parse. */
  function OrderDetailOf(s: State, user: int, orderId: Option<int>): Result<OrderDetail> {
    if user == 0 then Err(Unauthorized)
    else if orderId.None? then Err(ValidationFailed)
    else match First(Where(s.orders.rows, OwnedOrder(orderId.value, user)))
      case None => Err(OrderNotFound)
      case Some(o) =>
        Ok(OrderDetail(o, Where(s.orderItems.rows, ItemOfOrder(orderId.value)), First(Where(s.payments.rows, PaymentOfOrder(orderId.value)))))
  }

  /** The detail shown is of an order with the requested id that the caller
      owns, with exactly that order's lines and one of its payments; the
      order is not found exactly when the caller owns no order with that
      id. */
  lemma OrderDetailShowsOnlyOwnOrders(s: State, user: int, orderId: Option<int>)
    ensures var r := OrderDetailOf(s, user, orderId);
      && (r.Ok? ==>
            && orderId.Some? && r.value.order in s.orders.rows
            && r.value.order.id == orderId.value && r.value.order.userId == user
            && (forall i :: i in r.value.items <==> i in s.orderItems.rows && i.orderId == orderId.value)
            && (r.value.payment.Some? ==> r.value.payment.value in s.payments.rows && r.value.payment.value.orderId == orderId.value))
      && (user != 0 && orderId.Some? ==>
            (r == Err(OrderNotFound) <==> forall o :: o in s.orders.rows && o.id == orderId.value ==> o.userId != user))
  {
    if user != 0 && orderId.Some? {
      var w := Where(s.orders.rows, OwnedOrder(orderId.value, user));
      if w != [] {
        assert w[0] in w;
      }
    }
  }

  /** After checkout the owner finds the new order with exactly its copied
      lines and its pending payment. */
  lemma PlacedOrderVisibleToOwner(s: State, user: int, req: CheckoutRequest, failing: set<Write>)
    requires Consistent(s)
    requires CheckoutOutcome(s, user, req, failing).result.Ok?
    ensures var o := CheckoutOutcome(s, user, req, failing);
      var order := o.result.value;
      OrderDetailOf(o.after, user, Some(order.id))
        == Ok(OrderDetail(order, Where(o.after.orderItems.rows, ItemOfOrder(order.id)),
                          Some(Payment(s.payments.nextId, order.id, CashOnDelivery, order.total, Pending))))
  {
    CheckoutSucceeded(s, user, req, failing);
    var p := PlanCheckout(s, user, req).value;
    PlanFacts(s, user, req, p);
    var order := PlacedOrder(s, user, req, p);
    var payment := PlacedPayment(s, req, p);
    WhereAppend(s.orders.rows, order, OwnedOrder(order.id, user));
    WhereNone(s.orders.rows, OwnedOrder(order.id, user));
    WhereAppend(s.payments.rows, payment, PaymentOfOrder(order.id));
    WhereNone(s.payments.rows, PaymentOfOrder(order.id));
  }

  /** `GetOrderById`. */
  method GetOrderById(db: Database, user: int, orderId: Option<int>) returns (r: Result<OrderDetail>)
    ensures r == OrderDetailOf(db.Snapshot(), user, orderId)
  {
    if user == 0 {
      return Err(Unauthorized);
    }
    if orderId.None? {
      return Err(ValidationFailed);
    }
    var id := orderId.value;
    var found := First(Where(db.orders.rows, OwnedOrder(id, user)));
    if found.None? {
      return Err(OrderNotFound);
    }
    var items := Where(db.orderItems.rows, ItemOfOrder(id));
    var payment := First(Where(db.payments.rows, PaymentOfOrder(id)));
    r := Ok(OrderDetail(found.value, items, payment));
  }

  // Status updates shared by CancelOrder and UpdateOrderStatus

  /** `UPDATE orders SET status = ? WHERE id = ?`. */
  function SetOrderStatus(s: State, id: int, status: string): State {
    s.(orders := s.orders.(rows := Update(s.orders.rows, OrderWithId(id), WithOrderStatus(status))))
  }

  /** `UPDATE payments SET status = ? WHERE order_id = ?`. */
  function SetPaymentStatus(s: State, orderId: int, status: string): State {
    s.(payments := s.payments.(rows := Update(s.payments.rows, PaymentOfOrder(orderId), WithPaymentStatus(status))))
  }

  /** Setting the status of a stored order changes that one row's status
      and nothing else, and keeps the order ids consistent. */
  lemma OrderStatusSet(s: State, order: Order, status: string)
    requires OrdersConsistent(s) && order in s.orders.rows
    ensures var after := SetOrderStatus(s, order.id, status);
      && Where(after.orders.rows, OrderWithId(order.id)) == [order.(status := status)]
      && Where(after.orders.rows, OtherOrder(order.id)) == Where(s.orders.rows, OtherOrder(order.id))
      && OrdersConsistent(after)
  {
    var rows, p, f := s.orders.rows, OrderWithId(order.id), WithOrderStatus(status);
    var rows' := Update(rows, p, f);
    assert |Where(rows, p)| <= 1;
    OnlyMatch(rows, p, order);
    WhereOfUpdate(rows, p, f, p);
    assert Update([order], p, f) == [order.(status := status)];
    UpdateLeavesOthers(rows, OtherOrder(order.id), f, p);
    assert Where(rows', OtherOrder(order.id)) == Where(rows, OtherOrder(order.id)) by {
      UpdateLeavesOthers(rows, p, f, OtherOrder(order.id));
    }
    forall x | x in rows' ensures 0 < x.id < s.orders.nextId {
      UpdateMembers(rows, p, f, x);
    }
    forall k ensures |Where(rows', OrderWithId(k))| <= 1 {
      assert |Where(rows, OrderWithId(k))| <= 1;
      WhereOfUpdate(rows, p, f, OrderWithId(k));
    }
  }

  /** Setting the status of an order's payments changes the status of each
      of them, and no other field and no other payment, and keeps the ids consistent. */
  lemma PaymentStatusSet(s: State, orderId: int, status: string)
    requires OrdersConsistent(s)
    ensures var after := SetPaymentStatus(s, orderId, status);
      && |Where(after.payments.rows, PaymentOfOrder(orderId))| == |Where(s.payments.rows, PaymentOfOrder(orderId))|
      && (forall x :: x in Where(after.payments.rows, PaymentOfOrder(orderId)) ==> x.status == status)
      && Where(after.payments.rows, PaymentOfOrder(orderId))
           == Update(Where(s.payments.rows, PaymentOfOrder(orderId)), PaymentOfOrder(orderId), WithPaymentStatus(status))
      && Where(after.payments.rows, PaymentOfOtherOrder(orderId)) == Where(s.payments.rows, PaymentOfOtherOrder(orderId))
      && OrdersConsistent(after)
  {
    var rows, p, f := s.payments.rows, PaymentOfOrder(orderId), WithPaymentStatus(status);
    var rows' := Update(rows, p, f);
    WhereOfUpdate(rows, p, f, p);
    forall x | x in Update(Where(rows, p), p, f) ensures x.status == status {
      UpdateMembers(Where(rows, p), p, f, x);
    }
    UpdateLeavesOthers(rows, p, f, PaymentOfOtherOrder(orderId));
    forall x | x in rows' ensures 0 < x.id < s.payments.nextId && x.orderId < s.orders.nextId {
      UpdateMembers(rows, p, f, x);
    }
  }

  // CancelOrder

  /** The caller's order, and every payment of it, marked cancelled. */
  function CancelledOrder(s: State, id: int): State {
    SetPaymentStatus(SetOrderStatus(s, id, Cancelled), id, Cancelled)
  }

  /** `CancelOrder`: a user cancels an order of their own that is still
      pending; its payments are cancelled with it. `orderId` is None when
      the path's id does not parse. */
  function CancelOutcome(s: State, user: int, orderId: Option<int>, failing: set<Write>): Outcome<()> {
    if user == 0 then Outcome(Err(Unauthorized), s)
    else if orderId.None? then Outcome(Err(ValidationFailed), s)
    else match First(Where(s.orders.rows, OwnedOrder(orderId.value, user)))
      case None => Outcome(Err(OrderNotFound), s)
      case Some(o) =>
        if o.status != Pending then Outcome(Err(OrderNotPending), s)
        else if BeginTx in failing || UpdateOrderRow in failing || UpdatePaymentRows in failing || CommitTx in failing
        then Outcome(Err(StorageFailure), s)
        else Outcome(Ok(()), CancelledOrder(s, orderId.value))
  }

  /** The checks come in this order, an order is found only among the
      caller's own (as `GetOrderById` finds it), only a pending one can be
      cancelled, and a refusal writes nothing. */
  lemma CancelRefusals(s: State, user: int, orderId: Option<int>, failing: set<Write>)
    ensures var o := CancelOutcome(s, user, orderId, failing);
      var d := OrderDetailOf(s, user, orderId);
      && (o.result.Err? ==> o.after == s)
      && (o.result == Err(Unauthorized) <==> user == 0)
      && (o.result == Err(ValidationFailed) <==> user != 0 && orderId.None?)
      && (o.result == Err(OrderNotFound) <==> user != 0 && orderId.Some? && d == Err(OrderNotFound))
      && (o.result == Err(OrderNotPending) <==> d.Ok? && d.value.order.status != Pending)
      && (o.result.Ok? ==> d.Ok? && d.value.order.status == Pending)
  {
  }

  /** A cancellation turns exactly the caller's pending order into a
      cancelled one and every payment of that order, and no other,
      cancelled; nothing else in the store changes. */
  lemma CancelSetsBothStatuses(s: State, user: int, orderId: Option<int>, failing: set<Write>)
    requires OrdersConsistent(s)
    requires CancelOutcome(s, user, orderId, failing).result.Ok?
    ensures orderId.Some? && OrderDetailOf(s, user, orderId).Ok?
    ensures var order := OrderDetailOf(s, user, orderId).value.order;
      var after := CancelOutcome(s, user, orderId, failing).after;
      var id := orderId.value;
      && order.status == Pending && order.id == id && order.userId == user
      && Where(after.orders.rows, OrderWithId(id)) == [order.(status := Cancelled)]
      && Where(after.orders.rows, OtherOrder(id)) == Where(s.orders.rows, OtherOrder(id))
      && |Where(after.payments.rows, PaymentOfOrder(id))| == |Where(s.payments.rows, PaymentOfOrder(id))|
      && (forall x :: x in Where(after.payments.rows, PaymentOfOrder(id)) ==> x.status == Cancelled)
      && Where(after.payments.rows, PaymentOfOrder(id))
           == Update(Where(s.payments.rows, PaymentOfOrder(id)), PaymentOfOrder(id), WithPaymentStatus(Cancelled))
      && Where(after.payments.rows, PaymentOfOtherOrder(id)) == Where(s.payments.rows, PaymentOfOtherOrder(id))
      && after == s.(orders := after.orders, payments := after.payments)
      && after.orders.nextId == s.orders.nextId && after.payments.nextId == s.payments.nextId
  {
    var id := orderId.value;
    var order := First(Where(s.orders.rows, OwnedOrder(id, user))).value;
    assert CancelOutcome(s, user, orderId, failing).after == CancelledOrder(s, id);
    OrderStatusSet(s, order, Cancelled);
    PaymentStatusSet(SetOrderStatus(s, id, Cancelled), id, Cancelled);
  }

  /** A cancelled order cannot be cancelled again. */
  lemma CancelTwiceFails(s: State, user: int, orderId: Option<int>, failing: set<Write>, failing': set<Write>)
    requires OrdersConsistent(s)
    requires CancelOutcome(s, user, orderId, failing).result.Ok?
    ensures var after := CancelOutcome(s, user, orderId, failing).after;
      CancelOutcome(after, user, orderId, failing').result == Err(OrderNotPending)
  {
    CancelSetsBothStatuses(s, user, orderId, failing);
    var id := orderId.value;
    var order := OrderDetailOf(s, user, orderId).value.order;
    var after := CancelOutcome(s, user, orderId, failing).after;
    var cancelled := order.(status := Cancelled);
    assert cancelled in Where(after.orders.rows, OrderWithId(id));
    assert cancelled in Where(after.orders.rows, OwnedOrder(id, user));
    forall x | x in Where(after.orders.rows, OwnedOrder(id, user)) ensures x == cancelled {
      assert x in Where(after.orders.rows, OrderWithId(id));
    }
  }

  /** A cancellation keeps the store consistent. */
  lemma CancelKeepsConsistent(s: State, user: int, orderId: Option<int>, failing: set<Write>)
    requires Consistent(s)
    ensures Consistent(CancelOutcome(s, user, orderId, failing).after)
  {
    if CancelOutcome(s, user, orderId, failing).result.Ok? {
      var id := orderId.value;
      var order := First(Where(s.orders.rows, OwnedOrder(id, user))).value;
      OrderStatusSet(s, order, Cancelled);
      PaymentStatusSet(SetOrderStatus(s, id, Cancelled), id, Cancelled);
    }
  }

  /** `CancelOrder`. */
  method CancelOrder(db: Database, user: int, orderId: Option<int>, failing: set<Write>) returns (r: Result<()>)
    requires db.Valid()
    modifies db
    ensures db.Valid()
    ensures Outcome(r, db.Snapshot()) == CancelOutcome(old(db.Snapshot()), user, orderId, failing)
  {
    CancelKeepsConsistent(db.Snapshot(), user, orderId, failing);
    if user == 0 {
      return Err(Unauthorized);
    }
    if orderId.None? {
      return Err(ValidationFailed);
    }
    var id := orderId.value;
    var found := First(Where(db.orders.rows, OwnedOrder(id, user)));
    if found.None? {
      return Err(OrderNotFound);
    }
    if found.value.status != Pending {
      return Err(OrderNotPending);
    }
    if BeginTx in failing || UpdateOrderRow in failing || UpdatePaymentRows in failing || CommitTx in failing {
      return Err(StorageFailure);
    }
    db.orders := db.orders.(rows := Update(db.orders.rows, OrderWithId(id), WithOrderStatus(Cancelled)));
    db.payments := db.payments.(rows := Update(db.payments.rows, PaymentOfOrder(id), WithPaymentStatus(Cancelled)));
    r := Ok(());
  }

  // UpdateOrderStatus

  /** The order's new status, and its payments paid when it is completed. */
  function StatusSet(s: State, id: int, status: string): State {
    var s' := SetOrderStatus(s, id, status);
    if status == Completed then SetPaymentStatus(s', id, Paid) else s'
  }

  /** `UpdateOrderStatus` (an administrator's operation): any order can be
      moved to any of the six statuses, whatever its current one. The result
      is the order's id. `orderId` is None when the path's id does not
      parse. */
  function StatusOutcome(s: State, status: string, orderId: Option<int>, failing: set<Write>): Outcome<int> {
    if status == "" || orderId.None? then Outcome(Err(ValidationFailed), s)
    else if !IsOrderStatus(status) then Outcome(Err(InvalidStatus), s)
    else if First(Where(s.orders.rows, OrderWithId(orderId.value))).None? then Outcome(Err(OrderNotFound), s)
    else if BeginTx in failing || UpdateOrderRow in failing || (status == Completed && UpdatePaymentRows in failing) || CommitTx in failing
    then Outcome(Err(StorageFailure), s)
    else Outcome(Ok(orderId.value), StatusSet(s, orderId.value, status))
  }

  /** The checks come in this order and a refusal writes nothing. */
  lemma StatusRefusals(s: State, status: string, orderId: Option<int>, failing: set<Write>)
    ensures var o := StatusOutcome(s, status, orderId, failing);
      && (o.result.Err? ==> o.after == s)
      && (o.result == Err(ValidationFailed) <==> status == "" || orderId.None?)
      && (o.result == Err(InvalidStatus) <==> status != "" && orderId.Some? && !IsOrderStatus(status))
      && (o.result == Err(OrderNotFound) <==>
            orderId.Some? && IsOrderStatus(status) && forall x :: x in s.orders.rows ==> x.id != orderId.value)
      && (o.result.Ok? ==> o.result.value == orderId.value)
  {
    if orderId.Some? && First(Where(s.orders.rows, OrderWithId(orderId.value))).Some? {
      var x := First(Where(s.orders.rows, OrderWithId(orderId.value))).value;
      assert x in s.orders.rows;
    }
  }

  /** No transition is refused: a stored order in any status, cancelled and
      completed ones included, takes any valid status when the writes go
      through. */
  lemma StatusUpdateAllowsAnyTransition(s: State, order: Order, status: string, failing: set<Write>)
    requires order in s.orders.rows && IsOrderStatus(status)
    requires BeginTx !in failing && UpdateOrderRow !in failing && UpdatePaymentRows !in failing && CommitTx !in failing
    ensures StatusOutcome(s, status, Some(order.id), failing).result == Ok(order.id)
  {
    assert order in Where(s.orders.rows, OrderWithId(order.id));
  }

  /** An update gives the order the new status and changes no other order;
      the order's payments, and no others, become paid exactly when the new
      status is completed; nothing else in the store changes. */
  lemma StatusUpdatePaysExactlyOnCompletion(s: State, status: string, orderId: Option<int>, failing: set<Write>)
    requires OrdersConsistent(s)
    requires StatusOutcome(s, status, orderId, failing).result.Ok?
    ensures orderId.Some? && First(Where(s.orders.rows, OrderWithId(orderId.value))).Some?
    ensures var id := orderId.value;
      var order := First(Where(s.orders.rows, OrderWithId(id))).value;
      var after := StatusOutcome(s, status, orderId, failing).after;
      && IsOrderStatus(status)
      && Where(after.orders.rows, OrderWithId(id)) == [order.(status := status)]
      && Where(after.orders.rows, OtherOrder(id)) == Where(s.orders.rows, OtherOrder(id))
      && (status != Completed ==> after.payments == s.payments)
      && (status == Completed ==>
            && |Where(after.payments.rows, PaymentOfOrder(id))| == |Where(s.payments.rows, PaymentOfOrder(id))|
            && (forall x :: x in Where(after.payments.rows, PaymentOfOrder(id)) ==> x.status == Paid)
            && Where(after.payments.rows, PaymentOfOrder(id))
                 == Update(Where(s.payments.rows, PaymentOfOrder(id)), PaymentOfOrder(id), WithPaymentStatus(Paid))
            && Where(after.payments.rows, PaymentOfOtherOrder(id)) == Where(s.payments.rows, PaymentOfOtherOrder(id)))
      && after == s.(orders := after.orders, payments := after.payments)
      && after.orders.nextId == s.orders.nextId && after.payments.nextId == s.payments.nextId
  {
    var id := orderId.value;
    var order := First(Where(s.orders.rows, OrderWithId(id))).value;
    assert StatusOutcome(s, status, orderId, failing).after == StatusSet(s, id, status);
    OrderStatusSet(s, order, status);
    PaymentStatusSet(SetOrderStatus(s, id, status), id, Paid);
  }

  /** A status update keeps the store consistent. */
  lemma StatusKeepsConsistent(s: State, status: string, orderId: Option<int>, failing: set<Write>)
    requires Consistent(s)
    ensures Consistent(StatusOutcome(s, status, orderId, failing).after)
  {
    if StatusOutcome(s, status, orderId, failing).result.Ok? {
      var order := First(Where(s.orders.rows, OrderWithId(orderId.value))).value;
      assert StatusOutcome(s, status, orderId, failing).after == StatusSet(s, order.id, status);
      StatusSetKeepsConsistent(s, order, status);
    }
  }

  /** Setting a stored order's status, and paying it on completion, keeps
      the store consistent. */
  lemma StatusSetKeepsConsistent(s: State, order: Order, status: string)
    requires Consistent(s) && order in s.orders.rows
    ensures Consistent(StatusSet(s, order.id, status))
  {
    OrderStatusSet(s, order, status);
    if status == Completed {
      PaymentStatusSet(SetOrderStatus(s, order.id, status), order.id, Paid);
    }
  }

  /** `UpdateOrderStatus`. */
  method UpdateOrderStatus(db: Database, status: string, orderId: Option<int>, failing: set<Write>) returns (r: Result<int>)
    requires db.Valid()
    modifies db
    ensures db.Valid()
    ensures Outcome(r, db.Snapshot()) == StatusOutcome(old(db.Snapshot()), status, orderId, failing)
  {
    StatusKeepsConsistent(db.Snapshot(), status, orderId, failing);
    if status == "" || orderId.None? {
      return Err(ValidationFailed);
    }
    var id := orderId.value;
    if !IsOrderStatus(status) {
      return Err(InvalidStatus);
    }
    var found := First(Where(db.orders.rows, OrderWithId(id)));
    if found.None? {
      return Err(OrderNotFound);
    }
    if BeginTx in failing || UpdateOrderRow in failing {
      return Err(StorageFailure);
    }
    var orders := db.orders.(rows := Update(db.orders.rows, OrderWithId(id), WithOrderStatus(status)));
    var payments := db.payments;
    if status == Completed {
      if UpdatePaymentRows in failing {
        return Err(StorageFailure);
      }
      payments := payments.(rows := Update(payments.rows, PaymentOfOrder(id), WithPaymentStatus(Paid)));
    }
    if CommitTx in failing {
      return Err(StorageFailure);
    }
    db.orders, db.payments := orders, payments;
    r := Ok(id);
  }
}
