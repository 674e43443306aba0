/** The relational store the controllers share: its tables, the `WHERE` and
    `SET` clauses the controllers use on them, the lookups built from those,
    the invariants every handler keeps, and the `Database` object whose
    fields hold the tables. */
module Store {
  import opened Common
  import opened Models
  import opened Query
  import opened Pricing

  /** An auto-increment table: its rows in id order and the id the next
      inserted row gets. */
  datatype Table<T> = Table(rows: seq<T>, nextId: int)

  /** `INSERT`: the row (which carries `nextId`) goes last, and the sequence
      moves on. */
  function Inserted<T>(t: Table<T>, row: T): Table<T> {
    Table(t.rows + [row], t.nextId + 1)
  }

  /** All tables at one instant. Products and vouchers are only read here. */
  datatype State = State(
    products: seq<Product>,
    vouchers: seq<Voucher>,
    carts: Table<Cart>,
    cartItems: Table<CartItem>,
    userVouchers: Table<UserVoucher>,
    orders: Table<Order>,
    orderItems: Table<OrderItem>,
    payments: Table<Payment>)

  /** What a handler answers and the state it leaves behind. */
  datatype Outcome<T> = Outcome(result: Result<T>, after: State)

  // WHERE clauses

  /** `user_id = ? AND status = 'active'` on carts. */
  function ActiveCartOf(user: int): Cart -> bool { (c: Cart) => c.userId == user && c.status == Active }
  function OtherCart(id: int): Cart -> bool { (c: Cart) => c.id != id }

  function LineWithId(id: int): CartItem -> bool { (l: CartItem) => l.id == id }
  function OtherLine(id: int): CartItem -> bool { (l: CartItem) => l.id != id }
  /** `cart_id = ?` on cart items. */
  function LineInCart(cartId: int): CartItem -> bool { (l: CartItem) => l.cartId == cartId }
  function LineOutsideCart(cartId: int): CartItem -> bool { (l: CartItem) => l.cartId != cartId }
  /** Every line but the cart's line for the product. */
  function NotLineFor(cartId: int, productId: int): CartItem -> bool {
    (l: CartItem) => !(l.cartId == cartId && l.productId == productId)
  }
  /** `cart_id = ? AND product_id = ?` on cart items. */
  function LineFor(cartId: int, productId: int): CartItem -> bool {
    (l: CartItem) => l.cartId == cartId && l.productId == productId
  }

  function ProductWithId(id: int): Product -> bool { (p: Product) => p.id == id }
  function VoucherWithCode(code: string): Voucher -> bool { (v: Voucher) => v.code == code }

  /** `user_id = ? AND voucher_id = ?` on user vouchers, used or not. */
  function HeldBy(user: int, voucherId: int): UserVoucher -> bool {
    (uv: UserVoucher) => uv.userId == user && uv.voucherId == voucherId
  }
  /** `user_id = ? AND voucher_id = ? AND used = false`. */
  function UnusedBy(user: int, voucherId: int): UserVoucher -> bool {
    (uv: UserVoucher) => uv.userId == user && uv.voucherId == voucherId && !uv.used
  }
  /** `voucher_id = ?`: every claim of the voucher, by anyone. */
  function IssuedOf(voucherId: int): UserVoucher -> bool { (uv: UserVoucher) => uv.voucherId == voucherId }
  function UserVoucherWithId(id: int): UserVoucher -> bool { (uv: UserVoucher) => uv.id == id }

  function OrderWithId(id: int): Order -> bool { (o: Order) => o.id == id }
  function OtherOrder(id: int): Order -> bool { (o: Order) => o.id != id }
  /** `id = ? AND user_id = ?` on orders. */
  function OwnedOrder(id: int, user: int): Order -> bool { (o: Order) => o.id == id && o.userId == user }
  function ItemOfOrder(orderId: int): OrderItem -> bool { (i: OrderItem) => i.orderId == orderId }
  function PaymentOfOrder(orderId: int): Payment -> bool { (p: Payment) => p.orderId == orderId }
  function PaymentOfOtherOrder(orderId: int): Payment -> bool { (p: Payment) => p.orderId != orderId }

  // SET clauses

  function WithQuantity(q: int): CartItem -> CartItem { (l: CartItem) => l.(quantity := q) }
  function MarkedUsed(uv: UserVoucher): UserVoucher { uv.(used := true) }
  function WithOrderStatus(status: string): Order -> Order { (o: Order) => o.(status := status) }
  function WithPaymentStatus(status: string): Payment -> Payment { (p: Payment) => p.(status := status) }

  // Lookups

  /** The user's active cart, as `First` finds it. */
  function ActiveCartFor(carts: seq<Cart>, user: int): Option<Cart> {
    First(Where(carts, ActiveCartOf(user)))
  }

  function LinesOfCart(items: seq<CartItem>, cartId: int): seq<CartItem> {
    Where(items, LineInCart(cartId))
  }

  /** The cart's line for a product, if it has one. */
  function LineOf(items: seq<CartItem>, cartId: int, productId: int): Option<CartItem> {
    First(Where(items, LineFor(cartId, productId)))
  }

  function FindProduct(products: seq<Product>, id: int): Option<Product> {
    First(Where(products, ProductWithId(id)))
  }

  /** The price a preloaded line sees: that of its product, or the zero value
      of a product row when the product is gone. */
  function PriceOf(products: seq<Product>, id: int): real {
    match FindProduct(products, id)
    case Some(p) => p.price
    case None => 0.0
  }

  /** Cart lines joined with their products' current prices. */
  function Priced(products: seq<Product>, items: seq<CartItem>): (r: seq<PricedLine>)
    ensures |r| == |items|
  {
    seq(|items|, i requires 0 <= i < |items| =>
      PricedLine(items[i].productId, items[i].quantity, PriceOf(products, items[i].productId)))
  }

  /** Pricing one more line appends its priced line. */
  lemma PricedAppend(products: seq<Product>, items: seq<CartItem>, l: CartItem)
    ensures Priced(products, items + [l]) == Priced(products, items) + [PricedLine(l.productId, l.quantity, PriceOf(products, l.productId))]
  {
  }

  function FindVoucher(vouchers: seq<Voucher>, code: string): Option<Voucher> {
    First(Where(vouchers, VoucherWithCode(code)))
  }

  function HeldCount(uvs: seq<UserVoucher>, user: int, voucherId: int): nat {
    |Where(uvs, HeldBy(user, voucherId))|
  }

  function UnusedCount(uvs: seq<UserVoucher>, user: int, voucherId: int): nat {
    |Where(uvs, UnusedBy(user, voucherId))|
  }

  function IssuedCount(uvs: seq<UserVoucher>, voucherId: int): nat {
    |Where(uvs, IssuedOf(voucherId))|
  }

  // Invariants

  /** A count respects a limit; a limit of zero or less admits no row. */
  predicate WithinLimit(count: nat, limit: int) {
    count == 0 || count <= limit
  }

  predicate VoucherIdsDistinct(vouchers: seq<Voucher>) {
    forall i, j :: 0 <= i < j < |vouchers| ==> vouchers[i].id != vouchers[j].id
  }

  /** Ids are below the next id, and a user has at most one active cart. */
  ghost predicate CartsConsistent(s: State) {
    && s.carts.nextId > 0
    && (forall c :: c in s.carts.rows ==> 0 < c.id < s.carts.nextId)
    && (forall u :: |Where(s.carts.rows, ActiveCartOf(u))| <= 1)
  }

  /** Line ids are distinct, every line has a positive quantity and belongs
      to a cart id already handed out, and a cart has at most one line per
      product. */
  ghost predicate CartItemsConsistent(s: State) {
    && s.cartItems.nextId > 0
    && (forall l :: l in s.cartItems.rows ==> 0 < l.id < s.cartItems.nextId && 0 < l.quantity && l.cartId < s.carts.nextId)
    && (forall id :: |Where(s.cartItems.rows, LineWithId(id))| <= 1)
    && (forall c, p :: |Where(s.cartItems.rows, LineFor(c, p))| <= 1)
  }

  /** A user holds at most one unused row per voucher, and no voucher has more
      claims than its per-user and global limits allow. */
  ghost predicate VouchersConsistent(s: State) {
    && s.userVouchers.nextId > 0
    && VoucherIdsDistinct(s.vouchers)
    && (forall uv :: uv in s.userVouchers.rows ==> 0 < uv.id < s.userVouchers.nextId)
    && (forall id :: |Where(s.userVouchers.rows, UserVoucherWithId(id))| <= 1)
    && (forall u, v :: UnusedCount(s.userVouchers.rows, u, v) <= 1)
    && (forall v, u :: v in s.vouchers ==> WithinLimit(HeldCount(s.userVouchers.rows, u, v.id), v.usageLimitPerUser))
    && (forall v :: v in s.vouchers ==> WithinLimit(IssuedCount(s.userVouchers.rows, v.id), v.usageLimitGlobal))
  }

  /** Order ids are distinct and below the next id; order-item and payment
      ids are below theirs, and every order item and payment refers to an
      order id already handed out. */
  ghost predicate OrdersConsistent(s: State) {
    && s.orders.nextId > 0 && s.orderItems.nextId > 0 && s.payments.nextId > 0
    && (forall o :: o in s.orders.rows ==> 0 < o.id < s.orders.nextId)
    && (forall id :: |Where(s.orders.rows, OrderWithId(id))| <= 1)
    && (forall i :: i in s.orderItems.rows ==> 0 < i.id < s.orderItems.nextId && i.orderId < s.orders.nextId)
    && (forall p :: p in s.payments.rows ==> 0 < p.id < s.payments.nextId && p.orderId < s.orders.nextId)
  }

  ghost predicate Consistent(s: State) {
    CartsConsistent(s) && CartItemsConsistent(s) && VouchersConsistent(s) && OrdersConsistent(s)
  }

  /** A new, empty, active cart for the user (`Create(&Carts{UserID, "active"})`). */
  function OpenCart(s: State, user: int): State {
    s.(carts := Inserted(s.carts, Cart(s.carts.nextId, user, Active)))
  }

  /** Opening a cart for a user who has none keeps the store consistent, and
      the new cart is the user's active cart and has no lines. */
  lemma OpenCartKeepsConsistent(s: State, user: int)
    requires Consistent(s) && ActiveCartFor(s.carts.rows, user) == None
    ensures Consistent(OpenCart(s, user))
    ensures ActiveCartFor(OpenCart(s, user).carts.rows, user) == Some(Cart(s.carts.nextId, user, Active))
    ensures LinesOfCart(OpenCart(s, user).cartItems.rows, s.carts.nextId) == []
  {
    var c := Cart(s.carts.nextId, user, Active);
    forall u ensures |Where(s.carts.rows + [c], ActiveCartOf(u))| <= 1 {
      WhereAppend(s.carts.rows, c, ActiveCartOf(u));
    }
    WhereAppend(s.carts.rows, c, ActiveCartOf(user));
    WhereNone(s.cartItems.rows, LineInCart(s.carts.nextId));
  }

  /** The store with its cart-item rows replaced. */
  function WithLines(s: State, rows: seq<CartItem>): State {
    s.(cartItems := s.cartItems.(rows := rows))
  }

  /** `UPDATE cart_items SET quantity = q WHERE id = ?`. */
  function SetLineQuantity(s: State, id: int, q: int): State {
    WithLines(s, Update(s.cartItems.rows, LineWithId(id), WithQuantity(q)))
  }

  /** `INSERT INTO cart_items`. */
  function InsertLine(s: State, l: CartItem): State {
    s.(cartItems := Inserted(s.cartItems, l))
  }

  /** `DELETE FROM cart_items WHERE NOT keep`. */
  function DeleteLines(s: State, keep: CartItem -> bool): State {
    WithLines(s, Where(s.cartItems.rows, keep))
  }

  /** Setting a positive quantity keeps the store consistent. */
  lemma SetQuantityKeepsConsistent(s: State, id: int, q: int)
    requires Consistent(s) && q > 0
    ensures Consistent(SetLineQuantity(s, id, q))
  {
    var rows, f := s.cartItems.rows, WithQuantity(q);
    var rows' := Update(rows, LineWithId(id), f);
    forall l | l in rows' ensures 0 < l.id < s.cartItems.nextId && 0 < l.quantity && l.cartId < s.carts.nextId {
      UpdateMembers(rows, LineWithId(id), f, l);
    }
    forall i ensures |Where(rows', LineWithId(i))| <= 1 {
      WhereOfUpdate(rows, LineWithId(id), f, LineWithId(i));
    }
    forall c, p ensures |Where(rows', LineFor(c, p))| <= 1 {
      WhereOfUpdate(rows, LineWithId(id), f, LineFor(c, p));
    }
  }

  /** Inserting a line with a fresh id and a positive quantity, into a cart
      already created that has no line for the product, keeps the store
      consistent. */
  lemma InsertLineKeepsConsistent(s: State, l: CartItem)
    requires Consistent(s)
    requires l.id == s.cartItems.nextId && l.quantity > 0 && l.cartId < s.carts.nextId
    requires LineOf(s.cartItems.rows, l.cartId, l.productId) == None
    ensures Consistent(InsertLine(s, l))
  {
    var rows := s.cartItems.rows;
    forall i ensures |Where(rows + [l], LineWithId(i))| <= 1 {
      WhereAppend(rows, l, LineWithId(i));
      if i == l.id {
        WhereNone(rows, LineWithId(i));
      }
    }
    forall c, p ensures |Where(rows + [l], LineFor(c, p))| <= 1 {
      WhereAppend(rows, l, LineFor(c, p));
    }
  }

  /** Deleting lines keeps the store consistent, whatever the condition. */
  lemma DeleteLinesKeepsConsistent(s: State, keep: CartItem -> bool)
    requires Consistent(s)
    ensures Consistent(DeleteLines(s, keep))
  {
    var rows := s.cartItems.rows;
    forall i ensures |Where(Where(rows, keep), LineWithId(i))| <= 1 {
      WhereOfWhere(rows, keep, LineWithId(i));
    }
    forall c, p ensures |Where(Where(rows, keep), LineFor(c, p))| <= 1 {
      WhereOfWhere(rows, keep, LineFor(c, p));
    }
  }

  /** The database: one field per table. Writes outside a transaction go to
      the fields directly; a transaction works on a copy (`Snapshot()`) and
      `Commit` publishes it, so a rolled-back transaction leaves the fields as
      they were. */
  class Database {
    var products: seq<Product>
    var vouchers: seq<Voucher>
    var carts: Table<Cart>
    var cartItems: Table<CartItem>
    var userVouchers: Table<UserVoucher>
    var orders: Table<Order>
    var orderItems: Table<OrderItem>
    var payments: Table<Payment>

    function Snapshot(): State
      reads this
    {
      State(products, vouchers, carts, cartItems, userVouchers, orders, orderItems, payments)
    }

    ghost predicate Valid()
      reads this
    {
      Consistent(Snapshot())
    }

    /** A store holding only a product catalogue and the vouchers, every other
        table empty with its ids starting at 1. */
    constructor (products: seq<Product>, vouchers: seq<Voucher>)
      requires VoucherIdsDistinct(vouchers)
      ensures Valid()
      ensures Snapshot() == State(products, vouchers, Table([], 1), Table([], 1), Table([], 1), Table([], 1), Table([], 1), Table([], 1))
    {
      this.products, this.vouchers := products, vouchers;
      carts, cartItems, userVouchers := Table([], 1), Table([], 1), Table([], 1);
      orders, orderItems, payments := Table([], 1), Table([], 1), Table([], 1);
    }

    /** `tx.Commit()`: the transaction's copy becomes the stored state. */
    method Commit(tx: State)
      modifies this
      ensures Snapshot() == tx
    {
      products, vouchers, carts, cartItems := tx.products, tx.vouchers, tx.carts, tx.cartItems;
      userVouchers, orders, orderItems, payments := tx.userVouchers, tx.orders, tx.orderItems, tx.payments;
    }
  }
}
