/** The rows of the tables the checkout core reads and writes, with the fields
    and defaults of the ORM models that matter to it. Money is a `real`
    (the source's float64 without rounding); dates are ordered integers. */
module Models {

  /** A catalogue product; only its id and price matter here. */
  datatype Product = Product(id: int, price: real)

  /** A cart; `status` defaults to "active". */
  datatype Cart = Cart(id: int, userId: int, status: string)

  /** A cart line. The unit price is not stored: it is the product's price
      whenever the line is read. */
  datatype CartItem = CartItem(id: int, cartId: int, productId: int, quantity: int)

  /** A voucher. `maxDiscount` 0 means uncapped; both usage limits default to 0. */
  datatype Voucher = Voucher(
    id: int,
    code: string,
    discountType: string,
    discountValue: real,
    minOrder: real,
    maxDiscount: real,
    startDate: int,
    endDate: int,
    usageLimitGlobal: int,
    usageLimitPerUser: int)

  /** A claim of a voucher by a user; `used` defaults to false. */
  datatype UserVoucher = UserVoucher(id: int, userId: int, voucherId: int, used: bool)

  datatype Order = Order(
    id: int,
    userId: int,
    fullName: string,
    phone: string,
    address: string,
    total: real,
    note: string,
    discount: real,
    paymentMethod: string,
    status: string)

  /** An order line: the unit price is copied at checkout and never changes. */
  datatype OrderItem = OrderItem(id: int, orderId: int, productId: int, quantity: int, unitPrice: real)

  /** The payment of an order; `status` defaults to "pending". */
  datatype Payment = Payment(id: int, orderId: int, payMethod: string, amount: real, status: string)

  const Active := "active"
  const PercentDiscount := "percent"
  const CashOnDelivery := "COD"

  const Pending := "pending"
  const Confirmed := "confirmed"
  const Preparing := "preparing"
  const Delivering := "delivering"
  const Completed := "completed"
  const Cancelled := "cancelled"
  const Paid := "paid"

  /** The six statuses an administrator may set on an order. */
  predicate IsOrderStatus(s: string) {
    s in [Pending, Confirmed, Preparing, Delivering, Completed, Cancelled]
  }
}
