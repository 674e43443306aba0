/** Vocabulary shared by the three controllers: optional values, handler
    results in place of HTTP responses, and the storage writes a handler can
    attempt (any of which the database may refuse). */
module Common {

  datatype Option<T> = None | Some(value: T)

  /** The error a handler answers with; the comment gives the HTTP status. */
  datatype Error =
    | ValidationFailed          // 422: a required field is empty or a number is not positive
    | Unauthorized              // 401: the token carried no user id (user id 0)
    | UnsupportedPaymentMethod  // 400: any payment method but "COD"
    | CartNotFound              // 404: the user has no active cart
    | EmptyCart                 // 400: the active cart has no lines
    | ProductNotFound           // 404
    | VoucherNotFound           // 404: no voucher has the code
    | VoucherNotHeld            // 400: no unused user_vouchers row for the code
    | MinOrderNotMet            // 400: subtotal below the voucher's minimum order
    | VoucherNotActive          // 400: now outside [start date, end date]
    | VoucherAlreadyHeld        // 400: the user already holds an unused row
    | PerUserLimitReached       // 400
    | GlobalLimitReached        // 400
    | OrderNotFound             // 404
    | OrderNotPending           // 400: only a pending order can be cancelled
    | InvalidStatus             // 400: not one of the six order statuses
    | StorageFailure            // 500: a begin, write or commit failed

  datatype Result<T> = Ok(value: T) | Err(error: Error)

  /** One storage operation a handler performs. A handler is given the set of
      operations the database refuses; the first refused one makes the handler
      roll back and answer `StorageFailure`. */
  datatype Write =
    | BeginTx
    | CommitTx
    | InsertCart
    | InsertCartItem
    | UpdateCartItemRow
    | DeleteCartItemRow
    | InsertUserVoucher
    | InsertOrder
    | InsertOrderItem(line: nat)  // the order item copied from the cart line at this index
    | InsertPayment
    | MarkVoucherUsed
    | DeleteCartItems
    | DeleteCart
    | UpdateOrderRow
    | UpdatePaymentRows
}
