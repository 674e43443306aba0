/** The cart handlers: creating or fetching the active cart, adding a product,
    changing a line's quantity, removing a line, and reading the cart with its
    total. Each multi-step handler has a function giving its answer and the
    state it leaves (`…Outcome`); the method performs the steps on the
    database and is proved to agree with that function. */
module CartController {
  import opened Common
  import opened Models
  import opened Query
  import opened Pricing
  import opened Store

  /** The cart a handler answers with: the cart (none when the user has no
      active cart), its lines, and their total at the products' current
      prices. */
  datatype CartView = CartView(cart: Option<Cart>, items: seq<CartItem>, total: real)

  /** The view of a stored cart. */
  function ViewOf(s: State, c: Cart): CartView {
    var items := LinesOfCart(s.cartItems.rows, c.id);
    CartView(Some(c), items, Subtotal(Priced(s.products, items)))
  }

  /** What `GetCartByUserID` answers: the active cart's view, or an empty view
      with total 0 when there is no active cart. */
  function CartOf(s: State, user: int): Result<CartView> {
    if user == 0 then Err(Unauthorized)
    else match ActiveCartFor(s.carts.rows, user)
      case None => Ok(CartView(None, [], 0.0))
      case Some(c) => Ok(ViewOf(s, c))
  }

  /** The view lists exactly the cart's lines, each with a positive quantity,
      and with non-negative prices its total is not negative. */
  lemma ViewListsCartLines(s: State, c: Cart)
    requires Consistent(s)
    ensures forall l :: l in ViewOf(s, c).items <==> l in s.cartItems.rows && l.cartId == c.id
    ensures forall l :: l in ViewOf(s, c).items ==> l.quantity > 0
    ensures (forall p :: p in s.products ==> p.price >= 0.0) ==> ViewOf(s, c).total >= 0.0
  {
    var items := LinesOfCart(s.cartItems.rows, c.id);
    var lines := Priced(s.products, items);
    if forall p :: p in s.products ==> p.price >= 0.0 {
      forall l | l in lines ensures l.unitPrice >= 0.0 && l.quantity >= 0 {
        var i :| 0 <= i < |lines| && lines[i] == l;
        assert items[i] in items;
        match FindProduct(s.products, items[i].productId)
        case Some(p) =>
        case None =>
      }
      SubtotalNonNegative(lines);
    }
  }

  /** With no active cart the answer is an empty view totalling 0; otherwise
      it is the view of the one active cart. */
  lemma CartOfIsTheActiveCart(s: State, user: int)
    requires Consistent(s) && user != 0
    ensures ActiveCartFor(s.carts.rows, user) == None ==> CartOf(s, user) == Ok(CartView(None, [], 0.0))
    ensures forall c :: c in s.carts.rows && c.userId == user && c.status == Active ==>
      CartOf(s, user) == Ok(ViewOf(s, c))
  {
    forall c | c in s.carts.rows && c.userId == user && c.status == Active
      ensures CartOf(s, user) == Ok(ViewOf(s, c))
    {
      OnlyMatch(s.carts.rows, ActiveCartOf(user), c);
    }
  }

  /** Reads a stored cart's lines and adds up their amounts. */
  method ReadCart(db: Database, c: Cart) returns (v: CartView)
    ensures v == ViewOf(db.Snapshot(), c)
  {
    var items := LinesOfCart(db.cartItems.rows, c.id);
    var total := SumLines(Priced(db.products, items));
    v := CartView(Some(c), items, total);
  }

  /** `GetCartByUserID`. */
  method GetCartByUserID(db: Database, user: int) returns (r: Result<CartView>)
    ensures r == CartOf(db.Snapshot(), user)
  {
    if user == 0 {
      return Err(Unauthorized);
    }
    match ActiveCartFor(db.carts.rows, user)
    case None =>
      r := Ok(CartView(None, [], 0.0));
    case Some(c) =>
      var v := ReadCart(db, c);
      r := Ok(v);
  }

  // InitCart

  /** `InitCart`: the active cart's view when the user has one; otherwise a
      new active cart, empty and totalling 0. */
  function InitCartOutcome(s: State, user: int, failing: set<Write>): Outcome<CartView> {
    if user == 0 then Outcome(Err(Unauthorized), s)
    else match ActiveCartFor(s.carts.rows, user)
      case Some(c) => Outcome(Ok(ViewOf(s, c)), s)
      case None =>
        if InsertCart in failing then Outcome(Err(StorageFailure), s)
        else Outcome(Ok(CartView(Some(Cart(s.carts.nextId, user, Active)), [], 0.0)), OpenCart(s, user))
  }

  lemma InitCartKeepsConsistent(s: State, user: int, failing: set<Write>)
    requires Consistent(s)
    ensures Consistent(InitCartOutcome(s, user, failing).after)
  {
    if user != 0 && ActiveCartFor(s.carts.rows, user) == None {
      OpenCartKeepsConsistent(s, user);
    }
  }

  /** A cart is created only when the user has no active cart, and a
      successful `InitCart` leaves the user exactly one active cart and
      answers what `GetCartByUserID` then answers. */
  lemma InitCartLeavesOneActiveCart(s: State, user: int, failing: set<Write>)
    requires Consistent(s)
    ensures var o := InitCartOutcome(s, user, failing);
      && (o.after == s || (ActiveCartFor(s.carts.rows, user) == None && o.after == OpenCart(s, user)))
      && (o.result.Ok? ==>
            && |Where(o.after.carts.rows, ActiveCartOf(user))| == 1
            && o.result.value.cart == ActiveCartFor(o.after.carts.rows, user)
            && o.result == CartOf(o.after, user))
  {
    var o := InitCartOutcome(s, user, failing);
    if user != 0 {
      match ActiveCartFor(s.carts.rows, user)
      case Some(c) =>
      case None =>
        if InsertCart !in failing {
          OpenCartKeepsConsistent(s, user);
          assert LinesOfCart(o.after.cartItems.rows, s.carts.nextId) == [];
        }
    }
  }

  /** Calling `InitCart` again changes nothing and gives the same answer. */
  lemma InitCartIdempotent(s: State, user: int, failing: set<Write>, failing': set<Write>)
    requires Consistent(s)
    requires InitCartOutcome(s, user, failing).result.Ok?
    ensures var o := InitCartOutcome(s, user, failing);
      InitCartOutcome(o.after, user, failing') == o
  {
    InitCartLeavesOneActiveCart(s, user, failing);
  }

  /** `InitCart`. */
  method InitCart(db: Database, user: int, failing: set<Write>) returns (r: Result<CartView>)
    requires db.Valid()
    modifies db
    ensures db.Valid()
    ensures Outcome(r, db.Snapshot()) == InitCartOutcome(old(db.Snapshot()), user, failing)
  {
    InitCartKeepsConsistent(db.Snapshot(), user, failing);
    if user == 0 {
      return Err(Unauthorized);
    }
    match ActiveCartFor(db.carts.rows, user)
    case Some(c) =>
      var v := ReadCart(db, c);
      r := Ok(v);
    case None =>
      if InsertCart in failing {
        return Err(StorageFailure);
      }
      var cart := Cart(db.carts.nextId, user, Active);
      db.carts := Inserted(db.carts, cart);
      r := Ok(CartView(Some(cart), [], 0.0));
  }

  // AddItemToCart

  /** `AddItemToCart`. After validation and the product lookup, the user's
      active cart is found or created; the creation happens outside the
      transaction, so a later failure keeps the new cart. */
  function AddItemOutcome(s: State, user: int, productId: int, quantity: int, failing: set<Write>): Outcome<CartItem> {
    if productId <= 0 || quantity <= 0 then Outcome(Err(ValidationFailed), s)
    else if user == 0 then Outcome(Err(Unauthorized), s)
    else if FindProduct(s.products, productId).None? then Outcome(Err(ProductNotFound), s)
    else if BeginTx in failing then Outcome(Err(StorageFailure), s)
    else match ActiveCartFor(s.carts.rows, user)
      case Some(c) => AddLine(s, c.id, productId, quantity, failing)
      case None =>
        if InsertCart in failing then Outcome(Err(StorageFailure), s)
        else AddLine(OpenCart(s, user), s.carts.nextId, productId, quantity, failing)
  }

  /** The transaction of `AddItemToCart`: raise the quantity of the cart's
      line for the product when it has one (a found line has a positive id),
      otherwise insert a new line. */
  function AddLine(s: State, cartId: int, productId: int, quantity: int, failing: set<Write>): Outcome<CartItem> {
    var existing := LineOf(s.cartItems.rows, cartId, productId);
    if existing.Some? && existing.value.id > 0 then
      var l := Raised(existing.value, quantity);
      if UpdateCartItemRow in failing || CommitTx in failing then Outcome(Err(StorageFailure), s)
      else Outcome(Ok(l), SetLineQuantity(s, l.id, l.quantity))
    else
      var l := CartItem(s.cartItems.nextId, cartId, productId, quantity);
      if InsertCartItem in failing || CommitTx in failing then Outcome(Err(StorageFailure), s)
      else Outcome(Ok(l), InsertLine(s, l))
  }

  /** `existingItem.Quantity += quantity`. */
  function Raised(l: CartItem, quantity: int): CartItem {
    l.(quantity := l.quantity + quantity)
  }

  /** The cart `AddItemToCart` fills: the active cart, or the one it creates. */
  function CartToFill(s: State, user: int): Cart {
    match ActiveCartFor(s.carts.rows, user)
    case Some(c) => c
    case None => Cart(s.carts.nextId, user, Active)
  }

  /** The quantity of the product already in the cart (0 when absent). */
  function QuantityIn(items: seq<CartItem>, cartId: int, productId: int): int {
    match LineOf(items, cartId, productId)
    case Some(l) => l.quantity
    case None => 0
  }

  lemma AddLineKeepsConsistent(s: State, cartId: int, productId: int, quantity: int, failing: set<Write>)
    requires Consistent(s) && quantity > 0 && cartId < s.carts.nextId
    ensures Consistent(AddLine(s, cartId, productId, quantity, failing).after)
  {
    var existing := LineOf(s.cartItems.rows, cartId, productId);
    if existing.Some? && existing.value.id > 0 {
      var l := Raised(existing.value, quantity);
      assert existing.value in s.cartItems.rows;
      SetQuantityKeepsConsistent(s, l.id, l.quantity);
    } else if existing.None? {
      InsertLineKeepsConsistent(s, CartItem(s.cartItems.nextId, cartId, productId, quantity));
    } else {
      assert false;
    }
  }

  lemma AddItemKeepsConsistent(s: State, user: int, productId: int, quantity: int, failing: set<Write>)
    requires Consistent(s)
    ensures Consistent(AddItemOutcome(s, user, productId, quantity, failing).after)
  {
    if productId > 0 && quantity > 0 && user != 0 && FindProduct(s.products, productId).Some? && BeginTx !in failing {
      match ActiveCartFor(s.carts.rows, user)
      case Some(c) =>
        AddLineKeepsConsistent(s, c.id, productId, quantity, failing);
      case None =>
        if InsertCart !in failing {
          OpenCartKeepsConsistent(s, user);
          AddLineKeepsConsistent(OpenCart(s, user), s.carts.nextId, productId, quantity, failing);
        }
    }
  }

  /** A rejected request changes nothing, except that a cart created before
      the transaction failed stays; validation and the product lookup come
      before any write. */
  lemma AddItemFailureChangesAtMostTheCart(s: State, user: int, productId: int, quantity: int, failing: set<Write>)
    ensures var o := AddItemOutcome(s, user, productId, quantity, failing);
      o.result.Err? ==> o.after == s || (ActiveCartFor(s.carts.rows, user) == None && o.after == OpenCart(s, user))
  {
    if productId > 0 && quantity > 0 && user != 0 && FindProduct(s.products, productId).Some? && BeginTx !in failing {
      match ActiveCartFor(s.carts.rows, user)
      case Some(c) =>
        AddLineFailureChangesNothing(s, c.id, productId, quantity, failing);
      case None =>
        if InsertCart !in failing {
          AddLineFailureChangesNothing(OpenCart(s, user), s.carts.nextId, productId, quantity, failing);
        }
    }
  }

  lemma AddLineFailureChangesNothing(s: State, cartId: int, productId: int, quantity: int, failing: set<Write>)
    ensures var o := AddLine(s, cartId, productId, quantity, failing);
      o.result.Err? ==> o.after == s
  {
  }

  /** Validation comes first and the product lookup next, both before any
      write: a non-positive id or quantity, or an unknown product, is rejected
      with nothing changed. */
  lemma AddItemRejectsBeforeStorage(s: State, user: int, productId: int, quantity: int, failing: set<Write>)
    ensures var o := AddItemOutcome(s, user, productId, quantity, failing);
      && (o.result == Err(ValidationFailed) <==> productId <= 0 || quantity <= 0)
      && (o.result == Err(ProductNotFound) <==>
            productId > 0 && quantity > 0 && user != 0 && FindProduct(s.products, productId) == None)
      && (o.result == Err(ValidationFailed) || o.result == Err(ProductNotFound) ==> o.after == s)
  {
    if productId > 0 && quantity > 0 && user != 0 && FindProduct(s.products, productId).Some? && BeginTx !in failing {
      match ActiveCartFor(s.carts.rows, user)
      case Some(c) =>
        AddLineFailsOnlyInStorage(s, c.id, productId, quantity, failing);
      case None =>
        if InsertCart !in failing {
          AddLineFailsOnlyInStorage(OpenCart(s, user), s.carts.nextId, productId, quantity, failing);
        }
    }
  }

  lemma AddLineFailsOnlyInStorage(s: State, cartId: int, productId: int, quantity: int, failing: set<Write>)
    ensures var o := AddLine(s, cartId, productId, quantity, failing);
      o.result.Err? ==> o.result == Err(StorageFailure)
  {
  }

  /** A successful add creates a cart only when the user had no active
      cart, and touches no other cart; it leaves exactly one line for the
      product in the user's active cart, holding the quantity it had (0 when absent) plus the
      requested one; every other line is as it was, and a new line is added
      only when the product was not in the cart. */
  lemma AddItemMergesOrAppends(s: State, user: int, productId: int, quantity: int, failing: set<Write>)
    requires Consistent(s)
    requires AddItemOutcome(s, user, productId, quantity, failing).result.Ok?
    ensures var o := AddItemOutcome(s, user, productId, quantity, failing);
      var c := CartToFill(s, user);
      var l := o.result.value;
      && ActiveCartFor(o.after.carts.rows, user) == Some(c)
      && o.after.carts == (if ActiveCartFor(s.carts.rows, user).Some? then s.carts else OpenCart(s, user).carts)
      && Where(o.after.cartItems.rows, LineFor(c.id, productId)) == [l]
      && l.quantity == QuantityIn(s.cartItems.rows, c.id, productId) + quantity
      && Where(o.after.cartItems.rows, NotLineFor(c.id, productId)) == Where(s.cartItems.rows, NotLineFor(c.id, productId))
      && |o.after.cartItems.rows| == |s.cartItems.rows| + (if QuantityIn(s.cartItems.rows, c.id, productId) == 0 then 1 else 0)
      && o.after == s.(cartItems := o.after.cartItems, carts := o.after.carts)
  {
    match ActiveCartFor(s.carts.rows, user)
    case Some(c) =>
      AddLineMergesOrAppends(s, c.id, productId, quantity, failing);
    case None =>
      OpenCartKeepsConsistent(s, user);
      AddLineMergesOrAppends(OpenCart(s, user), s.carts.nextId, productId, quantity, failing);
  }

  lemma AddLineMergesOrAppends(s: State, cartId: int, productId: int, quantity: int, failing: set<Write>)
    requires CartItemsConsistent(s) && quantity > 0
    requires AddLine(s, cartId, productId, quantity, failing).result.Ok?
    ensures var o := AddLine(s, cartId, productId, quantity, failing);
      var l := o.result.value;
      && o.after == s.(cartItems := o.after.cartItems)
      && Where(o.after.cartItems.rows, LineFor(cartId, productId)) == [l]
      && l.quantity == QuantityIn(s.cartItems.rows, cartId, productId) + quantity
      && Where(o.after.cartItems.rows, NotLineFor(cartId, productId)) == Where(s.cartItems.rows, NotLineFor(cartId, productId))
      && |o.after.cartItems.rows| == |s.cartItems.rows| + (if QuantityIn(s.cartItems.rows, cartId, productId) == 0 then 1 else 0)
  {
    match LineOf(s.cartItems.rows, cartId, productId)
    case Some(e) =>
      RaiseTouchesOnlyThatLine(s, cartId, productId, e, quantity);
      var l := Raised(e, quantity);
      assert AddLine(s, cartId, productId, quantity, failing) == Outcome(Ok(l), SetLineQuantity(s, l.id, l.quantity));
    case None =>
      var l := CartItem(s.cartItems.nextId, cartId, productId, quantity);
      InsertTouchesOnlyThatLine(s, l);
      assert AddLine(s, cartId, productId, quantity, failing) == Outcome(Ok(l), InsertLine(s, l));
  }

  /** Raising the quantity of the cart's line for a product changes that line
      alone. */
  lemma RaiseTouchesOnlyThatLine(s: State, cartId: int, productId: int, e: CartItem, quantity: int)
    requires CartItemsConsistent(s) && quantity > 0
    requires LineOf(s.cartItems.rows, cartId, productId) == Some(e)
    ensures var l := Raised(e, quantity);
      var rows' := SetLineQuantity(s, l.id, l.quantity).cartItems.rows;
      && e.id > 0 && e.quantity > 0
      && Where(rows', LineFor(cartId, productId)) == [l]
      && Where(rows', NotLineFor(cartId, productId)) == Where(s.cartItems.rows, NotLineFor(cartId, productId))
      && |rows'| == |s.cartItems.rows|
  {
    var rows := s.cartItems.rows;
    var l := Raised(e, quantity);
    var f := WithQuantity(l.quantity);
    var rows' := Update(rows, LineWithId(l.id), f);
    assert SetLineQuantity(s, l.id, l.quantity).cartItems.rows == rows';
    assert e in Where(rows, LineFor(cartId, productId));
    OnlyMatch(rows, LineFor(cartId, productId), e);
    WhereOfUpdate(rows, LineWithId(l.id), f, LineFor(cartId, productId));
    assert Update([e], LineWithId(l.id), f) == [l];
    WhereOfUpdate(rows, LineWithId(l.id), f, NotLineFor(cartId, productId));
    forall x | x in Where(rows, NotLineFor(cartId, productId)) ensures !LineWithId(l.id)(x) {
      if x.id == l.id {
        OnlyMatch(rows, LineWithId(l.id), e);
      }
    }
    UpdateNone(Where(rows, NotLineFor(cartId, productId)), LineWithId(l.id), f);
  }

  /** Inserting a line for a product the cart lacked adds that line alone. */
  lemma InsertTouchesOnlyThatLine(s: State, l: CartItem)
    requires LineOf(s.cartItems.rows, l.cartId, l.productId) == None
    ensures var rows' := InsertLine(s, l).cartItems.rows;
      && Where(rows', LineFor(l.cartId, l.productId)) == [l]
      && Where(rows', NotLineFor(l.cartId, l.productId)) == Where(s.cartItems.rows, NotLineFor(l.cartId, l.productId))
      && |rows'| == |s.cartItems.rows| + 1
  {
    WhereAppend(s.cartItems.rows, l, LineFor(l.cartId, l.productId));
    WhereAppend(s.cartItems.rows, l, NotLineFor(l.cartId, l.productId));
  }

  /** The total of a cart's lines at the products' current prices. */
  function CartTotal(products: seq<Product>, rows: seq<CartItem>, cartId: int): real {
    Subtotal(Priced(products, LinesOfCart(rows, cartId)))
  }

  /** A successful add raises the total `GetCartByUserID` reports by the
      product's price times the quantity added (from 0 when the user had no
      cart). */
  lemma AddItemRaisesCartTotal(s: State, user: int, productId: int, quantity: int, failing: set<Write>)
    requires Consistent(s)
    requires AddItemOutcome(s, user, productId, quantity, failing).result.Ok?
    ensures var after := AddItemOutcome(s, user, productId, quantity, failing).after;
      && CartOf(s, user).Ok? && CartOf(after, user).Ok?
      && CartOf(after, user).value.total == CartOf(s, user).value.total + Worth(s.products, productId, quantity)
  {
    match ActiveCartFor(s.carts.rows, user)
    case Some(c) =>
      ExistingCartTotalRaised(s, user, c, productId, quantity, failing);
    case None =>
      NewCartTotalRaised(s, user, productId, quantity, failing);
  }

  lemma ExistingCartTotalRaised(s: State, user: int, c: Cart, productId: int, quantity: int, failing: set<Write>)
    requires CartItemsConsistent(s) && user != 0
    requires ActiveCartFor(s.carts.rows, user) == Some(c)
    requires AddItemOutcome(s, user, productId, quantity, failing).result.Ok?
    ensures var after := AddItemOutcome(s, user, productId, quantity, failing).after;
      && CartOf(s, user).Ok? && CartOf(after, user).Ok?
      && CartOf(after, user).value.total == CartOf(s, user).value.total + Worth(s.products, productId, quantity)
  {
    var o := AddLine(s, c.id, productId, quantity, failing);
    assert AddItemOutcome(s, user, productId, quantity, failing) == o;
    AddLineMergesOrAppends(s, c.id, productId, quantity, failing);
    AddLineRaisesTotal(s, c.id, productId, quantity, failing);
    assert o.after.carts == s.carts && o.after.products == s.products;
    assert CartOf(o.after, user) == Ok(ViewOf(o.after, c));
    assert CartOf(s, user) == Ok(ViewOf(s, c));
  }

  lemma NewCartTotalRaised(s: State, user: int, productId: int, quantity: int, failing: set<Write>)
    requires Consistent(s) && user != 0
    requires ActiveCartFor(s.carts.rows, user) == None
    requires AddItemOutcome(s, user, productId, quantity, failing).result.Ok?
    ensures var after := AddItemOutcome(s, user, productId, quantity, failing).after;
      && CartOf(s, user).Ok? && CartOf(after, user).Ok?
      && CartOf(after, user).value.total == CartOf(s, user).value.total + Worth(s.products, productId, quantity)
  {
    var s' := OpenCart(s, user);
    var c := Cart(s.carts.nextId, user, Active);
    var o := AddLine(s', c.id, productId, quantity, failing);
    assert AddItemOutcome(s, user, productId, quantity, failing) == o;
    OpenCartKeepsConsistent(s, user);
    AddLineMergesOrAppends(s', c.id, productId, quantity, failing);
    AddLineRaisesTotal(s', c.id, productId, quantity, failing);
    assert o.after.carts == s'.carts && o.after.products == s.products;
    assert CartOf(o.after, user) == Ok(ViewOf(o.after, c));
    assert CartTotal(s.products, s'.cartItems.rows, c.id) == 0.0;
  }

  lemma AddLineRaisesTotal(s: State, cartId: int, productId: int, quantity: int, failing: set<Write>)
    requires CartItemsConsistent(s) && quantity > 0
    requires AddLine(s, cartId, productId, quantity, failing).result.Ok?
    ensures var after := AddLine(s, cartId, productId, quantity, failing).after;
      CartTotal(s.products, after.cartItems.rows, cartId)
        == CartTotal(s.products, s.cartItems.rows, cartId) + Worth(s.products, productId, quantity)
  {
    match LineOf(s.cartItems.rows, cartId, productId)
    case Some(e) =>
      var l := Raised(e, quantity);
      assert AddLine(s, cartId, productId, quantity, failing) == Outcome(Ok(l), SetLineQuantity(s, l.id, l.quantity));
      assert SetLineQuantity(s, l.id, l.quantity).cartItems.rows == Update(s.cartItems.rows, LineWithId(l.id), WithQuantity(l.quantity));
      RaiseAddsToTotal(s, cartId, productId, e, quantity);
    case None =>
      var l := CartItem(s.cartItems.nextId, cartId, productId, quantity);
      assert AddLine(s, cartId, productId, quantity, failing) == Outcome(Ok(l), InsertLine(s, l));
      WhereAppend(s.cartItems.rows, l, LineInCart(cartId));
      SubtotalOfAppend(s.products, LinesOfCart(s.cartItems.rows, cartId), l);
  }

  /** Raising the cart's line for a product adds its price times the raise. */
  lemma RaiseAddsToTotal(s: State, cartId: int, productId: int, e: CartItem, quantity: int)
    requires CartItemsConsistent(s)
    requires LineOf(s.cartItems.rows, cartId, productId) == Some(e)
    ensures var l := Raised(e, quantity);
      CartTotal(s.products, Update(s.cartItems.rows, LineWithId(l.id), WithQuantity(l.quantity)), cartId)
        == CartTotal(s.products, s.cartItems.rows, cartId) + Worth(s.products, productId, quantity)
  {
    var rows := s.cartItems.rows;
    var items := LinesOfCart(rows, cartId);
    var l := Raised(e, quantity);
    var f := WithQuantity(l.quantity);
    assert e in Where(rows, LineFor(cartId, productId));
    WhereOfUpdate(rows, LineWithId(l.id), f, LineInCart(cartId));
    WhereOfWhere(rows, LineInCart(cartId), LineWithId(l.id));
    assert e in items;
    OnlyMatch(items, LineWithId(l.id), e);
    TotalAfterRaise(s.products, items, e, l.quantity);
    assert e.(quantity := l.quantity) == l;
    RaisedAmount(s.products, e, quantity);
    assert e.productId == productId;
  }

  /** The product's current price times a quantity. */
  function Worth(products: seq<Product>, productId: int, quantity: int): real {
    PriceOf(products, productId) * quantity as real
  }

  /** What one cart line adds to a total. */
  function LineAmount(products: seq<Product>, l: CartItem): real {
    Worth(products, l.productId, l.quantity)
  }

  /** Raising a line by a quantity raises its amount by the worth of that
      quantity. */
  lemma RaisedAmount(products: seq<Product>, e: CartItem, quantity: int)
    ensures LineAmount(products, Raised(e, quantity)) == LineAmount(products, e) + Worth(products, e.productId, quantity)
  {
    var price := PriceOf(products, e.productId);
    assert price * (e.quantity + quantity) as real == price * e.quantity as real + price * quantity as real;
  }

  /** Pricing one more line adds its amount to the subtotal. */
  lemma SubtotalOfAppend(products: seq<Product>, items: seq<CartItem>, l: CartItem)
    ensures Subtotal(Priced(products, items + [l])) == Subtotal(Priced(products, items)) + LineAmount(products, l)
  {
    var pl := PricedLine(l.productId, l.quantity, PriceOf(products, l.productId));
    PricedAppend(products, items, l);
    SubtotalConcat(Priced(products, items), [pl]);
    assert Subtotal([pl]) == Amount(pl) by {
      assert [pl][..0] == [];
    }
    assert Amount(pl) == LineAmount(products, l);
  }

  /** Rewriting the one line with a given id changes the total by the
      difference of the two lines' amounts. */
  lemma {:induction false} TotalAfterRaise(products: seq<Product>, items: seq<CartItem>, e: CartItem, q: int)
    requires Where(items, LineWithId(e.id)) == [e]
    ensures Subtotal(Priced(products, Update(items, LineWithId(e.id), WithQuantity(q))))
      == Subtotal(Priced(products, items)) - LineAmount(products, e) + LineAmount(products, e.(quantity := q))
    decreases |items|
  {
    var p, f := LineWithId(e.id), WithQuantity(q);
    var init, last := items[..|items| - 1], items[|items| - 1];
    assert items == init + [last];
    var g := if p(last) then f(last) else last;
    var rest := Update(init, p, f);
    WhereAppend(init, last, p);
    UpdateAppend(init, last, p, f);
    assert Update(items, p, f) == rest + [g];
    SubtotalOfAppend(products, init, last);
    SubtotalOfAppend(products, rest, g);
    if last.id == e.id {
      assert last == e && g == e.(quantity := q);
      assert Where(init, p) == [];
      UpdateNone(init, p, f);
    } else {
      assert g == last;
      TotalAfterRaise(products, init, e, q);
    }
  }

  /** `AddItemToCart`. */
  method AddItemToCart(db: Database, user: int, productId: int, quantity: int, failing: set<Write>) returns (r: Result<CartItem>)
    requires db.Valid()
    modifies db
    ensures db.Valid()
    ensures Outcome(r, db.Snapshot()) == AddItemOutcome(old(db.Snapshot()), user, productId, quantity, failing)
  {
    AddItemKeepsConsistent(db.Snapshot(), user, productId, quantity, failing);
    if productId <= 0 || quantity <= 0 {
      return Err(ValidationFailed);
    }
    if user == 0 {
      return Err(Unauthorized);
    }
    if FindProduct(db.products, productId).None? {
      return Err(ProductNotFound);
    }
    if BeginTx in failing {
      return Err(StorageFailure);
    }
    var cart: Cart;
    match ActiveCartFor(db.carts.rows, user) {
      case Some(c) =>
        cart := c;
      case None =>
        if InsertCart in failing {
          return Err(StorageFailure);
        }
        // Written straight to the table, not through the transaction.
        cart := Cart(db.carts.nextId, user, Active);
        db.carts := Inserted(db.carts, cart);
    }
    r := AddLineInTransaction(db, cart.id, productId, quantity, failing);
  }

  /** The transaction of `AddItemToCart`, on a working copy of the tables. */
  method AddLineInTransaction(db: Database, cartId: int, productId: int, quantity: int, failing: set<Write>) returns (r: Result<CartItem>)
    modifies db
    ensures Outcome(r, db.Snapshot()) == AddLine(old(db.Snapshot()), cartId, productId, quantity, failing)
  {
    var tx := db.Snapshot();
    var existing := LineOf(tx.cartItems.rows, cartId, productId);
    if existing.Some? && existing.value.id > 0 {
      var line := Raised(existing.value, quantity);
      if UpdateCartItemRow in failing {
        return Err(StorageFailure);
      }
      tx := SetLineQuantity(tx, line.id, line.quantity);
      if CommitTx in failing {
        return Err(StorageFailure);
      }
      db.Commit(tx);
      return Ok(line);
    }
    var line := CartItem(tx.cartItems.nextId, cartId, productId, quantity);
    if InsertCartItem in failing {
      return Err(StorageFailure);
    }
    tx := InsertLine(tx, line);
    if CommitTx in failing {
      return Err(StorageFailure);
    }
    db.Commit(tx);
    r := Ok(line);
  }

  // UpdateCartItem

  /** `UpdateCartItem`: with a positive id and quantity, sets the quantity of
      the line with that id, in whoever's cart it is; a missing id updates no
      row and still succeeds. The answer echoes the quantity. */
  function UpdateItemOutcome(s: State, itemId: int, quantity: int, failing: set<Write>): Outcome<int> {
    if itemId <= 0 || quantity <= 0 then Outcome(Err(ValidationFailed), s)
    else if BeginTx in failing || UpdateCartItemRow in failing || CommitTx in failing then Outcome(Err(StorageFailure), s)
    else Outcome(Ok(quantity), SetLineQuantity(s, itemId, quantity))
  }

  lemma UpdateItemKeepsConsistent(s: State, itemId: int, quantity: int, failing: set<Write>)
    requires Consistent(s)
    ensures Consistent(UpdateItemOutcome(s, itemId, quantity, failing).after)
  {
    if itemId > 0 && quantity > 0 {
      SetQuantityKeepsConsistent(s, itemId, quantity);
    }
  }

  /** A non-positive id or quantity is rejected before storage is touched; a
      success gives the named line the new quantity, in the same cart and
      for the same product, and changes no other line
      and no other table; with no such line it changes nothing at all. */
  lemma UpdateItemSetsOnlyThatLine(s: State, itemId: int, quantity: int, failing: set<Write>)
    ensures var o := UpdateItemOutcome(s, itemId, quantity, failing);
      && (o.result == Err(ValidationFailed) <==> itemId <= 0 || quantity <= 0)
      && (o.result.Err? ==> o.after == s)
      && (o.result.Ok? ==>
            && o.after == WithLines(s, o.after.cartItems.rows)
            && |o.after.cartItems.rows| == |s.cartItems.rows|
            && (forall l :: l in o.after.cartItems.rows && l.id == itemId ==> l.quantity == quantity)
            && Where(o.after.cartItems.rows, LineWithId(itemId))
                 == Update(Where(s.cartItems.rows, LineWithId(itemId)), LineWithId(itemId), WithQuantity(quantity))
            && Where(o.after.cartItems.rows, OtherLine(itemId)) == Where(s.cartItems.rows, OtherLine(itemId))
            && (Where(s.cartItems.rows, LineWithId(itemId)) == [] ==> o.after == s))
  {
    var o := UpdateItemOutcome(s, itemId, quantity, failing);
    if o.result.Ok? {
      var rows, f := s.cartItems.rows, WithQuantity(quantity);
      forall l | l in o.after.cartItems.rows && l.id == itemId ensures l.quantity == quantity {
        UpdateMembers(rows, LineWithId(itemId), f, l);
      }
      WhereOfUpdate(rows, LineWithId(itemId), f, OtherLine(itemId));
      WhereOfUpdate(rows, LineWithId(itemId), f, LineWithId(itemId));
      UpdateNone(Where(rows, OtherLine(itemId)), LineWithId(itemId), f);
      if Where(rows, LineWithId(itemId)) == [] {
        UpdateNone(rows, LineWithId(itemId), f);
      }
    }
  }

  /** `UpdateCartItem`. */
  method UpdateCartItem(db: Database, itemId: int, quantity: int, failing: set<Write>) returns (r: Result<int>)
    requires db.Valid()
    modifies db
    ensures db.Valid()
    ensures Outcome(r, db.Snapshot()) == UpdateItemOutcome(old(db.Snapshot()), itemId, quantity, failing)
  {
    UpdateItemKeepsConsistent(db.Snapshot(), itemId, quantity, failing);
    if itemId <= 0 || quantity <= 0 {
      return Err(ValidationFailed);
    }
    if BeginTx in failing {
      return Err(StorageFailure);
    }
    var tx := db.Snapshot();
    if UpdateCartItemRow in failing {
      return Err(StorageFailure);
    }
    tx := SetLineQuantity(tx, itemId, quantity);
    if CommitTx in failing {
      return Err(StorageFailure);
    }
    db.Commit(tx);
    r := Ok(quantity);
  }

  // RemoveItemFromCart

  /** `RemoveItemFromCart`: the route parameter must parse as an integer
      (`None` when it does not); then every line with that id is deleted,
      whoever's cart it is in. */
  function RemoveItemOutcome(s: State, itemId: Option<int>, failing: set<Write>): Outcome<()> {
    match itemId
    case None => Outcome(Err(ValidationFailed), s)
    case Some(id) =>
      if BeginTx in failing || DeleteCartItemRow in failing || CommitTx in failing then Outcome(Err(StorageFailure), s)
      else Outcome(Ok(()), DeleteLines(s, OtherLine(id)))
  }

  lemma RemoveItemKeepsConsistent(s: State, itemId: Option<int>, failing: set<Write>)
    requires Consistent(s)
    ensures Consistent(RemoveItemOutcome(s, itemId, failing).after)
  {
    if itemId.Some? {
      DeleteLinesKeepsConsistent(s, OtherLine(itemId.value));
    }
  }

  /** A success deletes the line with the id, at most one line since ids are
      distinct, and changes no other line and no other table; a failure
      changes nothing. */
  lemma RemoveItemDeletesOnlyThatLine(s: State, itemId: Option<int>, failing: set<Write>)
    requires Consistent(s)
    ensures var o := RemoveItemOutcome(s, itemId, failing);
      && (o.result.Err? ==> o.after == s)
      && (o.result.Ok? ==>
            && o.after == WithLines(s, o.after.cartItems.rows)
            && (forall l :: l in o.after.cartItems.rows <==> l in s.cartItems.rows && l.id != itemId.value)
            && |o.after.cartItems.rows| == |s.cartItems.rows| - |Where(s.cartItems.rows, LineWithId(itemId.value))|
            && |s.cartItems.rows| - 1 <= |o.after.cartItems.rows|)
  {
    if itemId.Some? {
      WherePartition(s.cartItems.rows, LineWithId(itemId.value), OtherLine(itemId.value));
    }
  }

  /** `RemoveItemFromCart`. */
  method RemoveItemFromCart(db: Database, itemId: Option<int>, failing: set<Write>) returns (r: Result<()>)
    requires db.Valid()
    modifies db
    ensures db.Valid()
    ensures Outcome(r, db.Snapshot()) == RemoveItemOutcome(old(db.Snapshot()), itemId, failing)
  {
    RemoveItemKeepsConsistent(db.Snapshot(), itemId, failing);
    if itemId.None? {
      return Err(ValidationFailed);
    }
    if BeginTx in failing {
      return Err(StorageFailure);
    }
    var tx := db.Snapshot();
    if DeleteCartItemRow in failing {
      return Err(StorageFailure);
    }
    tx := DeleteLines(tx, OtherLine(itemId.value));
    if CommitTx in failing {
      return Err(StorageFailure);
    }
    db.Commit(tx);
    return Ok(());
  }
}
