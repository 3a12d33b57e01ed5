/**
 * The cart endpoints: get (creating an empty cart on first use), add, update a
 * line's quantity, remove a product's line, and clear. Each handler is one step
 * over the store; what it answers and what it stores are given by a function of
 * the request and the stored state, and the lemmas state the endpoint's rules.
 */
module CartRoutes {
  import opened Common
  import opened Catalog
  import opened CartModel
  import opened Store

  /** The user's stored cart, or the empty cart a handler creates. */
  function CartOrEmpty(carts: map<UserId, Cart>, user: UserId): Cart
  {
    if user in carts then carts[user] else EmptyCart(user)
  }

  /** A cart as the pre-save hook leaves it. */
  function Saved(c: Cart): (r: Cart)
    ensures TotalsConsistent(r) && r.items == c.items && r.user == c.user
  {
    c.(subtotal := Subtotal(c.items), total := Subtotal(c.items))
  }

  /** The schema validation a cart save runs before the hook. */
  predicate SaveValidates(c: Cart)
  {
    LinesValid(c.items) && c.subtotal >= 0 && c.total >= 0
  }

  /** The stored carts after a handler: the saved cart on success, nothing written on failure. */
  function Commit(carts: map<UserId, Cart>, user: UserId, r: Result<Cart, ApiError>): map<UserId, Cart>
  {
    if r.Success? then carts[user := r.value] else carts
  }

  // ---------------------------------------------------------------- add

  /** `const { quantity = 1 } = req.body`: an omitted quantity is one unit. */
  function RequestedQuantity(quantity: Option<int>): (q: int)
    ensures quantity.None? ==> q == 1
    ensures quantity.Some? ==> q == quantity.value
  {
    if quantity.Some? then quantity.value else 1
  }

  /**
   * The outcome of adding `q` of a product to the user's cart. An add fails only
   * as not found, for stock or at validation; one that succeeds was for an active
   * product with at least `q` in stock, and gives a cart whose lines pass the
   * schema and whose totals are the sum of its lines.
   */
  function AddToCartResult(products: map<ProductId, Product>, carts: map<UserId, Cart>,
                           user: UserId, product: ProductId, q: int): (r: Result<Cart, ApiError>)
    ensures r.Failure? ==> r.error == ProductNotFound || r.error == InsufficientStock || r.error == ValidationFailed
    ensures r.Success? ==> product in products && products[product].isActive && q <= products[product].stockQuantity
    ensures r.Success? ==> LinesValid(r.value.items) && TotalsConsistent(r.value)
  {
    if product !in products || !products[product].isActive then Failure(ProductNotFound)
    else if products[product].stockQuantity < q then Failure(InsufficientStock)
    else
      var c := CartOrEmpty(carts, user);
      var next := c.(items := AddLine(c.items, product, q, products[product].price));
      if !SaveValidates(next) then Failure(ValidationFailed) else Success(Saved(next))
  }

  /**
   * An add fails as not found exactly when the product is missing or inactive,
   * for stock exactly when the stock is below the requested quantity (whatever
   * the cart already holds), and at validation exactly when the product's line
   * would end below one unit. On success the cart holds `AddLine` of its lines
   * at the current price, with consistent totals.
   */
  lemma AddToCartOutcome(products: map<ProductId, Product>, carts: map<UserId, Cart>,
                         user: UserId, product: ProductId, q: int)
    requires ProductsValid(products) && CartsValid(carts)
    ensures var r := AddToCartResult(products, carts, user, product, q);
            var c := CartOrEmpty(carts, user);
            (r == Failure(ProductNotFound) <==> product !in products || !products[product].isActive)
            && (r == Failure(InsufficientStock) <==>
                  product in products && products[product].isActive && products[product].stockQuantity < q)
            && (r == Failure(ValidationFailed) <==>
                  product in products && products[product].isActive && products[product].stockQuantity >= q
                  && QuantityOf(c.items, product) + q < 1)
            && (r.Success? ==>
                  r.value.user == user && TotalsConsistent(r.value)
                  && r.value.items == AddLine(c.items, product, q, products[product].price))
  {
    var c := CartOrEmpty(carts, user);
    if product in products && products[product].isActive && products[product].stockQuantity >= q {
      AddLineEffect(c.items, product, q, products[product].price);
      AddLineValid(c.items, product, q, products[product].price);
      SubtotalNonNegative(c.items);
    }
  }

  /** An add of at least one unit of an active product with enough stock succeeds. */
  lemma AddToCartSucceeds(products: map<ProductId, Product>, carts: map<UserId, Cart>,
                          user: UserId, product: ProductId, q: int)
    requires ProductsValid(products) && CartsValid(carts)
    requires product in products && products[product].isActive
    requires 1 <= q <= products[product].stockQuantity
    ensures AddToCartResult(products, carts, user, product, q).Success?
  {
    AddToCartOutcome(products, carts, user, product, q);
    var c := CartOrEmpty(carts, user);
    match LineIndex(c.items, product)
    case None =>
    case Some(i) => assert c.items[i].quantity >= 1;
  }

  /**
   * A request that omits the quantity adds one unit: for an active product in
   * stock it succeeds, and the product's line holds one more unit at the
   * current price.
   */
  lemma AddOmittedQuantity(products: map<ProductId, Product>, carts: map<UserId, Cart>,
                           user: UserId, product: ProductId)
    requires ProductsValid(products) && CartsValid(carts)
    requires product in products && products[product].isActive && products[product].stockQuantity >= 1
    ensures var r := AddToCartResult(products, carts, user, product, RequestedQuantity(None));
            var c := CartOrEmpty(carts, user);
            r.Success?
            && LineIndex(r.value.items, product).Some?
            && r.value.items[LineIndex(r.value.items, product).value]
               == CartLine(product, QuantityOf(c.items, product) + 1, products[product].price)
  {
    AddToCartSucceeds(products, carts, user, product, 1);
    AddToCartOutcome(products, carts, user, product, 1);
    var c := CartOrEmpty(carts, user);
    AddLineEffect(c.items, product, 1, products[product].price);
  }

  /** An add keeps every stored cart valid and one line per product. */
  lemma AddToCartKeepsValid(products: map<ProductId, Product>, carts: map<UserId, Cart>,
                            user: UserId, product: ProductId, q: int)
    requires ProductsValid(products) && CartsValid(carts)
    ensures CartsValid(Commit(carts, user, AddToCartResult(products, carts, user, product, q)))
  {
    var r := AddToCartResult(products, carts, user, product, q);
    if r.Success? {
      AddedCartValid(products, carts, user, product, q);
      var m := carts[user := r.value];
      forall u | u in m
        ensures m[u].user == u && CartValid(m[u])
      {
        if u != user { assert m[u] == carts[u]; }
      }
    }
  }

  /** The cart an add produces is valid and belongs to the caller. */
  lemma AddedCartValid(products: map<ProductId, Product>, carts: map<UserId, Cart>,
                       user: UserId, product: ProductId, q: int)
    requires ProductsValid(products) && CartsValid(carts)
    requires AddToCartResult(products, carts, user, product, q).Success?
    ensures var c := AddToCartResult(products, carts, user, product, q).value;
            CartValid(c) && c.user == user
  {
    var c := CartOrEmpty(carts, user);
    AddToCartOutcome(products, carts, user, product, q);
    AddLineEffect(c.items, product, q, products[product].price);
  }

  // ---------------------------------------------------------------- update

  /** The outcome of setting the quantity of the product's line. */
  function UpdateCartItemResult(products: map<ProductId, Product>, carts: map<UserId, Cart>,
                                user: UserId, product: ProductId, q: int): Result<Cart, ApiError>
  {
    if q < 1 then Failure(QuantityBelowOne)
    else if user !in carts then Failure(CartNotFound)
    else
      var c := carts[user];
      match LineIndex(c.items, product)
      case None => Failure(ItemNotFound)
      case Some(i) =>
        if product in products && products[product].stockQuantity < q then Failure(InsufficientStock)
        else
          var next := c.(items := SetQuantity(c.items, i, q));
          if !SaveValidates(next) then Failure(ValidationFailed) else Success(Saved(next))
  }

  /**
   * An update fails, in this order, on a quantity below one, a missing cart, a
   * cart without the product, and (only when the product still exists) stock
   * below the quantity; it never fails validation. On success only that line's
   * quantity changes and its price snapshot is kept.
   */
  lemma UpdateCartItemOutcome(products: map<ProductId, Product>, carts: map<UserId, Cart>,
                              user: UserId, product: ProductId, q: int)
    requires CartsValid(carts)
    ensures var r := UpdateCartItemResult(products, carts, user, product, q);
            (r == Failure(QuantityBelowOne) <==> q < 1)
            && (r == Failure(CartNotFound) <==> q >= 1 && user !in carts)
            && (r == Failure(ItemNotFound) <==>
                  q >= 1 && user in carts && LineIndex(carts[user].items, product).None?)
            && (r == Failure(InsufficientStock) <==>
                  q >= 1 && user in carts && LineIndex(carts[user].items, product).Some?
                  && product in products && products[product].stockQuantity < q)
            && r != Failure(ValidationFailed)
            && (r.Success? ==>
                  var i := LineIndex(carts[user].items, product).value;
                  r.value.user == user && TotalsConsistent(r.value)
                  && r.value.items == SetQuantity(carts[user].items, i, q))
  {
    if q >= 1 && user in carts && LineIndex(carts[user].items, product).Some? {
      var c := carts[user];
      SetQuantityEffect(c.items, LineIndex(c.items, product).value, q);
      SubtotalNonNegative(c.items);
    }
  }

  lemma UpdateCartItemKeepsValid(products: map<ProductId, Product>, carts: map<UserId, Cart>,
                                 user: UserId, product: ProductId, q: int)
    requires CartsValid(carts)
    ensures CartsValid(Commit(carts, user, UpdateCartItemResult(products, carts, user, product, q)))
  {
    var r := UpdateCartItemResult(products, carts, user, product, q);
    if r.Success? {
      var c := carts[user];
      SetQuantityEffect(c.items, LineIndex(c.items, product).value, q);
    }
  }

  // ---------------------------------------------------------------- remove

  /** The outcome of removing the product's line. */
  function RemoveFromCartResult(carts: map<UserId, Cart>, user: UserId, product: ProductId): Result<Cart, ApiError>
  {
    if user !in carts then Failure(CartNotFound)
    else
      var next := carts[user].(items := Without(carts[user].items, product));
      if !SaveValidates(next) then Failure(ValidationFailed) else Success(Saved(next))
  }

  /**
   * A remove fails only when the user has no cart. Otherwise the product has no
   * line afterwards, exactly its line is dropped, and a cart without it is saved
   * unchanged.
   */
  lemma RemoveFromCartOutcome(carts: map<UserId, Cart>, user: UserId, product: ProductId)
    requires CartsValid(carts)
    ensures var r := RemoveFromCartResult(carts, user, product);
            (r.Failure? <==> user !in carts) && (r.Failure? ==> r.error == CartNotFound)
            && (r.Success? ==>
                  var items := carts[user].items;
                  r.value.user == user && TotalsConsistent(r.value)
                  && LineIndex(r.value.items, product).None?
                  && (LineIndex(items, product).None? ==> r.value == carts[user])
                  && (LineIndex(items, product).Some? ==>
                        var i := LineIndex(items, product).value;
                        r.value.items == items[..i] + items[i + 1..]))
  {
    if user in carts {
      var items := carts[user].items;
      WithoutEffect(items, product);
      SubtotalNonNegative(items);
      if LineIndex(items, product).None? {
        WithoutAbsent(items, product);
      } else {
        WithoutPresent(items, product);
      }
    }
  }

  lemma RemoveFromCartKeepsValid(carts: map<UserId, Cart>, user: UserId, product: ProductId)
    requires CartsValid(carts)
    ensures CartsValid(Commit(carts, user, RemoveFromCartResult(carts, user, product)))
  {
    if user in carts {
      WithoutEffect(carts[user].items, product);
      WithoutDistinct(carts[user].items, product);
    }
  }

  // ---------------------------------------------------------------- clear

  /** The stored carts after a clear: the user's cart, if any, emptied with zero totals. */
  function ClearedCarts(carts: map<UserId, Cart>, user: UserId): map<UserId, Cart>
  {
    if user in carts then carts[user := carts[user].(items := [], subtotal := 0, total := 0)] else carts
  }

  /** A clear empties an existing cart, creates none, and touches no other user's cart. */
  lemma ClearCartOutcome(carts: map<UserId, Cart>, user: UserId)
    requires CartsValid(carts)
    ensures var after := ClearedCarts(carts, user);
            CartsValid(after) && after.Keys == carts.Keys
            && (user in carts ==> after[user] == EmptyCart(user))
            && (forall u :: u in carts && u != user ==> after[u] == carts[u])
  {
  }

  // ---------------------------------------------------------------- the handlers

  /** GET: the user's cart, created empty and saved when there is none. */
  method GetCart(db: Database, user: UserId) returns (c: Cart)
    requires db.Valid()
    modifies db`carts
    ensures c == CartOrEmpty(old(db.carts), user)
    ensures db.carts == old(db.carts)[user := c]
    ensures db.Valid()
  {
    if user in db.carts {
      c := db.carts[user];
      return;
    }
    var doc := new CartDocument.New(user);
    doc.PreSave();
    c := doc.Value();
    db.carts := db.carts[user := c];
  }

  /** POST /add. */
  method AddToCart(db: Database, user: UserId, product: ProductId, quantity: Option<int>)
    returns (r: Result<Cart, ApiError>)
    requires db.Valid()
    modifies db`carts
    ensures r == AddToCartResult(old(db.products), old(db.carts), user, product, RequestedQuantity(quantity))
    ensures db.carts == Commit(old(db.carts), user, r)
    ensures db.Valid()
  {
    var q := RequestedQuantity(quantity);
    AddToCartKeepsValid(db.products, db.carts, user, product, q);
    if product !in db.products || !db.products[product].isActive {
      return Failure(ProductNotFound);
    }
    var p := db.products[product];
    if p.stockQuantity < q {
      return Failure(InsufficientStock);
    }
    var doc: CartDocument;
    if user in db.carts {
      doc := new CartDocument.Load(db.carts[user]);
    } else {
      doc := new CartDocument.New(user);
    }
    doc.AddItem(product, q, p.price);
    if !doc.Validates() {
      return Failure(ValidationFailed);
    }
    doc.PreSave();
    r := Success(doc.Value());
    db.carts := db.carts[user := doc.Value()];
  }

  /** PUT /update/:productId. */
  method UpdateCartItem(db: Database, user: UserId, product: ProductId, q: int) returns (r: Result<Cart, ApiError>)
    requires db.Valid()
    modifies db`carts
    ensures r == UpdateCartItemResult(old(db.products), old(db.carts), user, product, q)
    ensures db.carts == Commit(old(db.carts), user, r)
    ensures db.Valid()
  {
    UpdateCartItemKeepsValid(db.products, db.carts, user, product, q);
    if q < 1 {
      return Failure(QuantityBelowOne);
    }
    if user !in db.carts {
      return Failure(CartNotFound);
    }
    var doc := new CartDocument.Load(db.carts[user]);
    var found := FindIndex(doc.items, (l: CartLine) => l.product == product);
    assert found == LineIndex(doc.items, product);
    if found.None? {
      return Failure(ItemNotFound);
    }
    if product in db.products && db.products[product].stockQuantity < q {
      return Failure(InsufficientStock);
    }
    doc.SetItemQuantity(found.value, q);
    if !doc.Validates() {
      return Failure(ValidationFailed);
    }
    doc.PreSave();
    r := Success(doc.Value());
    db.carts := db.carts[user := doc.Value()];
  }

  /** DELETE /remove/:productId. */
  method RemoveFromCart(db: Database, user: UserId, product: ProductId) returns (r: Result<Cart, ApiError>)
    requires db.Valid()
    modifies db`carts
    ensures r == RemoveFromCartResult(old(db.carts), user, product)
    ensures db.carts == Commit(old(db.carts), user, r)
    ensures db.Valid()
  {
    RemoveFromCartKeepsValid(db.carts, user, product);
    if user !in db.carts {
      return Failure(CartNotFound);
    }
    var doc := new CartDocument.Load(db.carts[user]);
    doc.RemoveItem(product);
    if !doc.Validates() {
      return Failure(ValidationFailed);
    }
    doc.PreSave();
    r := Success(doc.Value());
    db.carts := db.carts[user := doc.Value()];
  }

  /** DELETE /clear: a direct update that bypasses the hook. */
  method ClearCart(db: Database, user: UserId)
    requires db.Valid()
    modifies db`carts
    ensures db.carts == ClearedCarts(old(db.carts), user)
    ensures db.Valid()
  {
    ClearCartOutcome(db.carts, user);
    if user in db.carts {
      db.carts := db.carts[user := db.carts[user].(items := [], subtotal := 0, total := 0)];
    }
  }
}
