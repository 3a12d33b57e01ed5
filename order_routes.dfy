/**
 * The order endpoints: place an order from the caller's cart, read one of the
 * caller's orders, and cancel a pending order. Placement checks every cart line
 * against the product's current stock before writing anything, then stores the
 * order, takes the ordered quantities off the stock and empties the cart;
 * cancellation puts the quantities back.
 */
module OrderRoutes {
  import opened Common
  import opened Catalog
  import opened CartModel
  import opened OrderModel
  import opened Store
  import CartRoutes

  /** What the client sends with a new order. */
  datatype OrderRequest = OrderRequest(
    shippingAddress: Address,
    billingAddress: Option<Address>,
    paymentMethod: string,
    prescriptionImage: Option<string>)

  /** The order line for a cart line: the cart quantity at the product's current price. */
  function LineFor(item: CartLine, p: Product): OrderLine
  {
    OrderLine(item.product, item.quantity, p.price, item.quantity * p.price)
  }

  /** The order lines built so far and whether any of their products needs a prescription. */
  datatype CheckedLines = CheckedLines(lines: seq<OrderLine>, prescriptionRequired: bool)

  /**
   * The placement loop over the cart lines. A line whose product is gone stops it
   * (dereferencing the missing product throws, which the handler answers with 400),
   * and so does a line asking for more than the product's stock.
   */
  function CheckLines(products: map<ProductId, Product>, items: seq<CartLine>): Result<CheckedLines, ApiError>
  {
    if |items| == 0 then Success(CheckedLines([], false))
    else
      match CheckLines(products, items[..|items| - 1])
      case Failure(e) => Failure(e)
      case Success(c) =>
        var item := items[|items| - 1];
        if item.product !in products then Failure(ProductUnavailable)
        else if products[item.product].stockQuantity < item.quantity then Failure(InsufficientStock)
        else Success(CheckedLines(c.lines + [LineFor(item, products[item.product])],
                                  c.prescriptionRequired || products[item.product].prescriptionRequired))
  }

  /** The cart line can be ordered: its product exists and has at least the line's quantity in stock. */
  predicate Orderable(products: map<ProductId, Product>, item: CartLine)
  {
    item.product in products && item.quantity <= products[item.product].stockQuantity
  }

  /**
   * The check passes exactly when every line is orderable, and only ever fails as
   * unavailable or short of stock. On success there is one order line per cart
   * line, with the cart's product and quantity, the product's current price and
   * quantity × price as total, and a prescription is required exactly when some
   * line's product requires one.
   */
  lemma CheckLinesOutcome(products: map<ProductId, Product>, items: seq<CartLine>)
    ensures var r := CheckLines(products, items);
            (r.Success? <==> forall i :: 0 <= i < |items| ==> Orderable(products, items[i]))
            && (r.Failure? ==> r.error == ProductUnavailable || r.error == InsufficientStock)
            && (r.Success? ==>
                  |r.value.lines| == |items|
                  && (forall i :: 0 <= i < |items| ==>
                        var l := r.value.lines[i];
                        l.product == items[i].product && l.quantity == items[i].quantity
                        && l.price == products[items[i].product].price && l.total == l.quantity * l.price)
                  && (r.value.prescriptionRequired <==>
                        exists i :: 0 <= i < |items| && products[items[i].product].prescriptionRequired))
  {
    CheckLinesPasses(products, items);
    if CheckLines(products, items).Success? {
      CheckLinesShape(products, items);
      CheckLinesPrescription(products, items);
    }
  }

  /** The check passes exactly when every line is orderable; otherwise it fails as unavailable or short of stock. */
  lemma {:induction false} CheckLinesPasses(products: map<ProductId, Product>, items: seq<CartLine>)
    ensures var r := CheckLines(products, items);
            (r.Success? <==> forall i :: 0 <= i < |items| ==> Orderable(products, items[i]))
            && (r.Failure? ==> r.error == ProductUnavailable || r.error == InsufficientStock)
  {
    if |items| > 0 {
      var n := |items| - 1;
      var prefix := items[..n];
      CheckLinesPasses(products, prefix);
      assert forall i :: 0 <= i < n ==> items[i] == prefix[i];
    }
  }

  /** A prescription is required exactly when some checked line's product requires one. */
  lemma {:induction false} CheckLinesPrescription(products: map<ProductId, Product>, items: seq<CartLine>)
    requires CheckLines(products, items).Success?
    ensures CheckLines(products, items).value.prescriptionRequired <==>
              exists i :: 0 <= i < |items| && items[i].product in products
                          && products[items[i].product].prescriptionRequired
  {
    if |items| > 0 {
      var n := |items| - 1;
      var prefix := items[..n];
      CheckLinesPrescription(products, prefix);
      assert forall i :: 0 <= i < n ==> items[i] == prefix[i];
      if CheckLines(products, items).value.prescriptionRequired && !products[items[n].product].prescriptionRequired {
        var i :| 0 <= i < n && prefix[i].product in products && products[prefix[i].product].prescriptionRequired;
        assert items[i] == prefix[i];
      }
    }
  }

  /** A failing prefix decides the outcome: the loop stops at the first bad line. */
  lemma {:induction false} CheckLinesStops(products: map<ProductId, Product>, items: seq<CartLine>, k: nat)
    requires k <= |items| && CheckLines(products, items[..k]).Failure?
    ensures CheckLines(products, items) == CheckLines(products, items[..k])
    decreases |items| - k
  {
    if k < |items| {
      assert items[..k + 1][..k] == items[..k];
      CheckLinesStops(products, items, k + 1);
    } else {
      assert items[..k] == items;
    }
  }

  /** Each checked line is orderable and its order line is the line for it at the product's price. */
  lemma {:induction false} CheckLinesShape(products: map<ProductId, Product>, items: seq<CartLine>)
    requires CheckLines(products, items).Success?
    ensures var lines := CheckLines(products, items).value.lines;
            |lines| == |items|
            && forall i :: 0 <= i < |items| ==>
                 Orderable(products, items[i]) && lines[i] == LineFor(items[i], products[items[i].product])
  {
    if |items| > 0 {
      var n := |items| - 1;
      var prefix := items[..n];
      CheckLinesShape(products, prefix);
      var lines, c := CheckLines(products, items).value.lines, CheckLines(products, prefix).value.lines;
      assert lines == c + [LineFor(items[n], products[items[n].product])];
      assert forall i :: 0 <= i < n ==> items[i] == prefix[i] && lines[i] == c[i];
    }
  }

  // ---------------------------------------------------------------- stock

  /** The total quantity the lines order of a product. */
  function OrderedQuantity(lines: seq<OrderLine>, product: ProductId): int
  {
    if |lines| == 0 then 0
    else OrderedQuantity(lines[..|lines| - 1], product)
         + (if lines[|lines| - 1].product == product then lines[|lines| - 1].quantity else 0)
  }

  /**
   * The per-line `$inc` writes: each line's quantity taken off (or, to restore,
   * added back to) its product's stock, a line whose product is gone writing nothing.
   */
  function AdjustStock(products: map<ProductId, Product>, lines: seq<OrderLine>, restore: bool): map<ProductId, Product>
  {
    if |lines| == 0 then products
    else
      var ps := AdjustStock(products, lines[..|lines| - 1], restore);
      var l := lines[|lines| - 1];
      if l.product in ps then ps[l.product := Restock(ps[l.product], Signed(l.quantity, restore))]
      else ps
  }

  /** The product with its stock moved by `delta` and every other field kept. */
  function Restock(p: Product, delta: int): Product
  {
    p.(stockQuantity := p.stockQuantity + delta)
  }

  /** A quantity added back when restoring, taken off otherwise. */
  function Signed(q: int, restore: bool): int
  {
    if restore then q else -q
  }

  /** Two stock moves are one move by their sum. */
  lemma RestockTwice(p: Product, a: int, b: int)
    ensures Restock(Restock(p, a), b) == Restock(p, a + b)
  {
  }

  /**
   * The writes keep the set of products, change nothing but stock, and move each
   * product's stock by exactly the quantity the lines order of it.
   */
  lemma {:induction false} AdjustStockEffect(products: map<ProductId, Product>, lines: seq<OrderLine>, restore: bool)
    ensures var after := AdjustStock(products, lines, restore);
            after.Keys == products.Keys
            && forall p :: p in products ==> after[p] == Restock(products[p], Signed(OrderedQuantity(lines, p), restore))
  {
    if |lines| > 0 {
      var n := |lines| - 1;
      var l := lines[n];
      AdjustStockEffect(products, lines[..n], restore);
      var ps := AdjustStock(products, lines[..n], restore);
      var after := AdjustStock(products, lines, restore);
      forall p | p in products
        ensures after[p] == Restock(products[p], Signed(OrderedQuantity(lines, p), restore))
      {
        if p == l.product {
          RestockTwice(products[p], Signed(OrderedQuantity(lines[..n], p), restore), Signed(l.quantity, restore));
        }
      }
    }
  }

  /** Restoring the lines' quantities undoes taking them: cancellation is the inverse of placement. */
  lemma RestoreUndoesTake(products: map<ProductId, Product>, lines: seq<OrderLine>)
    ensures AdjustStock(AdjustStock(products, lines, false), lines, true) == products
  {
    var taken := AdjustStock(products, lines, false);
    AdjustStockEffect(products, lines, false);
    AdjustStockEffect(taken, lines, true);
    var back := AdjustStock(taken, lines, true);
    assert forall p :: p in products ==> back[p] == products[p];
  }

  predicate DistinctLines(lines: seq<OrderLine>)
  {
    forall i, j :: 0 <= i < j < |lines| ==> lines[i].product != lines[j].product
  }

  lemma {:induction false} OrderedQuantityAbsent(lines: seq<OrderLine>, product: ProductId)
    requires forall i :: 0 <= i < |lines| ==> lines[i].product != product
    ensures OrderedQuantity(lines, product) == 0
  {
    if |lines| > 0 {
      OrderedQuantityAbsent(lines[..|lines| - 1], product);
    }
  }

  /** With one line per product, the ordered quantity of a product is its line's quantity. */
  lemma {:induction false} OrderedQuantityOfLine(lines: seq<OrderLine>, product: ProductId, i: nat)
    requires DistinctLines(lines) && i < |lines| && lines[i].product == product
    ensures OrderedQuantity(lines, product) == lines[i].quantity
  {
    var n := |lines| - 1;
    if i == n {
      OrderedQuantityAbsent(lines[..n], product);
    } else {
      assert DistinctLines(lines[..n]);
      OrderedQuantityOfLine(lines[..n], product, i);
    }
  }

  lemma {:induction false} OrderedQuantityNonNegative(lines: seq<OrderLine>, product: ProductId)
    requires OrderLinesValid(lines)
    ensures OrderedQuantity(lines, product) >= 0
  {
    if |lines| > 0 {
      assert OrderLinesValid(lines[..|lines| - 1]);
      OrderedQuantityNonNegative(lines[..|lines| - 1], product);
    }
  }

  // ---------------------------------------------------------------- placing an order

  /**
   * The outcome of placing an order from the user's cart, `nextId` being the new
   * order's id. An order is placed only from a cart with lines, with a known
   * payment method and a complete shipping address, and its lines are within the
   * schema's bounds.
   */
  function PlaceOrderResult(products: map<ProductId, Product>, carts: map<UserId, Cart>, nextId: nat,
                            user: UserId, req: OrderRequest, stamp: Stamp): (r: Result<Order, ApiError>)
    requires 0.0 <= stamp.random < 1.0
    ensures r.Success? ==> user in carts && |carts[user].items| > 0
    ensures r.Success? ==> ParsePaymentMethod(req.paymentMethod).Some? && ShippingAddressValid(req.shippingAddress)
    ensures r.Success? ==> OrderLinesValid(r.value.items) && r.value.id == nextId && r.value.user == user
  {
    if user !in carts || |carts[user].items| == 0 then Failure(CartEmpty)
    else
      var cart := carts[user];
      match CheckLines(products, cart.items)
      case Failure(e) => Failure(e)
      case Success(c) =>
        var payment := ParsePaymentMethod(req.paymentMethod);
        if payment.None? || !ShippingAddressValid(req.shippingAddress)
           || !OrderLinesValid(c.lines) || cart.subtotal < 0 then Failure(ValidationFailed)
        else
          var total := LineTotals(c.lines);
          Success(Order(nextId, user, c.lines, total, 0, 0, total, Pending, TrackingNumber(stamp),
                        NewOrderDetails(payment.value, req.shippingAddress, req.billingAddress,
                                        c.prescriptionRequired, req.prescriptionImage)))
  }

  /** The lines of the user's cart; none when there is no cart. */
  function CartItems(carts: map<UserId, Cart>, user: UserId): seq<CartLine>
  {
    if user in carts then carts[user].items else []
  }

  predicate AllOrderable(products: map<ProductId, Product>, items: seq<CartLine>)
  {
    forall i :: 0 <= i < |items| ==> Orderable(products, items[i])
  }

  /**
   * Placement fails with an empty cart exactly when the user has no cart or it has
   * no lines; as unavailable or short of stock exactly when some line is not
   * orderable; and at validation exactly when the payment method is unknown or the
   * shipping address is incomplete.
   */
  lemma PlaceOrderFailures(products: map<ProductId, Product>, carts: map<UserId, Cart>, nextId: nat,
                           user: UserId, req: OrderRequest, stamp: Stamp)
    requires ProductsValid(products) && CartsValid(carts) && 0.0 <= stamp.random < 1.0
    ensures PlaceOrderResult(products, carts, nextId, user, req, stamp) == Failure(CartEmpty)
            <==> |CartItems(carts, user)| == 0
    ensures (PlaceOrderResult(products, carts, nextId, user, req, stamp) == Failure(ProductUnavailable)
             || PlaceOrderResult(products, carts, nextId, user, req, stamp) == Failure(InsufficientStock))
            <==> |CartItems(carts, user)| > 0 && !AllOrderable(products, CartItems(carts, user))
    ensures PlaceOrderResult(products, carts, nextId, user, req, stamp) == Failure(ValidationFailed)
            <==> |CartItems(carts, user)| > 0 && AllOrderable(products, CartItems(carts, user))
                 && (ParsePaymentMethod(req.paymentMethod).None? || !ShippingAddressValid(req.shippingAddress))
  {
    if user in carts && |carts[user].items| > 0 {
      var items := carts[user].items;
      CheckLinesOutcome(products, items);
      SubtotalNonNegative(items);
      if CheckLines(products, items).Success? {
        CheckedLinesValid(products, items);
      }
    }
  }

  /** A placed order's lines and prescription flag are those the check built from the cart. */
  lemma PlacedFromCheck(products: map<ProductId, Product>, carts: map<UserId, Cart>, nextId: nat,
                        user: UserId, req: OrderRequest, stamp: Stamp, o: Order)
    requires 0.0 <= stamp.random < 1.0
    requires PlaceOrderResult(products, carts, nextId, user, req, stamp) == Success(o)
    ensures user in carts && |carts[user].items| > 0
    ensures CheckLines(products, carts[user].items) == Success(CheckedLines(o.items, o.details.prescriptionRequired))
  {
  }

  /** Lines built from valid cart lines and valid products pass the line bounds. */
  lemma CheckedLinesValid(products: map<ProductId, Product>, items: seq<CartLine>)
    requires ProductsValid(products) && LinesValid(items) && CheckLines(products, items).Success?
    ensures OrderLinesValid(CheckLines(products, items).value.lines)
  {
    CheckLinesOutcome(products, items);
    var lines := CheckLines(products, items).value.lines;
    forall i | 0 <= i < |lines|
      ensures OrderLineValid(lines[i])
    {
      assert LineValid(items[i]);
      assert ProductValid(products[items[i].product]);
    }
  }

  /**
   * A placed order takes the next id and belongs to the caller; it is pending with
   * payment pending and no prescription approval, records the payment method and
   * the trimmed shipping address, charges no tax or shipping, totals the sum of
   * its line totals, and carries the stamp's tracking number.
   */
  lemma PlacedOrderHeader(products: map<ProductId, Product>, carts: map<UserId, Cart>, nextId: nat,
                          user: UserId, req: OrderRequest, stamp: Stamp, o: Order)
    requires 0.0 <= stamp.random < 1.0
    requires PlaceOrderResult(products, carts, nextId, user, req, stamp) == Success(o)
    ensures o.id == nextId && o.user == user && o.status == Pending
    ensures o.details.paymentStatus == PaymentPending && !o.details.prescriptionApproved
    ensures PaymentMethodName(o.details.paymentMethod) == req.paymentMethod
    ensures o.details.shippingAddress == TrimAddress(req.shippingAddress)
    ensures o.tax == 0 && o.shipping == 0 && o.subtotal == LineTotals(o.items) && o.total == o.subtotal
    ensures o.trackingNumber == TrackingNumber(stamp)
  {
  }

  /**
   * A placed order carries one line per cart line, with the cart's product and
   * quantity at the product's current price, and needs a prescription exactly
   * when one of the products does.
   */
  lemma PlacedOrderLines(products: map<ProductId, Product>, carts: map<UserId, Cart>, nextId: nat,
                         user: UserId, req: OrderRequest, stamp: Stamp, o: Order)
    requires 0.0 <= stamp.random < 1.0
    requires PlaceOrderResult(products, carts, nextId, user, req, stamp) == Success(o)
    ensures user in carts && |o.items| == |carts[user].items|
    ensures forall i :: 0 <= i < |o.items| ==>
              var item := carts[user].items[i];
              item.product in products
              && o.items[i].product == item.product && o.items[i].quantity == item.quantity
              && o.items[i].price == products[item.product].price
              && o.items[i].total == o.items[i].quantity * o.items[i].price
    ensures o.details.prescriptionRequired <==>
              exists i :: 0 <= i < |carts[user].items|
                          && products[carts[user].items[i].product].prescriptionRequired
  {
    CheckLinesOutcome(products, carts[user].items);
  }

  /**
   * After a placement each product's stock has dropped by exactly the quantity of
   * its cart line (nothing for a product not in the cart) and stays non-negative;
   * no other product field changes.
   */
  lemma PlaceOrderStock(products: map<ProductId, Product>, carts: map<UserId, Cart>, nextId: nat,
                        user: UserId, req: OrderRequest, stamp: Stamp)
    requires ProductsValid(products) && CartsValid(carts) && 0.0 <= stamp.random < 1.0
    requires PlaceOrderResult(products, carts, nextId, user, req, stamp).Success?
    ensures var o := PlaceOrderResult(products, carts, nextId, user, req, stamp).value;
            var after := AdjustStock(products, o.items, false);
            after.Keys == products.Keys
            && forall p :: p in products ==>
                 after[p] == Restock(products[p], -QuantityOf(carts[user].items, p))
                 && after[p].stockQuantity >= 0
  {
    var o := PlaceOrderResult(products, carts, nextId, user, req, stamp).value;
    PlacedFromCheck(products, carts, nextId, user, req, stamp, o);
    assert CartValid(carts[user]);
    CheckedStock(products, carts[user].items);
  }

  /** Taking the checked lines off the stock takes each product's cart quantity, and leaves no stock negative. */
  lemma CheckedStock(products: map<ProductId, Product>, items: seq<CartLine>)
    requires ProductsValid(products) && DistinctProducts(items) && CheckLines(products, items).Success?
    ensures var after := AdjustStock(products, CheckLines(products, items).value.lines, false);
            after.Keys == products.Keys
            && forall p :: p in products ==>
                 after[p] == Restock(products[p], -QuantityOf(items, p)) && after[p].stockQuantity >= 0
  {
    var lines := CheckLines(products, items).value.lines;
    AdjustStockEffect(products, lines, false);
    forall p | p in products
      ensures OrderedQuantity(lines, p) == QuantityOf(items, p) <= products[p].stockQuantity
    {
      CheckedQuantity(products, items, p);
    }
  }

  /**
   * The checked lines order of each product exactly its cart quantity, which is
   * within the product's stock.
   */
  lemma CheckedQuantity(products: map<ProductId, Product>, items: seq<CartLine>, p: ProductId)
    requires ProductsValid(products) && DistinctProducts(items) && CheckLines(products, items).Success?
    ensures OrderedQuantity(CheckLines(products, items).value.lines, p) == QuantityOf(items, p)
    ensures p in products ==> QuantityOf(items, p) <= products[p].stockQuantity
  {
    CheckLinesShape(products, items);
    LinesQuantity(products, items, CheckLines(products, items).value.lines, p);
  }

  /** Lines that copy orderable, distinct cart lines order of each product its cart quantity. */
  lemma LinesQuantity(products: map<ProductId, Product>, items: seq<CartLine>, lines: seq<OrderLine>, p: ProductId)
    requires ProductsValid(products) && DistinctProducts(items) && |lines| == |items|
    requires forall i :: 0 <= i < |items| ==>
               Orderable(products, items[i]) && lines[i] == LineFor(items[i], products[items[i].product])
    ensures OrderedQuantity(lines, p) == QuantityOf(items, p)
    ensures p in products ==> QuantityOf(items, p) <= products[p].stockQuantity
  {
    assert DistinctLines(lines);
    match LineIndex(items, p)
    case None =>
      OrderedQuantityAbsent(lines, p);
    case Some(i) =>
      OrderedQuantityOfLine(lines, p, i);
      assert Orderable(products, items[i]);
  }

  /** Appending an order with the next id keeps the orders valid under the advanced counter. */
  lemma AppendOrder(orders: seq<Order>, nextId: nat, o: Order)
    requires OrdersValid(orders, nextId) && o.id == nextId && OrderValid(o)
    ensures OrdersValid(orders + [o], nextId + 1)
  {
  }

  lemma AdvanceReviews(reviews: seq<ReviewModel.Review>, nextId: nat)
    requires ReviewsValid(reviews, nextId)
    ensures ReviewsValid(reviews, nextId + 1)
  {
  }

  /** A placement keeps the store valid. */
  lemma PlaceOrderKeepsValid(products: map<ProductId, Product>, carts: map<UserId, Cart>,
                             orders: seq<Order>, reviews: seq<ReviewModel.Review>, nextId: nat,
                             user: UserId, req: OrderRequest, stamp: Stamp, o: Order)
    requires ProductsValid(products) && CartsValid(carts) && 0.0 <= stamp.random < 1.0
    requires OrdersValid(orders, nextId) && ReviewsValid(reviews, nextId)
    requires PlaceOrderResult(products, carts, nextId, user, req, stamp) == Success(o)
    ensures ProductsValid(AdjustStock(products, o.items, false))
    ensures CartsValid(CartRoutes.ClearedCarts(carts, user))
    ensures OrdersValid(orders + [o], nextId + 1)
    ensures ReviewsValid(reviews, nextId + 1)
  {
    PlacedStockValid(products, carts, nextId, user, req, stamp, o);
    CartRoutes.ClearCartOutcome(carts, user);
    PlacedOrderValid(products, carts, nextId, user, req, stamp, o);
    AppendOrder(orders, nextId, o);
    AdvanceReviews(reviews, nextId);
  }

  /** The stock a placement leaves passes the product schema. */
  lemma PlacedStockValid(products: map<ProductId, Product>, carts: map<UserId, Cart>, nextId: nat,
                         user: UserId, req: OrderRequest, stamp: Stamp, o: Order)
    requires ProductsValid(products) && CartsValid(carts) && 0.0 <= stamp.random < 1.0
    requires PlaceOrderResult(products, carts, nextId, user, req, stamp) == Success(o)
    ensures ProductsValid(AdjustStock(products, o.items, false))
  {
    PlaceOrderStock(products, carts, nextId, user, req, stamp);
    var after := AdjustStock(products, o.items, false);
    forall p | p in after
      ensures ProductValid(after[p])
    {
      assert ProductValid(products[p]);
    }
  }

  /** A placed order has the next id and passes the order schema. */
  lemma PlacedOrderValid(products: map<ProductId, Product>, carts: map<UserId, Cart>, nextId: nat,
                         user: UserId, req: OrderRequest, stamp: Stamp, o: Order)
    requires 0.0 <= stamp.random < 1.0
    requires PlaceOrderResult(products, carts, nextId, user, req, stamp) == Success(o)
    ensures o.id == nextId && OrderValid(o)
  {
    LineTotalsNonNegative(o.items);
    TrimAddressSettles(req.shippingAddress);
  }

  /** The placement loop: the order lines and the prescription flag, or the first failing line. */
  method BuildLines(products: map<ProductId, Product>, items: seq<CartLine>) returns (r: Result<CheckedLines, ApiError>)
    ensures r == CheckLines(products, items)
  {
    var lines: seq<OrderLine> := [];
    var prescriptionRequired := false;
    for k := 0 to |items|
      invariant CheckLines(products, items[..k]) == Success(CheckedLines(lines, prescriptionRequired))
    {
      var item := items[k];
      assert items[..k + 1][..k] == items[..k];
      if item.product !in products {
        CheckLinesStops(products, items, k + 1);
        return Failure(ProductUnavailable);
      }
      var p := products[item.product];
      if p.stockQuantity < item.quantity {
        CheckLinesStops(products, items, k + 1);
        return Failure(InsufficientStock);
      }
      if p.prescriptionRequired {
        prescriptionRequired := true;
      }
      lines := lines + [OrderLine(item.product, item.quantity, p.price, item.quantity * p.price)];
    }
    assert items[..|items|] == items;
    r := Success(CheckedLines(lines, prescriptionRequired));
  }

  /** The per-line `$inc` writes, one product at a time. */
  method ApplyStock(db: Database, lines: seq<OrderLine>, restore: bool)
    modifies db`products
    ensures db.products == AdjustStock(old(db.products), lines, restore)
  {
    ghost var before := db.products;
    for k := 0 to |lines|
      invariant db.products == AdjustStock(before, lines[..k], restore)
    {
      assert lines[..k + 1][..k] == lines[..k];
      var l := lines[k];
      if l.product in db.products {
        db.products := db.products[l.product := Restock(db.products[l.product], Signed(l.quantity, restore))];
      }
    }
    assert lines[..|lines|] == lines;
  }

  /** POST: place an order from the caller's cart. */
  method PlaceOrder(db: Database, user: UserId, req: OrderRequest, stamp: Stamp) returns (r: Result<Order, ApiError>)
    requires db.Valid() && 0.0 <= stamp.random < 1.0
    modifies db`products, db`carts, db`orders, db`nextId
    ensures r == PlaceOrderResult(old(db.products), old(db.carts), old(db.nextId), user, req, stamp)
    ensures r.Failure? ==> db.products == old(db.products) && db.carts == old(db.carts)
                           && db.orders == old(db.orders) && db.nextId == old(db.nextId)
    ensures r.Success? ==> db.orders == old(db.orders) + [r.value] && db.nextId == old(db.nextId) + 1
                           && db.products == AdjustStock(old(db.products), r.value.items, false)
                           && db.carts == CartRoutes.ClearedCarts(old(db.carts), user)
    ensures db.Valid()
  {
    if user !in db.carts || |db.carts[user].items| == 0 {
      return Failure(CartEmpty);
    }
    r := PrepareOrder(db.products, db.carts, db.nextId, user, req, stamp);
    if r.Failure? {
      return;
    }
    PlaceOrderKeepsValid(db.products, db.carts, db.orders, db.reviews, db.nextId, user, req, stamp, r.value);
    StoreOrder(db, user, r.value);
  }

  /**
   * The order a placement would store, built from the caller's non-empty cart
   * through the order document and its hooks, or why it cannot be placed.
   */
  method PrepareOrder(products: map<ProductId, Product>, carts: map<UserId, Cart>, nextId: nat,
                      user: UserId, req: OrderRequest, stamp: Stamp) returns (r: Result<Order, ApiError>)
    requires user in carts && |carts[user].items| > 0 && 0.0 <= stamp.random < 1.0
    ensures r == PlaceOrderResult(products, carts, nextId, user, req, stamp)
  {
    var cart := carts[user];
    var checked := BuildLines(products, cart.items);
    if checked.Failure? {
      return Failure(checked.error);
    }
    var lines := checked.value.lines;
    var payment := ParsePaymentMethod(req.paymentMethod);
    if payment.None? || !ShippingAddressValid(req.shippingAddress) || !OrderLinesValid(lines) || cart.subtotal < 0 {
      return Failure(ValidationFailed);
    }
    var details := NewOrderDetails(payment.value, req.shippingAddress, req.billingAddress,
                                   checked.value.prescriptionRequired, req.prescriptionImage);
    var doc := new OrderDocument.New(nextId, user, lines, cart.subtotal, 0, 0, cart.subtotal, details);
    doc.PreSave(true, true, stamp);
    r := Success(doc.Value());
  }

  /** The writes of a placement: the order stored, its quantities taken off the stock, the cart emptied. */
  method StoreOrder(db: Database, user: UserId, order: Order)
    requires user in db.carts && db.Valid()
    requires ProductsValid(AdjustStock(db.products, order.items, false))
    requires CartsValid(CartRoutes.ClearedCarts(db.carts, user))
    requires OrdersValid(db.orders + [order], db.nextId + 1) && ReviewsValid(db.reviews, db.nextId + 1)
    modifies db`products, db`carts, db`orders, db`nextId
    ensures db.Valid()
    ensures db.orders == old(db.orders) + [order] && db.nextId == old(db.nextId) + 1
    ensures db.products == AdjustStock(old(db.products), order.items, false)
    ensures db.carts == CartRoutes.ClearedCarts(old(db.carts), user)
  {
    db.orders := db.orders + [order];
    db.nextId := db.nextId + 1;
    ApplyStock(db, order.items, false);
    db.carts := db.carts[user := db.carts[user].(items := [], subtotal := 0, total := 0)];
  }

  // ---------------------------------------------------------------- reading and cancelling

  /** `Order.findOne({ _id: id, user })`: the position of the caller's order with that id. */
  function FindOrder(orders: seq<Order>, user: UserId, id: OrderId): (r: Option<nat>)
    ensures r.Some? ==> r.value < |orders| && orders[r.value].id == id && orders[r.value].user == user
    ensures r.None? <==> forall j :: 0 <= j < |orders| ==> orders[j].id != id || orders[j].user != user
  {
    if |orders| == 0 then None
    else if orders[0].id == id && orders[0].user == user then Some(0)
    else
      match FindOrder(orders[1..], user, id)
      case None => None
      case Some(k) => Some(k + 1)
  }

  /** GET /:id: the order only when the caller owns it; another user's order is not found. */
  function GetOrderResult(orders: seq<Order>, user: UserId, id: OrderId): (r: Result<Order, ApiError>)
    ensures r.Success? ==> r.value in orders && r.value.id == id && r.value.user == user
    ensures r.Failure? <==> forall j :: 0 <= j < |orders| ==> orders[j].id != id || orders[j].user != user
    ensures r.Failure? ==> r.error == OrderNotFound
  {
    match FindOrder(orders, user, id)
    case None => Failure(OrderNotFound)
    case Some(i) => Success(orders[i])
  }

  /** The outcome of cancelling: the cancelled order, or why not. */
  function CancelOrderResult(orders: seq<Order>, user: UserId, id: OrderId): Result<Order, ApiError>
  {
    match FindOrder(orders, user, id)
    case None => Failure(OrderNotFound)
    case Some(i) =>
      if orders[i].status != Pending then Failure(CannotCancel) else Success(orders[i].(status := Cancelled))
  }

  /**
   * A cancel fails as not found exactly when the caller owns no order with the id,
   * and as not cancellable exactly when the caller's order is not pending. A
   * cancelled order differs from the stored one in its status alone.
   */
  lemma CancelOrderOutcome(orders: seq<Order>, user: UserId, id: OrderId)
    ensures var r := CancelOrderResult(orders, user, id);
            var found := FindOrder(orders, user, id);
            (r == Failure(OrderNotFound) <==>
               forall j :: 0 <= j < |orders| ==> orders[j].id != id || orders[j].user != user)
            && (r == Failure(CannotCancel) <==> found.Some? && orders[found.value].status != Pending)
            && (r.Success? ==>
                  found.Some? && orders[found.value].status == Pending
                  && r.value.status == Cancelled && r.value.(status := Pending) == orders[found.value])
  {
  }

  /** A cancel keeps the store valid: restored stock stays non-negative and the order keeps its bounds. */
  lemma CancelOrderKeepsValid(products: map<ProductId, Product>, orders: seq<Order>, nextId: nat,
                              user: UserId, id: OrderId)
    requires ProductsValid(products) && OrdersValid(orders, nextId)
    ensures var r := CancelOrderResult(orders, user, id);
            r.Success? ==>
              ProductsValid(AdjustStock(products, r.value.items, true))
              && OrdersValid(orders[FindOrder(orders, user, id).value := r.value], nextId)
  {
    var r := CancelOrderResult(orders, user, id);
    if r.Success? {
      var i := FindOrder(orders, user, id).value;
      assert OrderValid(orders[i]);
      assert r.value.items == orders[i].items;
      RestoredStockValid(products, r.value.items);
    }
  }

  /** Putting back the quantities of valid lines keeps the products valid. */
  lemma RestoredStockValid(products: map<ProductId, Product>, lines: seq<OrderLine>)
    requires ProductsValid(products) && OrderLinesValid(lines)
    ensures ProductsValid(AdjustStock(products, lines, true))
  {
    AdjustStockEffect(products, lines, true);
    var after := AdjustStock(products, lines, true);
    forall p | p in after
      ensures ProductValid(after[p])
    {
      OrderedQuantityNonNegative(lines, p);
      assert ProductValid(products[p]);
    }
  }

  /**
   * Placing an order and then cancelling it at once succeeds and gives every
   * product back the stock it had before the order.
   */
  lemma PlaceThenCancel(products: map<ProductId, Product>, carts: map<UserId, Cart>, orders: seq<Order>,
                        nextId: nat, user: UserId, req: OrderRequest, stamp: Stamp)
    requires ProductsValid(products) && CartsValid(carts) && OrdersValid(orders, nextId)
    requires 0.0 <= stamp.random < 1.0
    requires PlaceOrderResult(products, carts, nextId, user, req, stamp).Success?
    ensures var o := PlaceOrderResult(products, carts, nextId, user, req, stamp).value;
            var c := CancelOrderResult(orders + [o], user, o.id);
            c.Success? && c.value.items == o.items
            && AdjustStock(AdjustStock(products, o.items, false), c.value.items, true) == products
  {
    var o := PlaceOrderResult(products, carts, nextId, user, req, stamp).value;
    PlacedOrderHeader(products, carts, nextId, user, req, stamp, o);
    CancelFresh(orders, nextId, o);
    RestoreUndoesTake(products, o.items);
  }

  /** A pending order appended under a fresh id is the one its owner's cancel finds, and it is cancelled. */
  lemma CancelFresh(orders: seq<Order>, nextId: nat, o: Order)
    requires OrdersValid(orders, nextId) && o.id == nextId && o.status == Pending
    ensures CancelOrderResult(orders + [o], o.user, o.id) == Success(o.(status := Cancelled))
  {
    var all := orders + [o];
    assert all[|orders|] == o;
    assert forall j :: 0 <= j < |orders| ==> all[j].id < nextId;
    var found := FindOrder(all, o.user, o.id);
    assert found == Some(|orders|);
  }

  /** PUT /:id/cancel. */
  method CancelOrder(db: Database, user: UserId, id: OrderId, stamp: Stamp) returns (r: Result<Order, ApiError>)
    requires db.Valid()
    modifies db`products, db`orders
    ensures r == CancelOrderResult(old(db.orders), user, id)
    ensures r.Failure? ==> db.products == old(db.products) && db.orders == old(db.orders)
    ensures r.Success? ==>
              db.orders == old(db.orders)[FindOrder(old(db.orders), user, id).value := r.value]
              && db.products == AdjustStock(old(db.products), r.value.items, true)
    ensures db.Valid()
  {
    CancelOrderKeepsValid(db.products, db.orders, db.nextId, user, id);
    var i;
    r, i := PrepareCancel(db.orders, user, id, stamp);
    if r.Success? {
      StoreCancel(db, i, r.value);
    }
  }

  /** The checks and the document update of a cancellation: the cancelled order and its position. */
  method PrepareCancel(orders: seq<Order>, user: UserId, id: OrderId, stamp: Stamp) returns (r: Result<Order, ApiError>, i: nat)
    ensures r == CancelOrderResult(orders, user, id)
    ensures r.Success? ==> FindOrder(orders, user, id) == Some(i) && i < |orders|
  {
    var found := FindIndex(orders, (o: Order) => o.id == id && o.user == user);
    assert found == FindOrder(orders, user, id) by {
      FindOrderFirst(orders, user, id);
    }
    if found.None? {
      return Failure(OrderNotFound), 0;
    }
    i := found.value;
    var doc := new OrderDocument.Load(orders[i]);
    if doc.status != Pending {
      return Failure(CannotCancel), i;
    }
    doc.status := Cancelled;
    doc.PreSave(false, false, stamp);
    var order := doc.Value();
    assert order == orders[i].(status := Cancelled);
    r := Success(order);
  }

  /** The writes of a cancellation: the order replaced, its quantities put back. */
  method StoreCancel(db: Database, i: nat, order: Order)
    requires i < |db.orders| && db.Valid()
    requires ProductsValid(AdjustStock(db.products, order.items, true)) && OrdersValid(db.orders[i := order], db.nextId)
    modifies db`products, db`orders
    ensures db.Valid()
    ensures db.orders == old(db.orders)[i := order]
    ensures db.products == AdjustStock(old(db.products), order.items, true)
  {
    db.orders := db.orders[i := order];
    ApplyStock(db, order.items, true);
  }

  /** `FindOrder` gives the first matching position. */
  lemma {:induction false} FindOrderFirst(orders: seq<Order>, user: UserId, id: OrderId)
    ensures var r := FindOrder(orders, user, id);
            r.Some? ==> forall j :: 0 <= j < r.value ==> orders[j].id != id || orders[j].user != user
  {
    if |orders| > 0 && !(orders[0].id == id && orders[0].user == user) {
      FindOrderFirst(orders[1..], user, id);
    }
  }
}
