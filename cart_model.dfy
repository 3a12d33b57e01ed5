/**
 * The shopping cart document: one cart per user holding `{product, quantity,
 * price}` lines, with a subtotal and total that the pre-save hook recomputes
 * from the lines on every save.
 *
 * Prices are integer cents, so the sums are exact.
 */
module CartModel {
  import opened Common
  import Catalog

  type UserId = string

  /** One cart line: the product, how many, and the unit price taken when it was added. */
  datatype CartLine = CartLine(product: Catalog.ProductId, quantity: int, price: int)

  datatype Cart = Cart(user: UserId, items: seq<CartLine>, subtotal: int, total: int)

  /** The amount a line contributes to the subtotal. */
  function Amount(l: CartLine): int { l.price * l.quantity }

  /** The sum of price × quantity over the lines (the hook's `reduce`). */
  function Subtotal(items: seq<CartLine>): int
  {
    if |items| == 0 then 0 else Subtotal(items[..|items| - 1]) + Amount(items[|items| - 1])
  }

  /** The schema bounds of a line: quantity at least 1, price not negative. */
  predicate LineValid(l: CartLine) { l.quantity >= 1 && l.price >= 0 }

  predicate LinesValid(items: seq<CartLine>)
  {
    forall i :: 0 <= i < |items| ==> LineValid(items[i])
  }

  /** No product has two lines. */
  predicate DistinctProducts(items: seq<CartLine>)
  {
    forall i, j :: 0 <= i < j < |items| ==> items[i].product != items[j].product
  }

  /** The totals a saved cart carries: the subtotal of its lines, and the same total. */
  predicate TotalsConsistent(c: Cart)
  {
    c.subtotal == Subtotal(c.items) && c.total == c.subtotal
  }

  /** What every stored cart satisfies. */
  predicate CartValid(c: Cart)
  {
    LinesValid(c.items) && DistinctProducts(c.items) && TotalsConsistent(c)
  }

  /** The cart created for a user who has none. */
  function EmptyCart(user: UserId): (c: Cart)
    ensures CartValid(c) && c.user == user && c.items == []
    ensures c.subtotal == 0 && c.total == 0
  {
    Cart(user, [], 0, 0)
  }

  // ---------------------------------------------------------------- subtotal lemmas

  lemma {:induction false} SubtotalAppend(a: seq<CartLine>, b: seq<CartLine>)
    ensures Subtotal(a + b) == Subtotal(a) + Subtotal(b)
    decreases |b|
  {
    if |b| == 0 {
      assert a + b == a;
    } else {
      var n := |b| - 1;
      SubtotalAppend(a, b[..n]);
      assert (a + b)[..|a + b| - 1] == a + b[..n];
    }
  }

  /** Valid lines never add up to a negative subtotal. */
  lemma {:induction false} SubtotalNonNegative(items: seq<CartLine>)
    requires LinesValid(items)
    ensures Subtotal(items) >= 0
  {
    if |items| > 0 {
      var n := |items| - 1;
      assert LinesValid(items[..n]);
      SubtotalNonNegative(items[..n]);
    }
  }

  /** Replacing one line changes the subtotal by the difference of the two amounts. */
  lemma SubtotalUpdate(items: seq<CartLine>, i: nat, l: CartLine)
    requires i < |items|
    ensures Subtotal(items[i := l]) == Subtotal(items) - Amount(items[i]) + Amount(l)
  {
    assert items == items[..i] + [items[i]] + items[i + 1..];
    assert items[i := l] == items[..i] + [l] + items[i + 1..];
    SubtotalAppend(items[..i] + [items[i]], items[i + 1..]);
    SubtotalAppend(items[..i] + [l], items[i + 1..]);
    SubtotalAppend(items[..i], [items[i]]);
    SubtotalAppend(items[..i], [l]);
  }

  // ---------------------------------------------------------------- finding a product's line

  /** `items.find(item => item.product === product)`, as a position. */
  function LineIndex(items: seq<CartLine>, product: Catalog.ProductId): (r: Option<nat>)
    ensures r.Some? ==> r.value < |items| && items[r.value].product == product
    ensures r.Some? ==> forall j :: 0 <= j < r.value ==> items[j].product != product
    ensures r.None? <==> forall j :: 0 <= j < |items| ==> items[j].product != product
  {
    if |items| == 0 then None
    else if items[0].product == product then Some(0)
    else
      match LineIndex(items[1..], product)
      case None => None
      case Some(k) => Some(k + 1)
  }

  /** The quantity of a product's line, 0 when it has none. */
  function QuantityOf(items: seq<CartLine>, product: Catalog.ProductId): int
  {
    match LineIndex(items, product)
    case None => 0
    case Some(i) => items[i].quantity
  }

  // ---------------------------------------------------------------- the line operations

  /**
   * Adding `q` of a product at the current `price`: an existing line has its
   * quantity raised by `q` and its price refreshed, otherwise one line is appended.
   */
  function AddLine(items: seq<CartLine>, product: Catalog.ProductId, q: int, price: int): seq<CartLine>
  {
    match LineIndex(items, product)
    case Some(i) => items[i := CartLine(product, items[i].quantity + q, price)]
    case None => items + [CartLine(product, q, price)]
  }

  /**
   * `AddLine` touches only the product's line: that line ends with the old
   * quantity plus `q` at the new price, every other line keeps its place and
   * value, at most one line is added, and no product gets a second line.
   */
  lemma AddLineEffect(items: seq<CartLine>, product: Catalog.ProductId, q: int, price: int)
    ensures var r := AddLine(items, product, q, price);
            (|r| == |items| || |r| == |items| + 1)
            && LineIndex(r, product).Some?
            && r[LineIndex(r, product).value] == CartLine(product, QuantityOf(items, product) + q, price)
            && (forall j :: 0 <= j < |items| && items[j].product != product ==> r[j] == items[j])
            && (|r| == |items| + 1 <==> LineIndex(items, product).None?)
    ensures DistinctProducts(items) ==> DistinctProducts(AddLine(items, product, q, price))
  {
    match LineIndex(items, product)
    case Some(i) => AddLineRaised(items, product, q, price, i);
    case None => AddLineAppended(items, product, q, price);
  }

  /** The add when the product has a line: that line is rewritten in place. */
  lemma AddLineRaised(items: seq<CartLine>, product: Catalog.ProductId, q: int, price: int, i: nat)
    requires LineIndex(items, product) == Some(i)
    ensures var r := AddLine(items, product, q, price);
            |r| == |items| && LineIndex(r, product) == Some(i)
            && r[i] == CartLine(product, QuantityOf(items, product) + q, price)
            && (forall j :: 0 <= j < |items| ==> r[j].product == items[j].product)
            && (forall j :: 0 <= j < |items| && j != i ==> r[j] == items[j])
  {
    var r := items[i := CartLine(product, items[i].quantity + q, price)];
    assert r[i].product == product;
    assert LineIndex(r, product) == Some(i);
  }

  /** The add when the product has no line: one line is appended. */
  lemma AddLineAppended(items: seq<CartLine>, product: Catalog.ProductId, q: int, price: int)
    requires LineIndex(items, product).None?
    ensures var r := AddLine(items, product, q, price);
            |r| == |items| + 1 && r == items + [CartLine(product, q, price)]
            && LineIndex(r, product) == Some(|items|)
  {
    var r := items + [CartLine(product, q, price)];
    assert r[|items|].product == product;
  }

  /** An add keeps the line bounds exactly when the product's line ends with at least one unit. */
  lemma AddLineValid(items: seq<CartLine>, product: Catalog.ProductId, q: int, price: int)
    requires LinesValid(items) && price >= 0
    ensures LinesValid(AddLine(items, product, q, price)) <==> QuantityOf(items, product) + q >= 1
  {
    var r := AddLine(items, product, q, price);
    match LineIndex(items, product)
    case Some(i) =>
      assert r[i].quantity == QuantityOf(items, product) + q;
      assert forall k :: 0 <= k < |r| && k != i ==> r[k] == items[k];
    case None =>
      assert r[|items|].quantity == q;
      assert forall k :: 0 <= k < |items| ==> r[k] == items[k];
  }

  /**
   * The subtotal after an add: the new units at the new price, plus the
   * re-pricing of the units already in the cart.
   */
  lemma AddLineSubtotal(items: seq<CartLine>, product: Catalog.ProductId, q: int, price: int)
    ensures Subtotal(AddLine(items, product, q, price))
            == Subtotal(items) + q * price
               + QuantityOf(items, product) * (price - PriceOf(items, product))
  {
    match LineIndex(items, product)
    case Some(i) =>
      var l := CartLine(product, items[i].quantity + q, price);
      SubtotalUpdate(items, i, l);
      Reprice(items[i].quantity, items[i].price, q, price);
      assert Amount(l) - Amount(items[i]) == q * price + QuantityOf(items, product) * (price - PriceOf(items, product));
    case None =>
      SubtotalAppend(items, [CartLine(product, q, price)]);
      assert [CartLine(product, q, price)][..0] == [];
  }

  /** `n` units re-priced from `p` to `price`, plus `q` new ones at `price`. */
  lemma Reprice(n: int, p: int, q: int, price: int)
    ensures price * (n + q) - p * n == q * price + n * (price - p)
  {
    assert price * (n + q) == price * n + price * q;
    assert n * (price - p) == n * price - n * p;
  }

  /** The unit price of a product's line, 0 when it has none. */
  function PriceOf(items: seq<CartLine>, product: Catalog.ProductId): int
  {
    match LineIndex(items, product)
    case None => 0
    case Some(i) => items[i].price
  }

  /**
   * The stock check of an add compares against the requested quantity alone, so
   * two adds that each pass it can leave a line above the stock.
   */
  lemma RepeatedAddsCanExceedStock(product: Catalog.ProductId, stock: int, q: int, price: int)
    requires 0 < q <= stock < 2 * q
    ensures var once := AddLine([], product, q, price);
            var twice := AddLine(once, product, q, price);
            QuantityOf(twice, product) > stock
  {
    var once := AddLine([], product, q, price);
    assert once == [CartLine(product, q, price)];
    assert LineIndex(once, product) == Some(0);
  }

  /** `items.filter(item => item.product !== product)`. */
  function Without(items: seq<CartLine>, product: Catalog.ProductId): seq<CartLine>
  {
    if |items| == 0 then []
    else
      var n := |items| - 1;
      Without(items[..n], product) + (if items[n].product == product then [] else [items[n]])
  }

  /** Every line `Without` keeps is a line of the input for another product. */
  lemma {:induction false} WithoutMembers(items: seq<CartLine>, product: Catalog.ProductId)
    ensures forall l :: l in Without(items, product) ==> l in items && l.product != product
    decreases |items|
  {
    if |items| > 0 {
      var n := |items| - 1;
      WithoutMembers(items[..n], product);
      assert forall l :: l in items[..n] ==> l in items;
    }
  }

  /** A cart with no line for the product is left as it is. */
  lemma {:induction false} WithoutAbsent(items: seq<CartLine>, product: Catalog.ProductId)
    requires LineIndex(items, product).None?
    ensures Without(items, product) == items
    decreases |items|
  {
    if |items| > 0 {
      var n := |items| - 1;
      assert LineIndex(items[..n], product).None?;
      WithoutAbsent(items[..n], product);
      assert items[..n] + [items[n]] == items;
    }
  }

  /** With one line per product, removing drops exactly the product's line. */
  lemma WithoutPresent(items: seq<CartLine>, product: Catalog.ProductId)
    requires DistinctProducts(items) && LineIndex(items, product).Some?
    ensures var i := LineIndex(items, product).value;
            Without(items, product) == items[..i] + items[i + 1..]
  {
    var i := LineIndex(items, product).value;
    assert forall j :: i < j < |items| ==> items[j].product != product;
    WithoutOnlyLine(items, product, i);
  }

  lemma {:induction false} WithoutOnlyLine(items: seq<CartLine>, product: Catalog.ProductId, i: nat)
    requires i < |items| && items[i].product == product
    requires forall j :: 0 <= j < |items| && j != i ==> items[j].product != product
    ensures Without(items, product) == items[..i] + items[i + 1..]
    decreases |items|
  {
    var n := |items| - 1;
    var prefix := items[..n];
    if i == n {
      assert LineIndex(prefix, product).None?;
      WithoutAbsent(prefix, product);
    } else {
      WithoutOnlyLine(prefix, product, i);
      calc {
        Without(items, product);
        Without(prefix, product) + [items[n]];
        prefix[..i] + prefix[i + 1..] + [items[n]];
        { assert prefix[i + 1..] + [items[n]] == items[i + 1..]; }
        items[..i] + items[i + 1..];
      }
    }
  }

  /** Removing leaves no line for the product and keeps the line bounds. */
  lemma WithoutEffect(items: seq<CartLine>, product: Catalog.ProductId)
    ensures LineIndex(Without(items, product), product).None?
    ensures LinesValid(items) ==> LinesValid(Without(items, product))
  {
    WithoutMembers(items, product);
    var w := Without(items, product);
    assert forall k :: 0 <= k < |w| ==> w[k] in items;
  }

  /** Removing keeps one line per product. */
  lemma {:induction false} WithoutDistinct(items: seq<CartLine>, product: Catalog.ProductId)
    requires DistinctProducts(items)
    ensures DistinctProducts(Without(items, product))
    decreases |items|
  {
    if |items| > 0 {
      var n := |items| - 1;
      var prefix := items[..n];
      assert DistinctProducts(prefix) by {
        assert forall a, b :: 0 <= a < b < n ==> prefix[a] == items[a] && prefix[b] == items[b];
      }
      WithoutDistinct(prefix, product);
      WithoutMembers(prefix, product);
      var w := Without(prefix, product);
      assert Without(items, product) == w + (if items[n].product == product then [] else [items[n]]);
      forall k | 0 <= k < |w|
        ensures w[k].product != items[n].product
      {
        assert w[k] in prefix;
        var j :| 0 <= j < n && prefix[j] == w[k];
        assert items[j] == w[k];
      }
    }
  }

  /** Setting one line's quantity, keeping its product and price snapshot. */
  function SetQuantity(items: seq<CartLine>, i: nat, q: int): seq<CartLine>
    requires i < |items|
  {
    items[i := items[i].(quantity := q)]
  }

  /** Setting a quantity keeps the products, the prices and every other line. */
  lemma SetQuantityEffect(items: seq<CartLine>, i: nat, q: int)
    requires i < |items|
    ensures var r := SetQuantity(items, i, q);
            |r| == |items| && r[i].quantity == q && r[i].price == items[i].price
            && (forall j :: 0 <= j < |items| ==> r[j].product == items[j].product)
            && (forall j :: 0 <= j < |items| && j != i ==> r[j] == items[j])
            && Subtotal(r) == Subtotal(items) + items[i].price * (q - items[i].quantity)
    ensures DistinctProducts(items) ==> DistinctProducts(SetQuantity(items, i, q))
    ensures LinesValid(items) && q >= 1 ==> LinesValid(SetQuantity(items, i, q))
  {
    SubtotalUpdate(items, i, items[i].(quantity := q));
  }

  // ---------------------------------------------------------------- the document

  /** A cart document loaded for a request, changed in place, then saved. */
  class CartDocument {
    var user: UserId
    var items: seq<CartLine>
    var subtotal: int
    var total: int

    /** The document as it would be stored. */
    function Value(): Cart
      reads this
    {
      Cart(user, items, subtotal, total)
    }

    constructor Load(c: Cart)
      ensures Value() == c
    {
      user := c.user;
      items := c.items;
      subtotal := c.subtotal;
      total := c.total;
    }

    /** `new Cart({ user, items: [], subtotal: 0, total: 0 })`. */
    constructor New(user: UserId)
      ensures Value() == EmptyCart(user)
    {
      this.user := user;
      items := [];
      subtotal := 0;
      total := 0;
    }

    /** Raise the product's line or push a new one. */
    method AddItem(product: Catalog.ProductId, q: int, price: int)
      modifies this
      ensures items == AddLine(old(items), product, q, price)
      ensures user == old(user) && subtotal == old(subtotal) && total == old(total)
    {
      var found := FindIndex(items, (l: CartLine) => l.product == product);
      assert found == LineIndex(items, product);
      match found
      case Some(i) =>
        items := items[i := CartLine(product, items[i].quantity + q, price)];
      case None =>
        items := items + [CartLine(product, q, price)];
    }

    /** `item.quantity = q` on the line at position `i`. */
    method SetItemQuantity(i: nat, q: int)
      requires i < |items|
      modifies this
      ensures items == SetQuantity(old(items), i, q)
      ensures user == old(user) && subtotal == old(subtotal) && total == old(total)
    {
      items := items[i := items[i].(quantity := q)];
    }

    /** `cart.items = cart.items.filter(...)`. */
    method RemoveItem(product: Catalog.ProductId)
      modifies this
      ensures items == Without(old(items), product)
      ensures user == old(user) && subtotal == old(subtotal) && total == old(total)
    {
      items := Without(items, product);
    }

    /** The schema validation a save runs: every line within its bounds, totals not negative. */
    predicate Validates()
      reads this
    {
      LinesValid(items) && subtotal >= 0 && total >= 0
    }

    /** The pre-save hook: subtotal and total recomputed from the lines, whatever they held. */
    method PreSave()
      modifies this
      ensures user == old(user) && items == old(items)
      ensures TotalsConsistent(Value())
    {
      subtotal := Subtotal(items);
      total := subtotal;
    }
  }

  /** The recompute ignores the stored totals, so a second save changes nothing. */
  lemma PreSaveSettles(c: Cart)
    requires TotalsConsistent(c)
    ensures c.(subtotal := Subtotal(c.items), total := Subtotal(c.items)) == c
  {
  }

  /** A saved cart without lines has zero totals. */
  lemma EmptyCartTotals(c: Cart)
    requires TotalsConsistent(c) && c.items == []
    ensures c.subtotal == 0 && c.total == 0
  {
  }

  /** A saved cart whose lines validate has non-negative totals. */
  lemma SavedTotalsNonNegative(c: Cart)
    requires TotalsConsistent(c) && LinesValid(c.items)
    ensures c.subtotal >= 0 && c.total >= 0
  {
    SubtotalNonNegative(c.items);
  }
}
