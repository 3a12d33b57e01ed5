/**
 * The client's cart state: the cart the server last returned (or none), a
 * loading flag, and the handlers that call the cart endpoints and adopt the
 * server's answer. The server's answer to each call is a parameter; with no
 * user signed in no call is made.
 */
module CartContext {
  import opened Common
  import opened CartModel
  import opened Store

  /** The number of items in the cart: the sum of the line quantities. */
  function QuantitySum(items: seq<CartLine>): int
  {
    if |items| == 0 then 0 else QuantitySum(items[..|items| - 1]) + items[|items| - 1].quantity
  }

  /** Lines of quantity at least 1 count at least one item each. */
  lemma {:induction false} QuantitySumAtLeastLines(items: seq<CartLine>)
    requires LinesValid(items)
    ensures QuantitySum(items) >= |items|
  {
    if |items| > 0 {
      QuantitySumAtLeastLines(items[..|items| - 1]);
    }
  }

  /** Replacing one line changes the count by the difference of the two quantities. */
  lemma {:induction false} QuantitySumUpdate(items: seq<CartLine>, i: nat, l: CartLine)
    requires i < |items|
    ensures QuantitySum(items[i := l]) == QuantitySum(items) - items[i].quantity + l.quantity
  {
    var n := |items| - 1;
    if i < n {
      QuantitySumUpdate(items[..n], i, l);
      assert items[i := l][..n] == items[..n][i := l];
    } else {
      assert items[i := l][..n] == items[..n];
    }
  }

  /**
   * Adding `q` of a product, as the server does, raises the item count by
   * exactly `q`, whether the product had a line or not.
   */
  lemma ItemCountAfterAdd(items: seq<CartLine>, product: Catalog.ProductId, q: int, price: int)
    ensures QuantitySum(AddLine(items, product, q, price)) == QuantitySum(items) + q
  {
    var l := CartLine(product, q, price);
    var idx := LineIndex(items, product);
    if idx.Some? {
      var i := idx.value;
      var n := CartLine(product, items[i].quantity + q, price);
      assert AddLine(items, product, q, price) == items[i := n];
      QuantitySumUpdate(items, i, n);
    } else {
      assert AddLine(items, product, q, price) == items + [l];
      assert (items + [l])[..|items|] == items;
    }
  }

  /** Setting a line's quantity changes the item count by the difference. */
  lemma ItemCountAfterSet(items: seq<CartLine>, i: nat, q: int)
    requires i < |items|
    ensures QuantitySum(SetQuantity(items, i, q)) == QuantitySum(items) - items[i].quantity + q
  {
    QuantitySumUpdate(items, i, items[i].(quantity := q));
  }

  class CartState {
    var cart: Option<Cart>
    var loading: bool
    /** How many requests the handlers have sent to the cart endpoints. */
    var requests: nat

    constructor ()
      ensures cart == None && !loading && requests == 0
    {
      cart := None;
      loading := false;
      requests := 0;
    }

    /** `getCartItemCount`: 0 with no cart, otherwise the sum of the quantities. */
    function ItemCount(): (n: int)
      reads this
      ensures cart.None? ==> n == 0
      ensures cart.Some? && LinesValid(cart.value.items) ==> n >= |cart.value.items|
    {
      match cart
      case None => 0
      case Some(c) =>
        if LinesValid(c.items) then QuantitySumAtLeastLines(c.items); QuantitySum(c.items)
        else QuantitySum(c.items)
    }

    /** `getCartTotal`: 0 with no cart, otherwise the cart's total. */
    function Total(): (t: int)
      reads this
      ensures cart.None? ==> t == 0
      ensures cart.Some? && CartValid(cart.value) ==> t == Subtotal(cart.value.items)
    {
      match cart
      case None => 0
      case Some(c) => c.total
    }

    /**
     * `fetchCart`: with no user the cart is cleared without a request; otherwise
     * the cart becomes the server's, or none when the request fails.
     */
    method Fetch(signedIn: bool, response: Result<Cart, ApiError>)
      modifies this
      ensures !signedIn ==> cart == None && requests == old(requests) && loading == old(loading)
      ensures signedIn ==> requests == old(requests) + 1 && !loading
                           && cart == (if response.Success? then Some(response.value) else None)
    {
      if !signedIn {
        cart := None;
        return;
      }
      loading := true;
      requests := requests + 1;
      if response.Success? {
        cart := Some(response.value);
      } else {
        cart := None;
      }
      loading := false;
    }

    /**
     * The shape every changing handler shares: with no user nothing happens; a
     * successful request adopts the server's cart (or none, for a clear); a failed
     * one keeps the cart, rethrows the error, and ends loading either way.
     */
    method Change(signedIn: bool, response: Result<Cart, ApiError>, clears: bool) returns (r: Outcome<ApiError>)
      modifies this
      ensures !signedIn ==> r == Pass && cart == old(cart) && requests == old(requests) && loading == old(loading)
      ensures signedIn ==> requests == old(requests) + 1 && !loading
      ensures signedIn && response.Success? ==> r == Pass && cart == (if clears then None else Some(response.value))
      ensures signedIn && response.Failure? ==> r == Fail(response.error) && cart == old(cart)
    {
      if !signedIn {
        return Pass;
      }
      loading := true;
      requests := requests + 1;
      if response.Success? {
        cart := if clears then None else Some(response.value);
        r := Pass;
      } else {
        r := Fail(response.error);
      }
      loading := false;
    }

    method AddToCart(signedIn: bool, response: Result<Cart, ApiError>) returns (r: Outcome<ApiError>)
      modifies this
      ensures !signedIn ==> r == Pass && cart == old(cart) && requests == old(requests)
      ensures signedIn ==> requests == old(requests) + 1 && !loading
      ensures signedIn && response.Success? ==> r == Pass && cart == Some(response.value)
      ensures signedIn && response.Failure? ==> r == Fail(response.error) && cart == old(cart)
    {
      r := Change(signedIn, response, false);
    }

    method UpdateCartItem(signedIn: bool, response: Result<Cart, ApiError>) returns (r: Outcome<ApiError>)
      modifies this
      ensures !signedIn ==> r == Pass && cart == old(cart) && requests == old(requests)
      ensures signedIn ==> requests == old(requests) + 1 && !loading
      ensures signedIn && response.Success? ==> r == Pass && cart == Some(response.value)
      ensures signedIn && response.Failure? ==> r == Fail(response.error) && cart == old(cart)
    {
      r := Change(signedIn, response, false);
    }

    method RemoveFromCart(signedIn: bool, response: Result<Cart, ApiError>) returns (r: Outcome<ApiError>)
      modifies this
      ensures !signedIn ==> r == Pass && cart == old(cart) && requests == old(requests)
      ensures signedIn ==> requests == old(requests) + 1 && !loading
      ensures signedIn && response.Success? ==> r == Pass && cart == Some(response.value)
      ensures signedIn && response.Failure? ==> r == Fail(response.error) && cart == old(cart)
    {
      r := Change(signedIn, response, false);
    }

    /** `clearCart`: on success the client drops its cart altogether rather than keeping an empty one. */
    method ClearCart(signedIn: bool, response: Result<Cart, ApiError>) returns (r: Outcome<ApiError>)
      modifies this
      ensures !signedIn ==> r == Pass && cart == old(cart) && requests == old(requests)
      ensures signedIn ==> requests == old(requests) + 1 && !loading
      ensures signedIn && response.Success? ==> r == Pass && cart == None
      ensures signedIn && response.Failure? ==> r == Fail(response.error) && cart == old(cart)
    {
      r := Change(signedIn, response, true);
    }
  }

  /**
   * A cart the server saved shows the sum of its lines as its total, and its item
   * count covers every line; a cleared cart (none) shows 0 for both.
   */
  lemma SavedCartFigures(c: Cart)
    requires CartValid(c)
    ensures c.total == Subtotal(c.items) && QuantitySum(c.items) >= |c.items|
  {
    QuantitySumAtLeastLines(c.items);
  }
}
