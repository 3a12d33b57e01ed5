/**
 * The product detail page: the quantity selector with its minus and plus
 * buttons, the add-to-cart and buy-now buttons, the low-stock alert and the
 * five-star rating display.
 */
module ProductDetailPage {
  import opened Common
  import opened Catalog
  import opened CartModel
  import opened Paging
  import opened Store
  import CartRoutes

  // ---------------------------------------------------------------- quantity selector

  /** `product?.stockQuantity || 1`: a stock of 0 allows a quantity of 1. */
  function QuantityLimit(stock: int): (m: int)
    ensures stock != 0 ==> m == stock
    ensures stock == 0 ==> m == 1
  {
    if stock == 0 then 1 else stock
  }

  /** The quantity the page adds to the cart, and the stock of the product shown. */
  class QuantitySelector {
    var quantity: int
    const stock: int

    /** The selected quantity is at least 1 and at most the stock, or exactly 1. */
    predicate Valid()
      reads this
    {
      1 <= quantity && (quantity == 1 || quantity <= stock)
    }

    constructor (stock: int)
      ensures Valid() && quantity == 1 && this.stock == stock
    {
      quantity := 1;
      this.stock := stock;
    }

    /** `handleQuantityChange`: a value from 1 to the limit is taken, any other is ignored. */
    method Change(n: int)
      requires Valid()
      modifies this
      ensures Valid()
      ensures quantity == if 1 <= n <= QuantityLimit(stock) then n else old(quantity)
    {
      if 1 <= n <= QuantityLimit(stock) {
        quantity := n;
      }
    }

    /**
     * The minus button is disabled at 1. The button and the handler agree: an
     * enabled minus click is always taken, so it never leaves the quantity
     * silently unchanged.
     */
    predicate MinusDisabled(): (b: bool)
      reads this
      ensures !b && Valid() ==> 1 <= quantity - 1 <= QuantityLimit(stock)
    {
      quantity <= 1
    }

    /** The plus button is disabled at the stock; an enabled plus click is always taken. */
    predicate PlusDisabled(): (b: bool)
      reads this
      ensures !b && Valid() ==> 1 <= quantity + 1 <= QuantityLimit(stock)
    {
      quantity >= stock
    }
  }

  /** Add to cart and buy now are disabled only when the stock is exactly 0. */
  function BuyDisabled(stock: int): bool { stock == 0 }

  /**
   * With an active product in stock, the quantity the selector holds is one the
   * cart endpoint accepts.
   */
  lemma SelectedQuantityAccepted(products: map<ProductId, Product>, carts: map<UserId, Cart>,
                                 user: UserId, product: ProductId, quantity: int)
    requires ProductsValid(products) && CartsValid(carts)
    requires product in products && products[product].isActive
    requires !BuyDisabled(products[product].stockQuantity)
    requires 1 <= quantity && (quantity == 1 || quantity <= products[product].stockQuantity)
    ensures CartRoutes.AddToCartResult(products, carts, user, product, quantity).Success?
  {
    assert products[product].stockQuantity >= 0;
    CartRoutes.AddToCartSucceeds(products, carts, user, product, quantity);
  }

  // ---------------------------------------------------------------- add and buy

  /** Where a click on add to cart or buy now leads. */
  datatype Step = ToLogin | Stay | ToCheckout

  /**
   * `handleAddToCart` and `handleBuyNow`: without a user, to the login page and no
   * request; otherwise the selected quantity is added, and buy now moves on to
   * checkout only when the add succeeded.
   */
  function AfterAdd(signedIn: bool, buyNow: bool, added: Outcome<ApiError>): (r: Step)
    ensures r == ToLogin <==> !signedIn
    ensures r == ToCheckout <==> signedIn && buyNow && added.Pass?
  {
    if !signedIn then ToLogin
    else if buyNow && added.Pass? then ToCheckout
    else Stay
  }

  // ---------------------------------------------------------------- stock and rating display

  /** The "Only n items left!" alert. */
  predicate LowStockAlert(stock: int)
  {
    0 < stock <= 10
  }

  /** The five star icons for a rating in tenths of a star: star i is filled when i < rating. */
  function Stars(tenths: int): (r: seq<bool>)
    ensures |r| == 5
    ensures forall i :: 0 <= i < 5 ==> (r[i] <==> 10 * i < tenths)
  {
    seq(5, i => 10 * i < tenths)
  }

  /** The filled stars come first. */
  lemma StarsFilledFirst(tenths: int, i: nat, j: nat)
    requires i < j < 5 && Stars(tenths)[j]
    ensures Stars(tenths)[i]
  {
  }

  /**
   * The stars round a mean up: a rating of r tenths in [0, 50] fills exactly the
   * first ceil(r / 10) stars, so 4.1 stars show as five.
   */
  lemma StarsRoundUp(tenths: nat, i: nat)
    requires tenths <= 50 && i < 5
    ensures Stars(tenths)[i] <==> i < CeilDiv(tenths, 10)
  {
    var c := CeilDiv(tenths, 10);
    if i < c {
      assert (c - 1) * 10 < tenths;
      assert 10 * i <= (c - 1) * 10;
    } else {
      assert c * 10 <= 10 * i;
    }
  }

  /** A review's whole-star rating from 1 to 5 fills exactly that many stars. */
  lemma ReviewStars(rating: int, i: nat)
    requires 1 <= rating <= 5 && i < 5
    ensures Stars(10 * rating)[i] <==> i < rating
  {
  }
}
