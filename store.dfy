/**
 * The collections the request handlers read and write, held in memory: products
 * and carts by key, orders and reviews in insertion order, and a counter that
 * hands out fresh order and review ids. `Valid` is what every handler keeps.
 */
module Store {
  import opened Common
  import opened Catalog
  import opened CartModel
  import opened OrderModel
  import opened ReviewModel

  /** The failure responses of the handlers. */
  datatype ApiError =
    | ProductNotFound
    | InsufficientStock
    | QuantityBelowOne
    | CartNotFound
    | ItemNotFound
    | ValidationFailed
    | CartEmpty
    | ProductUnavailable
    | OrderNotFound
    | CannotCancel
    | AlreadyReviewed
    | ReviewNotFound
    | InvalidParameters
    | InvalidDataType
    | QuantityAboveMaximum
    | SearchQueryRequired
    | QuantitiesRequired
    | CategoryRejected
    | QueryFailed

  /** The HTTP status each failure is sent with. */
  function HttpStatus(e: ApiError): (code: nat)
    ensures code == 400 || code == 404 || code == 500
    ensures code == 404 <==> e in {ProductNotFound, CartNotFound, ItemNotFound, OrderNotFound, ReviewNotFound}
    ensures code == 500 <==> e == QueryFailed
  {
    match e
    case ProductNotFound => 404
    case CartNotFound => 404
    case ItemNotFound => 404
    case OrderNotFound => 404
    case ReviewNotFound => 404
    case QueryFailed => 500
    case _ => 400
  }

  predicate ProductsValid(products: map<ProductId, Product>)
  {
    forall p :: p in products ==> ProductValid(products[p])
  }

  /** One cart per user, each saved through the hook. */
  predicate CartsValid(carts: map<UserId, Cart>)
  {
    forall u :: u in carts ==> carts[u].user == u && CartValid(carts[u])
  }

  predicate OrdersValid(orders: seq<Order>, nextId: nat)
  {
    (forall i :: 0 <= i < |orders| ==> orders[i].id < nextId && OrderValid(orders[i]))
    && (forall i, j :: 0 <= i < j < |orders| ==> orders[i].id != orders[j].id)
  }

  predicate ReviewsValid(reviews: seq<Review>, nextId: nat)
  {
    (forall i :: 0 <= i < |reviews| ==> reviews[i].id < nextId && ReviewValid(reviews[i]))
    && (forall i, j :: 0 <= i < j < |reviews| ==> reviews[i].id != reviews[j].id)
    && OneReviewPerUserAndProduct(reviews)
  }

  class Database {
    var products: map<ProductId, Product>
    var carts: map<UserId, Cart>
    var orders: seq<Order>
    var reviews: seq<Review>
    var nextId: nat

    ghost predicate Valid()
      reads this
    {
      ProductsValid(products) && CartsValid(carts)
      && OrdersValid(orders, nextId) && ReviewsValid(reviews, nextId)
    }

    constructor (products: map<ProductId, Product>)
      requires ProductsValid(products)
      ensures Valid() && this.products == products
      ensures carts == map[] && orders == [] && reviews == []
    {
      this.products := products;
      carts := map[];
      orders := [];
      reviews := [];
      nextId := 0;
    }
  }
}
