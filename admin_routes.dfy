/**
 * The administrator endpoints that carry logic of their own: the dashboard's
 * revenue figure, the filtered and paginated product, order and review lists,
 * the order-status and review-verification updates, and the validation of
 * demo-data requests. Unlike the shop's own list, the administrator lists take
 * page and limit as given (a missing or zero value falls back to 1 and 10) with
 * no clamping.
 */
module AdminRoutes {
  import opened Common
  import opened Catalog
  import opened OrderModel
  import opened ReviewModel
  import opened Paging
  import opened Store

  // ---------------------------------------------------------------- dashboard

  /** The sum of `total` over the orders whose payment status is paid. */
  function PaidTotal(orders: seq<Order>): int
  {
    if |orders| == 0 then 0
    else
      var last := orders[|orders| - 1];
      PaidTotal(orders[..|orders| - 1]) + (if last.details.paymentStatus == Paid then last.total else 0)
  }

  /**
   * The dashboard's revenue: the aggregate's sum over paid orders, or 0 when the
   * aggregate yields no group because no order is paid.
   */
  function Revenue(orders: seq<Order>): (r: int)
    ensures (forall i :: 0 <= i < |orders| ==> orders[i].details.paymentStatus != Paid) ==> r == 0
  {
    NoPaidOrders(orders);
    PaidTotal(orders)
  }

  lemma {:induction false} NoPaidOrders(orders: seq<Order>)
    ensures (forall i :: 0 <= i < |orders| ==> orders[i].details.paymentStatus != Paid) ==> PaidTotal(orders) == 0
  {
    if |orders| > 0 {
      NoPaidOrders(orders[..|orders| - 1]);
    }
  }

  /** A new order adds its total to the revenue only when it is paid; a placed order (payment pending) adds nothing. */
  lemma RevenueAppend(orders: seq<Order>, o: Order)
    ensures Revenue(orders + [o]) == Revenue(orders) + (if o.details.paymentStatus == Paid then o.total else 0)
  {
    assert (orders + [o])[..|orders|] == orders;
  }

  /** The revenue of stored orders is never negative. */
  lemma {:induction false} RevenueNonNegative(orders: seq<Order>, nextId: nat)
    requires OrdersValid(orders, nextId)
    ensures Revenue(orders) >= 0
  {
    if |orders| > 0 {
      var n := |orders| - 1;
      assert OrdersValid(orders[..n], nextId);
      RevenueNonNegative(orders[..n], nextId);
      assert OrderValid(orders[n]);
    }
  }

  /** Changing an order's status, as the status update does, leaves the revenue as it was. */
  lemma {:induction false} RevenueIgnoresStatus(orders: seq<Order>, i: nat, status: OrderStatus)
    requires i < |orders|
    ensures Revenue(orders[i := orders[i].(status := status)]) == Revenue(orders)
  {
    var updated := orders[i := orders[i].(status := status)];
    var n := |orders| - 1;
    if i < n {
      RevenueIgnoresStatus(orders[..n], i, status);
      assert updated[..n] == orders[..n][i := orders[i].(status := status)];
    } else {
      assert updated[..n] == orders[..n];
    }
  }

  // ---------------------------------------------------------------- pagination

  /** `Math.ceil(total / limit)` for a non-zero limit, which may be negative since nothing clamps it. */
  function TotalPages(total: nat, limit: int): (n: int)
    requires limit != 0
    ensures limit > 0 ==> n >= 0 && total <= n * limit && (n > 0 ==> (n - 1) * limit < total)
    ensures limit < 0 ==> n <= 0 && n * limit <= total < n * limit - limit
  {
    if limit > 0 then CeilDiv(total, limit)
    else
      var l := -limit;
      assert total == (total / l) * l + total % l;
      -(total / l)
  }

  /** The pagination block of an administrator list, and the page of documents when it is defined. */
  datatype AdminListing<T> = AdminListing(items: Option<seq<T>>, page: int, limit: int, total: nat, totalPages: int)

  /**
   * One page of the matching documents: page `parseInt(page) || 1` and limit
   * `parseInt(limit) || 10`, neither clamped. Every match is counted, and for a
   * positive page and limit the items are the `skip((page - 1) * limit).limit(limit)`
   * window of the matches; other values reach the database's own handling of a
   * negative skip or limit, which is not part of this model.
   */
  function AdminList<T>(matched: seq<T>, page: Option<int>, limit: Option<int>): (r: AdminListing<T>)
    ensures r.total == |matched| && r.page != 0 && r.limit != 0
    ensures page.Some? && page.value != 0 ==> r.page == page.value
    ensures limit.Some? && limit.value != 0 ==> r.limit == limit.value
    ensures page.None? || page.value == 0 ==> r.page == 1
    ensures limit.None? || limit.value == 0 ==> r.limit == 10
    ensures r.items.Some? <==> r.page >= 1 && r.limit >= 1
    ensures r.items.Some? ==>
              r.page >= 1 && r.limit >= 1 && r.items.value == Window(matched, PageStart(r.page, r.limit), r.limit)
    ensures r.limit > 0 ==> r.totalPages * r.limit >= r.total && (r.totalPages > 0 ==> (r.totalPages - 1) * r.limit < r.total)
    ensures r.limit < 0 ==> r.totalPages <= 0
  {
    var p, l := OrDefault(page, 1), OrDefault(limit, 10);
    AdminListing(PageItems(matched, p, l), p, l, |matched|, TotalPages(|matched|, l))
  }

  /** `skip((page - 1) * limit).limit(limit)` for a positive page and limit. */
  function PageItems<T>(matched: seq<T>, page: int, limit: int): (r: Option<seq<T>>)
    ensures r.Some? <==> page >= 1 && limit >= 1
    ensures r.Some? ==> page >= 1 && limit >= 1 && r.value == Window(matched, PageStart(page, limit), limit)
  {
    if page >= 1 && limit >= 1 then Some(Window(matched, PageStart(page, limit), limit)) else None
  }

  /**
   * Every match is listed: with a positive limit, match `i` is entry `i % limit`
   * of page `i / limit + 1`, a page within the page count.
   */
  lemma AdminListCovers<T>(matched: seq<T>, limit: int, i: nat)
    requires limit >= 1 && i < |matched|
    ensures var r := AdminList(matched, Some(i / limit + 1), Some(limit));
            r.items.Some? && i % limit < |r.items.value| && r.items.value[i % limit] == matched[i]
            && r.page <= r.totalPages
  {
    var page := i / limit + 1;
    var r := AdminList(matched, Some(page), Some(limit));
    assert r.page == page && r.limit == limit;
    assert r.totalPages == CeilDiv(|matched|, limit);
    assert PageStart(page, limit) == (page - 1) * limit;
    WindowPosition(matched, limit, i);
  }

  /** Unlike the shop's list, a large limit is kept as asked: every match then fits on page 1. */
  lemma AdminLimitNotClamped<T>(matched: seq<T>, limit: int)
    requires limit >= |matched| && limit > 0
    ensures var r := AdminList(matched, None, Some(limit));
            r.limit == limit && r.items == Some(matched) && r.totalPages <= 1
  {
    var r := AdminList(matched, None, Some(limit));
    assert r.items.value == matched;
  }

  // ---------------------------------------------------------------- product list

  /** The product list's query parameters; a missing text parameter is "". */
  datatype AdminProductQuery = AdminProductQuery(page: Option<int>, limit: Option<int>,
                                                 search: string, category: CategoryId, status: string)

  /** The status filter: none for an empty status, otherwise active exactly when the status is 'active'. */
  function StatusFilter(status: string): (r: Option<bool>)
    ensures r.None? <==> status == ""
    ensures r == Some(true) <==> status == "active"
  {
    if status == "" then None else Some(status == "active")
  }

  /**
   * A product matches the administrator's query: the case-insensitive search over
   * name, description, brand and active ingredient (`textMatch`) when a search is
   * given, the category when given, and the status filter.
   */
  predicate AdminProductMatches(q: AdminProductQuery, p: Product, textMatch: (string, Product) -> bool)
  {
    (q.search != "" ==> textMatch(q.search, p))
    && (q.category != "" ==> p.category == q.category)
    && (StatusFilter(q.status).Some? ==> p.isActive == StatusFilter(q.status).value)
  }

  /** The products the administrator's query selects, in catalogue order: exactly the matching ones. */
  function MatchingProducts(catalog: seq<Product>, q: AdminProductQuery, textMatch: (string, Product) -> bool): (r: seq<Product>)
    ensures forall p :: p in r <==> p in catalog && AdminProductMatches(q, p, textMatch)
  {
    var test := (p: Product) => AdminProductMatches(q, p, textMatch);
    SelectComplete(catalog, test);
    Select(catalog, test)
  }

  /**
   * GET /admin/products, over the catalogue in its sort order: the total counts
   * every matching product, and the items are the requested window of them.
   */
  function AdminProducts(catalog: seq<Product>, q: AdminProductQuery, textMatch: (string, Product) -> bool): (r: AdminListing<Product>)
    ensures r.total == |MatchingProducts(catalog, q, textMatch)|
    ensures r.items.Some? ==>
              r.page >= 1 && r.limit >= 1 && r.items.value == Window(MatchingProducts(catalog, q, textMatch), PageStart(r.page, r.limit), r.limit)
  {
    AdminList(MatchingProducts(catalog, q, textMatch), q.page, q.limit)
  }

  /**
   * Any non-empty status other than 'active' lists inactive products only, and an
   * empty status lists both; the listed products all match the query.
   */
  lemma AdminStatusFilter(catalog: seq<Product>, q: AdminProductQuery, textMatch: (string, Product) -> bool)
    ensures var r := AdminProducts(catalog, q, textMatch);
            r.items.Some? ==>
              forall p :: p in r.items.value ==>
                p in catalog && AdminProductMatches(q, p, textMatch)
                && (q.status == "active" ==> p.isActive)
                && (q.status != "" && q.status != "active" ==> !p.isActive)
    ensures q.status == "" && q.search == "" && q.category == "" ==>
              AdminProducts(catalog, q, textMatch).total == |catalog|
  {
    var r := AdminProducts(catalog, q, textMatch);
    var matched := MatchingProducts(catalog, q, textMatch);
    if r.items.Some? {
      forall p | p in r.items.value
        ensures p in matched
      {
        var k :| 0 <= k < |r.items.value| && r.items.value[k] == p;
      }
    }
    if q.status == "" && q.search == "" && q.category == "" {
      SelectAll(catalog, (p: Product) => AdminProductMatches(q, p, textMatch));
    }
  }

  /** Every matching product is listed, on the page its position gives. */
  lemma AdminProductsCover(catalog: seq<Product>, q: AdminProductQuery, textMatch: (string, Product) -> bool, limit: int, i: nat)
    requires limit >= 1 && i < |MatchingProducts(catalog, q, textMatch)|
    requires q.page == Some(i / limit + 1) && q.limit == Some(limit)
    ensures var r := AdminProducts(catalog, q, textMatch);
            r.items.Some? && i % limit < |r.items.value|
            && r.items.value[i % limit] == MatchingProducts(catalog, q, textMatch)[i] && r.page <= r.totalPages
  {
    AdminListCovers(MatchingProducts(catalog, q, textMatch), limit, i);
  }

  /** A test every element passes selects everything. */
  lemma {:induction false} SelectAll<T>(s: seq<T>, test: T -> bool)
    requires forall x :: x in s ==> test(x)
    ensures Select(s, test) == s
  {
    if |s| > 0 {
      var n := |s| - 1;
      SelectAll(s[..n], test);
      assert s == s[..n] + [s[n]];
    }
  }

  // ---------------------------------------------------------------- order list

  /** The order list filters by status and payment status names, each only when given. */
  predicate AdminOrderMatches(status: string, paymentStatus: string, o: Order)
  {
    (status != "" ==> StatusName(o.status) == status)
    && (paymentStatus != "" ==> PaymentStatusName(o.details.paymentStatus) == paymentStatus)
  }

  /** The orders of any user that the filters select, in stored order: exactly the matching ones. */
  function MatchingOrders(orders: seq<Order>, status: string, paymentStatus: string): (r: seq<Order>)
    ensures forall o :: o in r <==> o in orders && AdminOrderMatches(status, paymentStatus, o)
  {
    var test := (o: Order) => AdminOrderMatches(status, paymentStatus, o);
    SelectComplete(orders, test);
    Select(orders, test)
  }

  /**
   * GET /admin/orders: the total counts every order that matches the given status
   * names, and the items are the requested window of them.
   */
  function AdminOrders(orders: seq<Order>, page: Option<int>, limit: Option<int>,
                       status: string, paymentStatus: string): (r: AdminListing<Order>)
    ensures r.total == |MatchingOrders(orders, status, paymentStatus)|
    ensures r.items.Some? ==>
              r.page >= 1 && r.limit >= 1 && r.items.value == Window(MatchingOrders(orders, status, paymentStatus), PageStart(r.page, r.limit), r.limit)
    ensures r.items.Some? ==>
              forall o :: o in r.items.value ==> o in orders && AdminOrderMatches(status, paymentStatus, o)
  {
    var matched := MatchingOrders(orders, status, paymentStatus);
    var r := AdminList(matched, page, limit);
    assert r.items.Some? ==> forall o :: o in r.items.value ==> o in matched;
    r
  }

  /** Every matching order is listed, on the page its position gives. */
  lemma AdminOrdersCover(orders: seq<Order>, status: string, paymentStatus: string, limit: int, i: nat)
    requires limit >= 1 && i < |MatchingOrders(orders, status, paymentStatus)|
    ensures var r := AdminOrders(orders, Some(i / limit + 1), Some(limit), status, paymentStatus);
            r.items.Some? && i % limit < |r.items.value|
            && r.items.value[i % limit] == MatchingOrders(orders, status, paymentStatus)[i] && r.page <= r.totalPages
  {
    AdminListCovers(MatchingOrders(orders, status, paymentStatus), limit, i);
  }

  // ---------------------------------------------------------------- review list

  /**
   * The review list's verification filter. Unlike the product status filter it
   * applies whenever the parameter is present, so an empty value lists the
   * unverified reviews.
   */
  function VerifiedFilter(isVerified: Option<string>): (r: Option<bool>)
    ensures r.None? <==> isVerified.None?
    ensures r == Some(true) <==> isVerified == Some("true")
  {
    match isVerified
    case None => None
    case Some(s) => Some(s == "true")
  }

  /** The reviews the verification filter selects, in stored order: exactly the matching ones. */
  function MatchingReviews(reviews: seq<Review>, isVerified: Option<string>): (r: seq<Review>)
    ensures forall v :: v in r <==>
              v in reviews && (VerifiedFilter(isVerified).Some? ==> v.isVerified == VerifiedFilter(isVerified).value)
  {
    var f := VerifiedFilter(isVerified);
    var test := (v: Review) => f.Some? ==> v.isVerified == f.value;
    SelectComplete(reviews, test);
    Select(reviews, test)
  }

  /**
   * GET /admin/reviews: the total counts every review that passes the
   * verification filter, and the items are the requested window of them.
   */
  function AdminReviews(reviews: seq<Review>, page: Option<int>, limit: Option<int>,
                        isVerified: Option<string>): (r: AdminListing<Review>)
    ensures r.total == |MatchingReviews(reviews, isVerified)|
    ensures r.items.Some? ==>
              r.page >= 1 && r.limit >= 1 && r.items.value == Window(MatchingReviews(reviews, isVerified), PageStart(r.page, r.limit), r.limit)
    ensures r.items.Some? ==>
              forall v :: v in r.items.value ==>
                v in reviews && (VerifiedFilter(isVerified).Some? ==> v.isVerified == VerifiedFilter(isVerified).value)
  {
    var matched := MatchingReviews(reviews, isVerified);
    var r := AdminList(matched, page, limit);
    assert r.items.Some? ==> forall v :: v in r.items.value ==> v in matched;
    r
  }

  /** Every review that passes the filter is listed, on the page its position gives. */
  lemma AdminReviewsCover(reviews: seq<Review>, isVerified: Option<string>, limit: int, i: nat)
    requires limit >= 1 && i < |MatchingReviews(reviews, isVerified)|
    ensures var r := AdminReviews(reviews, Some(i / limit + 1), Some(limit), isVerified);
            r.items.Some? && i % limit < |r.items.value|
            && r.items.value[i % limit] == MatchingReviews(reviews, isVerified)[i] && r.page <= r.totalPages
  {
    AdminListCovers(MatchingReviews(reviews, isVerified), limit, i);
  }

  // ---------------------------------------------------------------- status update

  /** `findById`: the position of the order with that id, whoever owns it. */
  function OrderWithId(orders: seq<Order>, id: OrderId): (r: Option<nat>)
    ensures r.Some? ==> r.value < |orders| && orders[r.value].id == id
    ensures r.None? <==> forall j :: 0 <= j < |orders| ==> orders[j].id != id
  {
    if |orders| == 0 then None
    else if orders[0].id == id then Some(0)
    else
      match OrderWithId(orders[1..], id)
      case None => None
      case Some(k) => Some(k + 1)
  }

  /** Order ids are distinct, so the order with the id is the one found. */
  lemma OrderWithIdUnique(orders: seq<Order>, nextId: nat, id: OrderId, i: nat)
    requires OrdersValid(orders, nextId) && i < |orders| && orders[i].id == id
    ensures OrderWithId(orders, id) == Some(i)
  {
    var j := OrderWithId(orders, id).value;
    assert orders[j].id == orders[i].id;
  }

  /**
   * The outcome of PUT /admin/orders/:id/status: not found exactly when no order
   * has the id, otherwise that order with the new status, whatever the old one was.
   */
  function UpdateOrderStatusResult(orders: seq<Order>, id: OrderId, status: OrderStatus): (r: Result<Order, ApiError>)
    ensures r.Failure? <==> forall j :: 0 <= j < |orders| ==> orders[j].id != id
    ensures r.Failure? ==> r.error == OrderNotFound
    ensures r.Success? ==> r.value.id == id && r.value.status == status
  {
    match OrderWithId(orders, id)
    case None => Failure(OrderNotFound)
    case Some(i) => Success(orders[i].(status := status))
  }

  /**
   * The update fails exactly when no order has the id, and otherwise sets the
   * requested status with no check of the transition: any stored status, a
   * delivered or cancelled one included, can be moved to any other. Nothing but
   * the status changes, the revenue stays the same and the store stays valid.
   */
  lemma UpdateOrderStatusOutcome(orders: seq<Order>, nextId: nat, id: OrderId, status: OrderStatus)
    requires OrdersValid(orders, nextId)
    ensures var r := UpdateOrderStatusResult(orders, id, status);
            (r.Failure? <==> forall j :: 0 <= j < |orders| ==> orders[j].id != id)
            && (r.Failure? ==> r.error == OrderNotFound)
            && (r.Success? ==>
                  var i := OrderWithId(orders, id).value;
                  r.value.status == status && r.value.(status := orders[i].status) == orders[i]
                  && Revenue(orders[i := r.value]) == Revenue(orders))
  {
    var r := UpdateOrderStatusResult(orders, id, status);
    if r.Success? {
      RevenueIgnoresStatus(orders, OrderWithId(orders, id).value, status);
    }
  }

  /** The status update keeps every stored order within its bounds and the ids distinct. */
  lemma UpdateOrderStatusKeepsValid(orders: seq<Order>, nextId: nat, i: nat, status: OrderStatus)
    requires OrdersValid(orders, nextId) && i < |orders|
    ensures OrdersValid(orders[i := orders[i].(status := status)], nextId)
  {
    assert OrderValid(orders[i]);
  }

  /** PUT /admin/orders/:id/status: `findByIdAndUpdate`, which runs no save hook. */
  method UpdateOrderStatus(db: Database, id: OrderId, status: OrderStatus) returns (r: Result<Order, ApiError>)
    requires db.Valid()
    modifies db`orders
    ensures r == UpdateOrderStatusResult(old(db.orders), id, status)
    ensures r.Failure? ==> db.orders == old(db.orders)
    ensures r.Success? ==> db.orders == old(db.orders)[OrderWithId(old(db.orders), id).value := r.value]
    ensures db.Valid()
  {
    var found := LocateOrder(db.orders, db.nextId, id);
    if found.None? {
      return Failure(OrderNotFound);
    }
    var i := found.value;
    UpdateOrderStatusKeepsValid(db.orders, db.nextId, i, status);
    var order := db.orders[i].(status := status);
    r := Success(order);
    StoreOrderAt(db, i, order);
  }

  /** The lookup of `findByIdAndUpdate`: the position of the order with the id. */
  method LocateOrder(orders: seq<Order>, nextId: nat, id: OrderId) returns (found: Option<nat>)
    requires OrdersValid(orders, nextId)
    ensures found == OrderWithId(orders, id)
  {
    found := FindIndex(orders, (o: Order) => o.id == id);
    if found.Some? {
      OrderWithIdUnique(orders, nextId, id, found.value);
    }
  }

  /** The write of `findByIdAndUpdate`: the order at position `i` replaced. */
  method StoreOrderAt(db: Database, i: nat, order: Order)
    requires db.Valid() && i < |db.orders| && OrdersValid(db.orders[i := order], db.nextId)
    modifies db`orders
    ensures db.orders == old(db.orders)[i := order]
    ensures db.Valid()
  {
    db.orders := db.orders[i := order];
  }

  // ---------------------------------------------------------------- review verification

  /** `findById` over the reviews. */
  function ReviewWithId(reviews: seq<Review>, id: ReviewId): (r: Option<nat>)
    ensures r.Some? ==> r.value < |reviews| && reviews[r.value].id == id
    ensures r.None? <==> forall j :: 0 <= j < |reviews| ==> reviews[j].id != id
  {
    if |reviews| == 0 then None
    else if reviews[0].id == id then Some(0)
    else
      match ReviewWithId(reviews[1..], id)
      case None => None
      case Some(k) => Some(k + 1)
  }

  /**
   * The outcome of PUT /admin/reviews/:id/verify: not found exactly when no review
   * has the id, otherwise that review marked verified.
   */
  function VerifyReviewResult(reviews: seq<Review>, id: ReviewId): (r: Result<Review, ApiError>)
    ensures r.Failure? <==> forall j :: 0 <= j < |reviews| ==> reviews[j].id != id
    ensures r.Failure? ==> r.error == ReviewNotFound
    ensures r.Success? ==> r.value.id == id && r.value.isVerified
  {
    match ReviewWithId(reviews, id)
    case None => Failure(ReviewNotFound)
    case Some(i) => Success(reviews[i].(isVerified := true))
  }

  /** The reviews after a verification: the found review replaced, or unchanged when none has the id. */
  function AfterVerify(reviews: seq<Review>, id: ReviewId): seq<Review>
  {
    match VerifyReviewResult(reviews, id)
    case Failure(_) => reviews
    case Success(v) => reviews[ReviewWithId(reviews, id).value := v]
  }

  /**
   * Verification fails exactly when no review has the id; otherwise the review
   * becomes verified with nothing else changed, so the rating statistics of every
   * product stay as they were and the store stays valid. Verifying again changes
   * nothing.
   */
  lemma VerifyReviewOutcome(reviews: seq<Review>, nextId: nat, id: ReviewId)
    requires ReviewsValid(reviews, nextId)
    ensures var r := VerifyReviewResult(reviews, id);
            (r.Failure? <==> forall j :: 0 <= j < |reviews| ==> reviews[j].id != id)
            && (r.Failure? ==> r.error == ReviewNotFound)
            && (r.Success? ==>
                  var i := ReviewWithId(reviews, id).value;
                  r.value.isVerified && r.value.(isVerified := reviews[i].isVerified) == reviews[i])
    ensures ReviewsValid(AfterVerify(reviews, id), nextId)
    ensures forall p :: ReviewCount(AfterVerify(reviews, id), p) == ReviewCount(reviews, p)
                        && RatingSum(AfterVerify(reviews, id), p) == RatingSum(reviews, p)
    ensures AfterVerify(AfterVerify(reviews, id), id) == AfterVerify(reviews, id)
  {
    var r := VerifyReviewResult(reviews, id);
    if r.Success? {
      var i := ReviewWithId(reviews, id).value;
      var after := reviews[i := r.value];
      forall p
        ensures ReviewCount(after, p) == ReviewCount(reviews, p) && RatingSum(after, p) == RatingSum(reviews, p)
      {
        StatsIgnoreVerification(reviews, i, p);
      }
      SameIds(reviews, after, id);
      assert ReviewWithId(after, id) == Some(i);
      assert after[i := after[i].(isVerified := true)] == after;
    }
  }

  /** Two review lists with the same ids position an id at the same place. */
  lemma {:induction false} SameIds(a: seq<Review>, b: seq<Review>, id: ReviewId)
    requires |a| == |b| && forall j :: 0 <= j < |a| ==> a[j].id == b[j].id
    ensures ReviewWithId(a, id) == ReviewWithId(b, id)
  {
    if |a| > 0 && a[0].id != id {
      SameIds(a[1..], b[1..], id);
    }
  }

  /** The count and rating sum of a product do not depend on the verification flag. */
  lemma {:induction false} StatsIgnoreVerification(reviews: seq<Review>, i: nat, p: ProductId)
    requires i < |reviews|
    ensures var after := reviews[i := reviews[i].(isVerified := true)];
            ReviewCount(after, p) == ReviewCount(reviews, p) && RatingSum(after, p) == RatingSum(reviews, p)
  {
    var after := reviews[i := reviews[i].(isVerified := true)];
    var n := |reviews| - 1;
    if i < n {
      StatsIgnoreVerification(reviews[..n], i, p);
      assert after[..n] == reviews[..n][i := reviews[i].(isVerified := true)];
    } else {
      assert after[..n] == reviews[..n];
    }
  }

  /** PUT /admin/reviews/:id/verify: `findByIdAndUpdate`, which runs no save hook. */
  method VerifyReview(db: Database, id: ReviewId) returns (r: Result<Review, ApiError>)
    requires db.Valid()
    modifies db`reviews
    ensures r == VerifyReviewResult(old(db.reviews), id)
    ensures db.reviews == AfterVerify(old(db.reviews), id)
    ensures db.Valid()
  {
    VerifyReviewOutcome(db.reviews, db.nextId, id);
    var found := FindIndex(db.reviews, (v: Review) => v.id == id);
    if found.None? {
      return Failure(ReviewNotFound);
    }
    var i := found.value;
    assert i == ReviewWithId(db.reviews, id).value;
    var review := db.reviews[i].(isVerified := true);
    db.reviews := db.reviews[i := review];
    r := Success(review);
  }

  // ---------------------------------------------------------------- demo data

  /** The kinds of demo data the generator produces. */
  datatype DemoType = Users | Categories | Products | Orders | Reviews

  function DemoTypeName(t: DemoType): string
  {
    match t
    case Users => "users"
    case Categories => "categories"
    case Products => "products"
    case Orders => "orders"
    case Reviews => "reviews"
  }

  function ParseDemoType(s: string): (r: Option<DemoType>)
    ensures r.Some? ==> DemoTypeName(r.value) == s
  {
    if s == "users" then Some(Users)
    else if s == "categories" then Some(Categories)
    else if s == "products" then Some(Products)
    else if s == "orders" then Some(Orders)
    else if s == "reviews" then Some(Reviews)
    else None
  }

  lemma ParseDemoTypeName(t: DemoType)
    ensures ParseDemoType(DemoTypeName(t)) == Some(t)
  {
  }

  /**
   * POST /admin/demo/generate: a missing or empty type, or a quantity that is
   * missing, zero or outside [1, 100], is rejected first; an unknown type after.
   * A request is accepted exactly for one of the five types and a quantity from 1
   * to 100.
   */
  function ValidateDemoRequest(dataType: string, quantity: Option<int>): (r: Result<(DemoType, int), ApiError>)
    ensures r.Success? <==> ParseDemoType(dataType).Some? && quantity.Some? && 1 <= quantity.value <= 100
    ensures r == Failure(InvalidParameters) <==>
              dataType == "" || quantity.None? || quantity.value < 1 || quantity.value > 100
    ensures r.Success? ==> DemoTypeName(r.value.0) == dataType && r.value.1 == quantity.value
  {
    if dataType == "" || quantity.None? || quantity.value == 0 || quantity.value < 1 || quantity.value > 100 then
      Failure(InvalidParameters)
    else
      match ParseDemoType(dataType)
      case None => Failure(InvalidDataType)
      case Some(t) => Success((t, quantity.value))
  }

  /** The quantities the generate-all request asks for; a missing one is `None`. */
  datatype QuantityRequest = QuantityRequest(users: Option<int>, categories: Option<int>, products: Option<int>,
                                             orders: Option<int>, reviews: Option<int>)

  datatype DemoQuantities = DemoQuantities(users: int, categories: int, products: int, orders: int, reviews: int)

  function Given(v: Option<int>, d: int): int
  {
    if v.Some? then v.value else d
  }

  /**
   * POST /admin/demo/generate-all: the quantities object is required; each missing
   * quantity takes its default (10 users, 5 categories, 20 products, 15 orders,
   * 30 reviews); the request is accepted exactly when every given quantity is at
   * most 100, with no lower bound.
   */
  function GenerateAllRequest(q: Option<QuantityRequest>): (r: Result<DemoQuantities, ApiError>)
    ensures q.None? <==> r == Failure(QuantitiesRequired)
    ensures q.Some? ==>
              var v := q.value;
              (r.Success? <==>
                 (v.users.None? || v.users.value <= 100) && (v.categories.None? || v.categories.value <= 100)
                 && (v.products.None? || v.products.value <= 100) && (v.orders.None? || v.orders.value <= 100)
                 && (v.reviews.None? || v.reviews.value <= 100))
              && (r.Success? ==>
                    (v.users.Some? ==> r.value.users == v.users.value) && (v.users.None? ==> r.value.users == 10)
                    && (v.categories.Some? ==> r.value.categories == v.categories.value)
                    && (v.categories.None? ==> r.value.categories == 5)
                    && (v.products.Some? ==> r.value.products == v.products.value)
                    && (v.products.None? ==> r.value.products == 20)
                    && (v.orders.Some? ==> r.value.orders == v.orders.value) && (v.orders.None? ==> r.value.orders == 15)
                    && (v.reviews.Some? ==> r.value.reviews == v.reviews.value)
                    && (v.reviews.None? ==> r.value.reviews == 30))
  {
    match q
    case None => Failure(QuantitiesRequired)
    case Some(r) =>
      var d := DemoQuantities(Given(r.users, 10), Given(r.categories, 5), Given(r.products, 20),
                              Given(r.orders, 15), Given(r.reviews, 30));
      if d.users > 100 || d.categories > 100 || d.products > 100 || d.orders > 100 || d.reviews > 100 then
        Failure(QuantityAboveMaximum)
      else Success(d)
  }

  /** There is no lower bound: an empty request takes every default, and a negative quantity is accepted. */
  lemma GenerateAllNoLowerBound()
    ensures GenerateAllRequest(Some(QuantityRequest(None, None, None, None, None)))
            == Success(DemoQuantities(10, 5, 20, 15, 30))
    ensures GenerateAllRequest(Some(QuantityRequest(Some(-5), None, None, None, None))).Success?
  {
  }
}
