/**
 * The review endpoints: create (one review per user and product), update and
 * delete the caller's own review, and the public listing of a product's verified
 * reviews. A save runs the post-save hook that recomputes the product's rating
 * statistics; a delete goes through a query hook that finds no product on the
 * query and so recomputes nothing.
 */
module ReviewRoutes {
  import opened Common
  import opened Catalog
  import opened CartModel
  import opened OrderModel
  import opened ReviewModel
  import opened Store

  /** What the client sends for a review. */
  datatype ReviewInput = ReviewInput(rating: int, title: string, comment: string)

  /** The product with its rating statistics recomputed from the reviews; nothing written when it is gone. */
  function WithRating(products: map<ProductId, Product>, reviews: seq<Review>, product: ProductId): map<ProductId, Product>
  {
    if product in products then
      var s := ProductRating(reviews, product);
      products[product := products[product].(averageRating := s.averageRating, totalReviews := s.totalReviews)]
    else products
  }

  /**
   * The recompute writes only the reviewed product, and only its two rating
   * fields: the review count and the rounded mean. With ratings from 1 to 5 the
   * product stays valid.
   */
  lemma WithRatingEffect(products: map<ProductId, Product>, reviews: seq<Review>, product: ProductId)
    ensures var after := WithRating(products, reviews, product);
            after.Keys == products.Keys
            && (forall p :: p in products && p != product ==> after[p] == products[p])
            && (product in products ==>
                  after[product].totalReviews == ReviewCount(reviews, product)
                  && after[product].averageRating == ProductRating(reviews, product).averageRating
                  && after[product].(averageRating := products[product].averageRating,
                                     totalReviews := products[product].totalReviews) == products[product])
    ensures ProductsValid(products) && RatingsInRange(reviews) ==> ProductsValid(WithRating(products, reviews, product))
  {
    if RatingsInRange(reviews) {
      ProductRatingBounds(reviews, product);
    }
  }

  /** `updateProductRating`: counts and sums the product's ratings, then writes the statistics. */
  method UpdateProductRating(db: Database, product: ProductId)
    requires db.Valid() && ProductsValid(WithRating(db.products, db.reviews, product))
    modifies db`products
    ensures db.products == WithRating(old(db.products), db.reviews, product)
    ensures db.Valid()
  {
    var count: nat, sum := 0, 0;
    for k := 0 to |db.reviews|
      invariant count == ReviewCount(db.reviews[..k], product)
      invariant sum == RatingSum(db.reviews[..k], product)
    {
      assert db.reviews[..k + 1][..k] == db.reviews[..k];
      if db.reviews[k].product == product {
        count := count + 1;
        sum := sum + db.reviews[k].rating;
      }
    }
    assert db.reviews[..|db.reviews|] == db.reviews;
    if product in db.products {
      var stats := if count > 0 then RatingStats(RoundedTenths(sum, count), count) else RatingStats(0, 0);
      db.products := db.products[product := db.products[product].(averageRating := stats.averageRating,
                                                                  totalReviews := stats.totalReviews)];
    }
  }

  // ---------------------------------------------------------------- finding reviews

  /** `Review.findOne({ user, product })`: the position of the caller's review of the product. */
  function FindUserReview(reviews: seq<Review>, user: UserId, product: ProductId): (r: Option<nat>)
    ensures r.Some? ==> r.value < |reviews| && reviews[r.value].user == user && reviews[r.value].product == product
    ensures r.None? <==> forall j :: 0 <= j < |reviews| ==> reviews[j].user != user || reviews[j].product != product
  {
    if |reviews| == 0 then None
    else if reviews[0].user == user && reviews[0].product == product then Some(0)
    else
      match FindUserReview(reviews[1..], user, product)
      case None => None
      case Some(k) => Some(k + 1)
  }

  /** `Review.findOne({ _id: id, user })`: the position of the caller's review with that id. */
  function FindOwnReview(reviews: seq<Review>, user: UserId, id: ReviewId): (r: Option<nat>)
    ensures r.Some? ==> r.value < |reviews| && reviews[r.value].id == id && reviews[r.value].user == user
    ensures r.None? <==> forall j :: 0 <= j < |reviews| ==> reviews[j].id != id || reviews[j].user != user
  {
    if |reviews| == 0 then None
    else if reviews[0].id == id && reviews[0].user == user then Some(0)
    else
      match FindOwnReview(reviews[1..], user, id)
      case None => None
      case Some(k) => Some(k + 1)
  }

  /** `FindOwnReview` gives the first matching position. */
  lemma {:induction false} FindOwnReviewFirst(reviews: seq<Review>, user: UserId, id: ReviewId)
    ensures var r := FindOwnReview(reviews, user, id);
            r.Some? ==> forall j :: 0 <= j < r.value ==> reviews[j].id != id || reviews[j].user != user
  {
    if |reviews| > 0 && !(reviews[0].id == id && reviews[0].user == user) {
      FindOwnReviewFirst(reviews[1..], user, id);
    }
  }

  /** The id and user of a valid review list are distinct, so the caller's review with an id is the only one. */
  lemma FindOwnReviewUnique(reviews: seq<Review>, nextId: nat, user: UserId, id: ReviewId, i: nat)
    requires ReviewsValid(reviews, nextId) && i < |reviews| && reviews[i].id == id && reviews[i].user == user
    ensures FindOwnReview(reviews, user, id) == Some(i)
  {
    FindOwnReviewFirst(reviews, user, id);
  }

  // ---------------------------------------------------------------- create

  /** The review a create stores: title and comment trimmed, not yet verified. */
  function NewReview(id: ReviewId, user: UserId, product: ProductId, input: ReviewInput): Review
  {
    Review(id, user, product, input.rating, Trim(input.title), Trim(input.comment), false)
  }

  /**
   * The outcome of creating a review, `nextId` being the new review's id. A create
   * fails as not found exactly when the product does not exist (active or not),
   * as a repeat exactly when the caller already reviewed it, and at validation
   * exactly when the rating is outside [1, 5] or the trimmed title or comment is
   * too long. A created review is unverified and holds the trimmed text.
   */
  function CreateReviewResult(products: map<ProductId, Product>, reviews: seq<Review>, nextId: nat,
                              user: UserId, product: ProductId, input: ReviewInput): (r: Result<Review, ApiError>)
    ensures r == Failure(ProductNotFound) <==> product !in products
    ensures r == Failure(AlreadyReviewed) <==>
              product in products
              && exists j :: 0 <= j < |reviews| && reviews[j].user == user && reviews[j].product == product
    ensures r == Failure(ValidationFailed) <==>
              product in products
              && (forall j :: 0 <= j < |reviews| ==> reviews[j].user != user || reviews[j].product != product)
              && !(1 <= input.rating <= 5 && |Trim(input.title)| <= 100 && |Trim(input.comment)| <= 1000)
    ensures r.Success? ==>
              r.value.id == nextId && r.value.user == user && r.value.product == product
              && r.value.rating == input.rating && !r.value.isVerified
              && r.value.title == Trim(input.title) && r.value.comment == Trim(input.comment)
  {
    if product !in products then Failure(ProductNotFound)
    else if FindUserReview(reviews, user, product).Some? then Failure(AlreadyReviewed)
    else
      var r := NewReview(nextId, user, product, input);
      if !ReviewValid(r) then Failure(ValidationFailed) else Success(r)
  }

  /** A review added under the next id keeps the review list valid under the advanced counter. */
  lemma AppendReview(reviews: seq<Review>, nextId: nat, r: Review)
    requires ReviewsValid(reviews, nextId) && r.id == nextId && ReviewValid(r)
    requires forall j :: 0 <= j < |reviews| ==> reviews[j].user != r.user || reviews[j].product != r.product
    ensures ReviewsValid(reviews + [r], nextId + 1)
  {
    var all := reviews + [r];
    forall i, j | 0 <= i < j < |all|
      ensures all[i].user != all[j].user || all[i].product != all[j].product
    {
      if j == |reviews| {
        assert all[i] == reviews[i];
      }
    }
  }

  lemma AdvanceOrders(orders: seq<Order>, nextId: nat)
    requires OrdersValid(orders, nextId)
    ensures OrdersValid(orders, nextId + 1)
  {
  }

  /** A create keeps the store valid, and the product then counts one more review. */
  lemma CreateReviewKeepsValid(products: map<ProductId, Product>, reviews: seq<Review>, orders: seq<Order>,
                               nextId: nat, user: UserId, product: ProductId, input: ReviewInput, r: Review)
    requires ProductsValid(products) && ReviewsValid(reviews, nextId) && OrdersValid(orders, nextId)
    requires CreateReviewResult(products, reviews, nextId, user, product, input) == Success(r)
    ensures ReviewsValid(reviews + [r], nextId + 1) && OrdersValid(orders, nextId + 1)
    ensures ProductsValid(WithRating(products, reviews + [r], product))
    ensures ReviewCount(reviews + [r], product) == ReviewCount(reviews, product) + 1
  {
    CreatedReview(products, reviews, nextId, user, product, input, r);
    AppendReview(reviews, nextId, r);
    AdvanceOrders(orders, nextId);
    ValidRatings(reviews + [r], nextId + 1);
    WithRatingEffect(products, reviews + [r], product);
    ReviewCountAppend(reviews, r, product);
  }

  /** A created review carries the next id, passes validation and is the caller's first of the product. */
  lemma CreatedReview(products: map<ProductId, Product>, reviews: seq<Review>, nextId: nat,
                      user: UserId, product: ProductId, input: ReviewInput, r: Review)
    requires CreateReviewResult(products, reviews, nextId, user, product, input) == Success(r)
    ensures r.id == nextId && ReviewValid(r) && r.user == user && r.product == product
    ensures forall j :: 0 <= j < |reviews| ==> reviews[j].user != user || reviews[j].product != product
  {
    assert FindUserReview(reviews, user, product).None?;
  }

  /** Valid reviews have ratings from 1 to 5. */
  lemma ValidRatings(reviews: seq<Review>, nextId: nat)
    requires ReviewsValid(reviews, nextId)
    ensures RatingsInRange(reviews)
  {
  }

  /** Appending a review of the product counts one more. */
  lemma ReviewCountAppend(reviews: seq<Review>, r: Review, product: ProductId)
    requires r.product == product
    ensures ReviewCount(reviews + [r], product) == ReviewCount(reviews, product) + 1
  {
    assert (reviews + [r])[..|reviews|] == reviews;
  }

  /** POST: create a review, then recompute the product's statistics. */
  method CreateReview(db: Database, user: UserId, product: ProductId, input: ReviewInput) returns (r: Result<Review, ApiError>)
    requires db.Valid()
    modifies db`products, db`reviews, db`nextId
    ensures r == CreateReviewResult(old(db.products), old(db.reviews), old(db.nextId), user, product, input)
    ensures r.Failure? ==> db.products == old(db.products) && db.reviews == old(db.reviews) && db.nextId == old(db.nextId)
    ensures r.Success? ==> db.reviews == old(db.reviews) + [r.value] && db.nextId == old(db.nextId) + 1
                           && db.products == WithRating(old(db.products), db.reviews, product)
    ensures db.Valid()
  {
    r := CheckReview(db.products, db.reviews, db.nextId, user, product, input);
    if r.Success? {
      CreateReviewKeepsValid(db.products, db.reviews, db.orders, db.nextId, user, product, input, r.value);
      AddReview(db, r.value);
      UpdateProductRating(db, product);
    }
  }

  /** The checks of a create, in the handler's order: the product, an earlier review, then validation. */
  method CheckReview(products: map<ProductId, Product>, reviews: seq<Review>, nextId: nat,
                     user: UserId, product: ProductId, input: ReviewInput) returns (r: Result<Review, ApiError>)
    ensures r == CreateReviewResult(products, reviews, nextId, user, product, input)
  {
    if product !in products {
      return Failure(ProductNotFound);
    }
    var existing := FindIndex(reviews, (x: Review) => x.user == user && x.product == product);
    if existing.Some? {
      assert FindUserReview(reviews, user, product).Some?;
      return Failure(AlreadyReviewed);
    }
    assert FindUserReview(reviews, user, product).None?;
    var review := NewReview(nextId, user, product, input);
    if !ReviewValid(review) {
      return Failure(ValidationFailed);
    }
    r := Success(review);
  }

  /** The write of a create: the review stored under the next id. */
  method AddReview(db: Database, review: Review)
    requires db.Valid() && ReviewsValid(db.reviews + [review], db.nextId + 1) && OrdersValid(db.orders, db.nextId + 1)
    modifies db`reviews, db`nextId
    ensures db.Valid()
    ensures db.reviews == old(db.reviews) + [review] && db.nextId == old(db.nextId) + 1
  {
    db.reviews := db.reviews + [review];
    db.nextId := db.nextId + 1;
  }

  // ---------------------------------------------------------------- update

  /** The outcome of updating the caller's review. */
  function UpdateReviewResult(reviews: seq<Review>, user: UserId, id: ReviewId, input: ReviewInput): Result<Review, ApiError>
  {
    match FindOwnReview(reviews, user, id)
    case None => Failure(ReviewNotFound)
    case Some(i) =>
      var r := reviews[i].(rating := input.rating, title := Trim(input.title), comment := Trim(input.comment));
      if !ReviewValid(r) then Failure(ValidationFailed) else Success(r)
  }

  /**
   * An update fails as not found exactly when the caller has no review with the
   * id (another user's review included). Otherwise it overwrites exactly rating,
   * title and comment, and fails only when the new values break the bounds.
   */
  lemma UpdateReviewOutcome(reviews: seq<Review>, user: UserId, id: ReviewId, input: ReviewInput)
    ensures var r := UpdateReviewResult(reviews, user, id, input);
            var found := FindOwnReview(reviews, user, id);
            (r == Failure(ReviewNotFound) <==>
               forall j :: 0 <= j < |reviews| ==> reviews[j].id != id || reviews[j].user != user)
            && (r == Failure(ValidationFailed) <==>
                  found.Some? && !(1 <= input.rating <= 5 && |Trim(input.title)| <= 100 && |Trim(input.comment)| <= 1000))
            && (r.Success? ==>
                  found.Some?
                  && r.value.rating == input.rating && r.value.title == Trim(input.title)
                  && r.value.comment == Trim(input.comment)
                  && r.value.(rating := reviews[found.value].rating, title := reviews[found.value].title,
                              comment := reviews[found.value].comment) == reviews[found.value])
  {
  }

  /** An update keeps the store valid: the review keeps its id, user and product. */
  lemma UpdateReviewKeepsValid(products: map<ProductId, Product>, reviews: seq<Review>, nextId: nat,
                               user: UserId, id: ReviewId, input: ReviewInput, r: Review)
    requires ProductsValid(products) && ReviewsValid(reviews, nextId)
    requires UpdateReviewResult(reviews, user, id, input) == Success(r)
    ensures ReviewsValid(reviews[FindOwnReview(reviews, user, id).value := r], nextId)
    ensures ProductsValid(WithRating(products, reviews[FindOwnReview(reviews, user, id).value := r], r.product))
  {
    var i := FindOwnReview(reviews, user, id).value;
    var after := reviews[i := r];
    assert forall j :: 0 <= j < |after| ==> after[j].id == reviews[j].id && after[j].user == reviews[j].user
                                            && after[j].product == reviews[j].product;
    assert RatingsInRange(after);
    WithRatingEffect(products, after, r.product);
  }

  /** PUT /:id: update the caller's review, then recompute the product's statistics. */
  method UpdateReview(db: Database, user: UserId, id: ReviewId, input: ReviewInput) returns (r: Result<Review, ApiError>)
    requires db.Valid()
    modifies db`products, db`reviews
    ensures r == UpdateReviewResult(old(db.reviews), user, id, input)
    ensures r.Failure? ==> db.products == old(db.products) && db.reviews == old(db.reviews)
    ensures r.Success? ==>
              db.reviews == old(db.reviews)[FindOwnReview(old(db.reviews), user, id).value := r.value]
              && db.products == WithRating(old(db.products), db.reviews, r.value.product)
    ensures db.Valid()
  {
    var found := FindIndex(db.reviews, (x: Review) => x.id == id && x.user == user);
    if found.None? {
      return Failure(ReviewNotFound);
    }
    var i := found.value;
    FindOwnReviewUnique(db.reviews, db.nextId, user, id, i);
    var review := db.reviews[i].(rating := input.rating, title := Trim(input.title), comment := Trim(input.comment));
    if !ReviewValid(review) {
      return Failure(ValidationFailed);
    }
    r := Success(review);
    UpdateReviewKeepsValid(db.products, db.reviews, db.nextId, user, id, input, review);
    db.reviews := db.reviews[i := review];
    UpdateProductRating(db, review.product);
  }

  // ---------------------------------------------------------------- delete

  /** The outcome of deleting the caller's review: the deleted review, or not found. */
  function DeleteReviewResult(reviews: seq<Review>, user: UserId, id: ReviewId): (r: Result<Review, ApiError>)
    ensures r.Failure? <==> forall j :: 0 <= j < |reviews| ==> reviews[j].id != id || reviews[j].user != user
    ensures r.Failure? ==> r.error == ReviewNotFound
    ensures r.Success? ==> r.value.id == id && r.value.user == user && r.value in reviews
  {
    match FindOwnReview(reviews, user, id)
    case None => Failure(ReviewNotFound)
    case Some(i) => Success(reviews[i])
  }

  /** Deleting a review of a valid list removes exactly that review and keeps the list valid. */
  lemma DeleteReviewKeepsValid(reviews: seq<Review>, nextId: nat, i: nat)
    requires ReviewsValid(reviews, nextId) && i < |reviews|
    ensures var after := reviews[..i] + reviews[i + 1..];
            ReviewsValid(after, nextId) && |after| == |reviews| - 1
            && forall r :: r in after <==> r in reviews && r.id != reviews[i].id
  {
    var after := reviews[..i] + reviews[i + 1..];
    assert forall j :: 0 <= j < |after| ==> after[j] == reviews[if j < i then j else j + 1];
    forall r | r in reviews && r.id != reviews[i].id
      ensures r in after
    {
      var j :| 0 <= j < |reviews| && reviews[j] == r;
      if j < i {
        assert after[j] == r;
      } else {
        assert after[j - 1] == r;
      }
    }
  }

  /**
   * DELETE /:id: removes the caller's review. The rating statistics are not
   * recomputed, so the product keeps the figures it had.
   */
  method DeleteReview(db: Database, user: UserId, id: ReviewId) returns (r: Result<Review, ApiError>)
    requires db.Valid()
    modifies db`reviews
    ensures r == DeleteReviewResult(old(db.reviews), user, id)
    ensures r.Failure? ==> db.reviews == old(db.reviews)
    ensures r.Success? ==> |db.reviews| == |old(db.reviews)| - 1
                           && forall x :: x in db.reviews <==> x in old(db.reviews) && x.id != id
    ensures db.Valid()
  {
    var found := FindIndex(db.reviews, (x: Review) => x.id == id && x.user == user);
    if found.None? {
      return Failure(ReviewNotFound);
    }
    var i := found.value;
    FindOwnReviewUnique(db.reviews, db.nextId, user, id, i);
    DeleteReviewKeepsValid(db.reviews, db.nextId, i);
    r := Success(db.reviews[i]);
    db.reviews := db.reviews[..i] + db.reviews[i + 1..];
  }
}
