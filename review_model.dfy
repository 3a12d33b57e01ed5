/**
 * Product reviews: a rating from 1 to 5 per user and product, and the rating
 * statistics a product carries — the number of its reviews and their mean,
 * rounded to one decimal (kept here as a whole number of tenths).
 */
module ReviewModel {
  import opened Common
  import Catalog
  import CartModel

  type ReviewId = nat

  datatype Review = Review(
    id: ReviewId,
    user: CartModel.UserId,
    product: Catalog.ProductId,
    rating: int,
    title: string,
    comment: string,
    isVerified: bool)

  /** The schema bounds: a rating in [1, 5], a title of at most 100 and a comment of at most 1000 characters. */
  predicate ReviewValid(r: Review)
  {
    1 <= r.rating <= 5 && |r.title| <= 100 && |r.comment| <= 1000
  }

  /** The unique (user, product) index: no two reviews share both. */
  predicate OneReviewPerUserAndProduct(reviews: seq<Review>)
  {
    forall i, j :: 0 <= i < j < |reviews| ==>
      reviews[i].user != reviews[j].user || reviews[i].product != reviews[j].product
  }

  /** How many reviews the product has. */
  function ReviewCount(reviews: seq<Review>, product: Catalog.ProductId): nat
  {
    if |reviews| == 0 then 0
    else ReviewCount(reviews[..|reviews| - 1], product)
         + (if reviews[|reviews| - 1].product == product then 1 else 0)
  }

  /** The sum of the product's ratings. */
  function RatingSum(reviews: seq<Review>, product: Catalog.ProductId): int
  {
    if |reviews| == 0 then 0
    else RatingSum(reviews[..|reviews| - 1], product)
         + (if reviews[|reviews| - 1].product == product then reviews[|reviews| - 1].rating else 0)
  }

  predicate RatingsInRange(reviews: seq<Review>)
  {
    forall i :: 0 <= i < |reviews| ==> 1 <= reviews[i].rating <= 5
  }

  /** With ratings from 1 to 5, the sum lies between the count and five times the count. */
  lemma {:induction false} RatingSumBounds(reviews: seq<Review>, product: Catalog.ProductId)
    requires RatingsInRange(reviews)
    ensures ReviewCount(reviews, product) <= RatingSum(reviews, product) <= 5 * ReviewCount(reviews, product)
  {
    if |reviews| > 0 {
      assert RatingsInRange(reviews[..|reviews| - 1]);
      RatingSumBounds(reviews[..|reviews| - 1], product);
    }
  }

  /**
   * `Math.round(sum / count * 10) / 10`, in tenths: the whole number of tenths
   * nearest to the mean, halves rounded up.
   */
  function RoundedTenths(sum: int, count: nat): (r: int)
    requires count > 0
    ensures 2 * count * r <= 20 * sum + count < 2 * count * (r + 1)
  {
    (20 * sum + count) / (2 * count)
  }

  /** The rounded mean is a nearest whole number of tenths: within half a tenth of the mean. */
  lemma RoundedTenthsNearest(sum: int, count: nat)
    requires count > 0
    ensures var r := RoundedTenths(sum, count) as real;
            r - 0.5 <= 10.0 * sum as real / count as real < r + 0.5
  {
    var r := RoundedTenths(sum, count);
    RealOfProducts(count, r, sum);
    NearestFromBounds(count as real, r as real, sum as real);
  }

  /** The integer bounds on the rounded tenths, read over the reals, put it within half a tenth of the mean. */
  lemma NearestFromBounds(c: real, r: real, s: real)
    requires c > 0.0 && 2.0 * c * r <= 20.0 * s + c < 2.0 * c * (r + 1.0)
    ensures r - 0.5 <= 10.0 * s / c < r + 0.5
  {
    var m := 10.0 * s / c;
    var cr := c * r;
    assert c * m == 10.0 * s;
    assert 2.0 * c * r == 2.0 * cr;
    assert 2.0 * c * (r + 1.0) == 2.0 * cr + 2.0 * c;
    assert cr - 0.5 * c <= 10.0 * s < cr + 0.5 * c;
    assert c * (r - 0.5) == cr - 0.5 * c;
    assert c * (r + 0.5) == cr + 0.5 * c;
    ScaleBackLe(c, r - 0.5, m);
    ScaleBackLt(c, m, r + 0.5);
  }

  lemma RealOfProducts(count: nat, r: int, sum: int)
    ensures (2 * count * r) as real == 2.0 * (count as real) * (r as real)
    ensures (20 * sum + count) as real == 20.0 * (sum as real) + count as real
    ensures (2 * count * (r + 1)) as real == 2.0 * (count as real) * (r as real + 1.0)
  {
  }

  lemma ScaleBackLe(c: real, x: real, y: real)
    requires c > 0.0 && c * x <= c * y
    ensures x <= y
  {
  }

  lemma ScaleBackLt(c: real, x: real, y: real)
    requires c > 0.0 && c * x < c * y
    ensures x < y
  {
  }

  lemma CancelLe(c: int, a: int, b: int)
    requires c > 0 && c * a <= c * b
    ensures a <= b
  {
  }

  /** A whole number of tenths within half a tenth of a mean rating from 1 to 5 lies in [10, 50]. */
  lemma TenthsInRange(sum: int, count: nat, r: int)
    requires count > 0 && count <= sum <= 5 * count
    requires 2 * count * r <= 20 * sum + count < 2 * count * (r + 1)
    ensures 10 <= r <= 50
  {
    TenthsAtMost(sum, count, r);
    TenthsAtLeast(sum, count, r);
  }

  lemma TenthsAtMost(sum: int, count: nat, r: int)
    requires count > 0 && sum <= 5 * count && 2 * count * r <= 20 * sum + count
    ensures r <= 50
  {
    assert 2 * count * r == count * (2 * r);
    assert count * (2 * r) <= count * 101;
    CancelLe(count, 2 * r, 101);
  }

  lemma TenthsAtLeast(sum: int, count: nat, r: int)
    requires count > 0 && count <= sum && 20 * sum + count < 2 * count * (r + 1)
    ensures 10 <= r
  {
    assert 2 * count * (r + 1) == count * (2 * r + 1) + count;
    assert count * 20 < count * (2 * r + 1);
    CancelLt(count, 20, 2 * r + 1);
  }

  lemma CancelLt(c: int, a: int, b: int)
    requires c > 0 && c * a < c * b
    ensures a < b
  {
  }

  /** The rating fields the statistics write onto a product. */
  datatype RatingStats = RatingStats(averageRating: int, totalReviews: nat)

  /** The product's statistics: zero without reviews, else the count and the rounded mean. */
  function ProductRating(reviews: seq<Review>, product: Catalog.ProductId): (s: RatingStats)
    ensures s.totalReviews == ReviewCount(reviews, product)
    ensures s.totalReviews == 0 ==> s.averageRating == 0
    ensures s.totalReviews > 0 ==> s.averageRating == RoundedTenths(RatingSum(reviews, product), s.totalReviews)
  {
    var count := ReviewCount(reviews, product);
    if count > 0 then RatingStats(RoundedTenths(RatingSum(reviews, product), count), count)
    else RatingStats(0, 0)
  }

  /** With ratings from 1 to 5 the average lies in [0, 5] stars, and in [1, 5] once reviewed. */
  lemma ProductRatingBounds(reviews: seq<Review>, product: Catalog.ProductId)
    requires RatingsInRange(reviews)
    ensures var s := ProductRating(reviews, product);
            0 <= s.averageRating <= 50
            && (s.totalReviews > 0 ==> 10 <= s.averageRating)
  {
    RatingSumBounds(reviews, product);
    var count := ReviewCount(reviews, product);
    if count > 0 {
      TenthsInRange(RatingSum(reviews, product), count, RoundedTenths(RatingSum(reviews, product), count));
    }
  }

  /** The public listing of a product: its verified reviews only, in stored order. */
  function VerifiedReviews(reviews: seq<Review>, product: Catalog.ProductId): (r: seq<Review>)
    ensures |r| <= |reviews|
    ensures forall k :: 0 <= k < |r| ==> r[k].product == product && r[k].isVerified && r[k] in reviews
  {
    if |reviews| == 0 then []
    else
      var last := reviews[|reviews| - 1];
      var prev := VerifiedReviews(reviews[..|reviews| - 1], product);
      prev + (if last.product == product && last.isVerified then [last] else [])
  }

  /** Every verified review of the product is listed. */
  lemma {:induction false} VerifiedReviewsComplete(reviews: seq<Review>, product: Catalog.ProductId)
    ensures forall r :: r in reviews && r.product == product && r.isVerified ==> r in VerifiedReviews(reviews, product)
  {
    if |reviews| > 0 {
      var n := |reviews| - 1;
      VerifiedReviewsComplete(reviews[..n], product);
      assert reviews == reviews[..n] + [reviews[n]];
    }
  }
}
