/**
 * Catalog documents: the product record with the bounds its schema enforces,
 * the two derived prices a product exposes, and the pre-save hook that gives a
 * product or a category a slug.
 *
 * Money is kept in integer cents; the derived prices are real numbers because
 * a percentage of a price need not be a whole number of cents.
 */
module Catalog {
  import opened Common
  import Slug

  type ProductId = string
  type CategoryId = string

  /** The product fields the storefront logic reads or writes. */
  datatype Product = Product(
    name: string,
    slug: string,
    category: CategoryId,
    price: int,                     // cents
    comparePrice: Option<int>,      // cents
    stockQuantity: int,
    lowStockThreshold: int,
    prescriptionRequired: bool,
    isActive: bool,
    isFeatured: bool,
    isOnSale: bool,
    salePercentage: Option<real>,
    averageRating: int,             // tenths of a star
    totalReviews: nat)

  /** The schema's bounds on a stored product. */
  predicate ProductValid(p: Product)
  {
    p.price >= 0
    && (p.comparePrice.Some? ==> p.comparePrice.value >= 0)
    && p.stockQuantity >= 0
    && (p.salePercentage.Some? ==> 0.0 <= p.salePercentage.value <= 100.0)
    && 0 <= p.averageRating <= 50
  }

  /** The sale percentage applies: on sale with a set, positive percentage. */
  predicate SaleApplies(p: Product)
  {
    p.isOnSale && p.salePercentage.Some? && p.salePercentage.value > 0.0
  }

  /** The `salePrice` virtual: the price less the sale percentage while the product is on sale. */
  function SalePrice(p: Product): (r: real)
    ensures !SaleApplies(p) ==> r == p.price as real
    ensures SaleApplies(p) ==> r * 100.0 == p.price as real * (100.0 - p.salePercentage.value)
    ensures ProductValid(p) ==> 0.0 <= r <= p.price as real
    ensures ProductValid(p) && p.price > 0 && SaleApplies(p) ==> r < p.price as real
  {
    if p.isOnSale && p.salePercentage.Some? && p.salePercentage.value > 0.0 then
      var price := p.price as real;
      var pct := p.salePercentage.value;
      assert ProductValid(p) ==> 0.0 <= price * pct / 100.0 <= price by {
        if ProductValid(p) {
          assert price * pct <= price * 100.0;
        }
      }
      price - price * pct / 100.0
    else
      p.price as real
  }

  /** `Math.round`: the nearest integer, halves rounded up. */
  function Round(x: real): (r: int)
    ensures r as real - 0.5 <= x < r as real + 0.5
  {
    (x + 0.5).Floor
  }

  /** A compare-at price is set (and non-zero) and above the price. */
  predicate HasDiscount(p: Product)
  {
    p.comparePrice.Some? && p.comparePrice.value != 0 && p.comparePrice.value > p.price
  }

  /**
   * The `discountPercentage` virtual: how far the price is below the compare-at
   * price, as a whole percentage of the compare-at price; 0 when there is no
   * higher compare-at price.
   */
  function DiscountPercentage(p: Product): (r: int)
    ensures !HasDiscount(p) ==> r == 0
    ensures HasDiscount(p) ==>
              var c := p.comparePrice.value as real;
              r as real - 0.5 <= (c - p.price as real) / c * 100.0 < r as real + 0.5
    ensures ProductValid(p) ==> 0 <= r <= 100
  {
    if HasDiscount(p) then
      var c := p.comparePrice.value as real;
      var x := (c - p.price as real) / c * 100.0;
      assert ProductValid(p) ==> 0.0 < x <= 100.0 by {
        if ProductValid(p) {
          FractionAtMostOne(c - p.price as real, c);
        }
      }
      Round(x)
    else
      0
  }

  lemma FractionAtMostOne(a: real, c: real)
    requires 0.0 < a <= c
    ensures 0.0 < a / c * 100.0 <= 100.0
  {
    assert a / c <= 1.0;
  }

  /**
   * The slug a save leaves on a document: a non-empty slug is kept; otherwise,
   * when the name changed, the slug of the new name.
   */
  function SlugOnSave(nameModified: bool, name: string, slug: string): (r: string)
    ensures slug != "" ==> r == slug
    ensures slug == "" && nameModified ==> r == Slug.Slugify(name)
    ensures slug == "" && !nameModified ==> r == ""
  {
    if !nameModified || slug != "" then slug else Slug.Slugify(name)
  }

  /** Saving again with the slug a save produced changes nothing. */
  lemma SlugOnSaveSettles(nameModified: bool, name: string, slug: string, again: bool)
    requires slug != "" || (nameModified && Slug.Slugify(name) != "")
    ensures SlugOnSave(again, name, SlugOnSave(nameModified, name, slug))
            == SlugOnSave(nameModified, name, slug)
  {
  }

  /** The part of a product document the slug hook touches. */
  class ProductDocument {
    var name: string
    var slug: string

    constructor (name: string, slug: string)
      ensures this.name == name && this.slug == slug
    {
      this.name := name;
      this.slug := slug;
    }

    /** The pre-save hook: fill an empty slug from a changed name. */
    method PreSave(nameModified: bool)
      modifies this
      ensures name == old(name)
      ensures slug == SlugOnSave(nameModified, name, old(slug))
    {
      if !nameModified || slug != "" {
        return;
      }
      slug := Slug.Slugify(name);
    }
  }

  /** The part of a category document the slug hook touches. */
  class CategoryDocument {
    var name: string
    var slug: string

    constructor (name: string, slug: string)
      ensures this.name == name && this.slug == slug
    {
      this.name := name;
      this.slug := slug;
    }

    /** The pre-save hook: fill an empty slug from a changed name. */
    method PreSave(nameModified: bool)
      modifies this
      ensures name == old(name)
      ensures slug == SlugOnSave(nameModified, name, old(slug))
    {
      if !nameModified || slug != "" {
        return;
      }
      slug := Slug.Slugify(name);
    }
  }
}
