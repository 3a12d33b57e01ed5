/**
 * The public product endpoints: the filtered, paged list; one product by slug;
 * the featured and sale shelves; and search. Every one of them shows active
 * products only. The database's text matching (`$regex` with the `i` option) is
 * a parameter here, and the catalogue arrives in the order the request sorts by.
 */
module ProductRoutes {
  import opened Common
  import opened Catalog
  import opened Paging
  import opened Store

  /** A regular-expression test of a pattern against a product's text fields. */
  type TextMatch = (string, Product) -> bool

  /**
   * A price parameter as the handler reads it: absent or empty (falsy, so no
   * bound), or what `parseFloat` makes of it, a number in cents or NaN.
   */
  datatype PriceParam = Absent | NotANumber | Cents(value: int)

  /** The bound the query carries for a price parameter that is not NaN. */
  function PriceBound(p: PriceParam): (b: Option<int>)
    ensures b.Some? <==> p.Cents?
    ensures p.Cents? ==> b.value == p.value
  {
    if p.Cents? then Some(p.value) else None
  }

  /**
   * The list endpoint's query string. A parameter that is absent is the empty
   * string; page and limit arrive as `parseInt` gives them (None for NaN), and the
   * price bounds as `PriceParam`s.
   */
  datatype ListRequest = ListRequest(
    page: Option<int>,
    limit: Option<int>,
    category: string,
    brand: string,
    priceMin: PriceParam,
    priceMax: PriceParam,
    inStock: string,
    prescriptionRequired: string,
    isOnSale: string,
    isFeatured: string,
    search: string,
    sortOrder: Option<string>)

  /** `Math.max(1, parseInt(page) || 1)`. */
  function ListPage(v: Option<int>): int
  {
    var p := OrDefault(v, 1);
    if p < 1 then 1 else p
  }

  /** `Math.min(100, Math.max(1, parseInt(limit) || 12))`. */
  function ListLimit(v: Option<int>): int
  {
    var l := OrDefault(v, 12);
    var atLeastOne := if l < 1 then 1 else l;
    if atLeastOne > 100 then 100 else atLeastOne
  }

  /**
   * The page is at least 1 and the limit lies in [1, 100]. A requested page of at
   * least 1 is kept, as is a requested limit in [1, 100]; a missing or zero value
   * gives page 1 and limit 12; a larger limit gives 100 and a negative one gives 1.
   */
  lemma PageAndLimit(page: Option<int>, limit: Option<int>)
    ensures ListPage(page) >= 1 && 1 <= ListLimit(limit) <= 100
    ensures page.Some? && page.value >= 1 ==> ListPage(page) == page.value
    ensures page.None? || page.value <= 1 ==> ListPage(page) == 1
    ensures limit.Some? && 1 <= limit.value <= 100 ==> ListLimit(limit) == limit.value
    ensures limit.None? || limit.value == 0 ==> ListLimit(limit) == 12
    ensures limit.Some? && limit.value > 100 ==> ListLimit(limit) == 100
    ensures limit.Some? && limit.value < 0 ==> ListLimit(limit) == 1
  {
  }

  /** `sortOrder === 'asc' ? 1 : -1`, the order defaulting to descending. */
  function SortDirection(sortOrder: Option<string>): (d: int)
    ensures d == 1 || d == -1
    ensures d == 1 <==> sortOrder == Some("asc")
  {
    if sortOrder == Some("asc") then 1 else -1
  }

  /** The category parameter: the id of the category with that slug, or the parameter itself as an id. */
  function ResolveCategory(slugs: map<string, CategoryId>, category: string): CategoryId
  {
    if category in slugs then slugs[category] else category
  }

  /** The database query the handler builds. */
  datatype Query = Query(
    category: Option<CategoryId>,
    brand: Option<string>,
    priceMin: Option<int>,
    priceMax: Option<int>,
    inStockOnly: bool,
    prescriptionOnly: bool,
    saleOnly: bool,
    featuredOnly: bool,
    search: Option<string>)

  /**
   * The conditional field assignments: a filter is set exactly when its parameter
   * is present, to the parameter's value; a flag is on only for the text "true".
   */
  function BuildQuery(req: ListRequest, slugs: map<string, CategoryId>): (r: Query)
    ensures r.category.Some? <==> req.category != ""
    ensures r.category.Some? ==> r.category.value == ResolveCategory(slugs, req.category)
    ensures r.brand.Some? <==> req.brand != ""
    ensures r.brand.Some? ==> r.brand.value == req.brand
    ensures r.priceMin.Some? <==> req.priceMin.Cents?
    ensures r.priceMax.Some? <==> req.priceMax.Cents?
    ensures r.search.Some? <==> req.search != ""
    ensures r.search.Some? ==> r.search.value == req.search
    ensures r.inStockOnly <==> req.inStock == "true"
    ensures r.featuredOnly <==> req.isFeatured == "true"
  {
    Query(
      if req.category == "" then None else Some(ResolveCategory(slugs, req.category)),
      if req.brand == "" then None else Some(req.brand),
      PriceBound(req.priceMin),
      PriceBound(req.priceMax),
      req.inStock == "true",
      req.prescriptionRequired == "true",
      req.isOnSale == "true",
      req.isFeatured == "true",
      if req.search == "" then None else Some(req.search))
  }

  /** A product satisfies the query (which always includes `isActive: true`). */
  predicate Matches(q: Query, p: Product, brandMatch: TextMatch, textMatch: TextMatch)
  {
    p.isActive
    && (q.category.Some? ==> p.category == q.category.value)
    && (q.brand.Some? ==> brandMatch(q.brand.value, p))
    && (q.priceMin.Some? ==> p.price >= q.priceMin.value)
    && (q.priceMax.Some? ==> p.price <= q.priceMax.value)
    && (q.inStockOnly ==> p.stockQuantity > 0)
    && (q.prescriptionOnly ==> p.prescriptionRequired)
    && (q.saleOnly ==> p.isOnSale)
    && (q.featuredOnly ==> p.isFeatured)
    && (q.search.Some? ==> textMatch(q.search.value, p))
  }

  /**
   * What the list filter means for a request: only active products; the category
   * filter when the parameter is present; inclusive price bounds; stock above zero
   * and the three flags only when the parameter is exactly "true".
   */
  lemma ListFilterMeaning(req: ListRequest, slugs: map<string, CategoryId>, p: Product,
                          brandMatch: TextMatch, textMatch: TextMatch)
    ensures Matches(BuildQuery(req, slugs), p, brandMatch, textMatch) <==>
              p.isActive
              && (req.category != "" ==> p.category == ResolveCategory(slugs, req.category))
              && (req.brand != "" ==> brandMatch(req.brand, p))
              && (req.priceMin.Cents? ==> req.priceMin.value <= p.price)
              && (req.priceMax.Cents? ==> p.price <= req.priceMax.value)
              && (req.inStock == "true" ==> p.stockQuantity > 0)
              && (req.prescriptionRequired == "true" ==> p.prescriptionRequired)
              && (req.isOnSale == "true" ==> p.isOnSale)
              && (req.isFeatured == "true" ==> p.isFeatured)
              && (req.search != "" ==> textMatch(req.search, p))
  {
  }

  /** The products the list query finds, in catalogue order: exactly the matching ones. */
  function Selected(catalog: seq<Product>, req: ListRequest, slugs: map<string, CategoryId>,
                    brandMatch: TextMatch, textMatch: TextMatch): (r: seq<Product>)
    ensures forall p :: p in r <==> p in catalog && Matches(BuildQuery(req, slugs), p, brandMatch, textMatch)
  {
    var q := BuildQuery(req, slugs);
    SelectComplete(catalog, (p: Product) => Matches(q, p, brandMatch, textMatch));
    Select(catalog, (p: Product) => Matches(q, p, brandMatch, textMatch))
  }

  /** One page of the list, with its pagination block. */
  datatype Listing = Listing(items: seq<Product>, page: int, limit: int, total: nat, totalPages: nat)

  /** GET /: the matching products, the requested page of them, and the page count. */
  function ListProducts(catalog: seq<Product>, req: ListRequest, slugs: map<string, CategoryId>,
                        brandMatch: TextMatch, textMatch: TextMatch): (r: Listing)
    ensures r.page >= 1 && 1 <= r.limit <= 100 && |r.items| <= r.limit
    ensures forall k :: 0 <= k < |r.items| ==>
              r.items[k] in catalog && r.items[k].isActive
              && Matches(BuildQuery(req, slugs), r.items[k], brandMatch, textMatch)
    ensures r.total == |Selected(catalog, req, slugs, brandMatch, textMatch)|
    ensures r.totalPages * r.limit >= r.total && (r.totalPages > 0 ==> (r.totalPages - 1) * r.limit < r.total)
  {
    var page, limit := ListPage(req.page), ListLimit(req.limit);
    var selected := Selected(catalog, req, slugs, brandMatch, textMatch);
    Listing(Window(selected, PageStart(page, limit), limit), page, limit, |selected|, CeilDiv(|selected|, limit))
  }

  /**
   * The list handler's answer. A NaN price bound makes the database's cast of
   * `$gte`/`$lte` fail when the query runs, and the handler's catch answers 500;
   * otherwise the listing.
   */
  function ListResponse(catalog: seq<Product>, req: ListRequest, slugs: map<string, CategoryId>,
                        brandMatch: TextMatch, textMatch: TextMatch): (r: Result<Listing, ApiError>)
    ensures r.Failure? <==> req.priceMin.NotANumber? || req.priceMax.NotANumber?
    ensures r.Failure? ==> HttpStatus(r.error) == 500
    ensures r.Success? ==> r.value == ListProducts(catalog, req, slugs, brandMatch, textMatch)
  {
    if req.priceMin.NotANumber? || req.priceMax.NotANumber? then Failure(QueryFailed)
    else Success(ListProducts(catalog, req, slugs, brandMatch, textMatch))
  }

  /**
   * Every matching product is counted and shown: entry `offset` of page `page`
   * is match number `(page - 1) * limit + offset` whenever that match exists, and
   * the page is then within the page count.
   */
  lemma ListingCoversMatches(catalog: seq<Product>, req: ListRequest, slugs: map<string, CategoryId>,
                             brandMatch: TextMatch, textMatch: TextMatch, page: nat, offset: nat)
    requires page >= 1 && req.page == Some(page) && offset < ListLimit(req.limit)
    requires PageStart(page, ListLimit(req.limit)) + offset < |Selected(catalog, req, slugs, brandMatch, textMatch)|
    ensures var r := ListProducts(catalog, req, slugs, brandMatch, textMatch);
            r.page == page && r.page <= r.totalPages && offset < |r.items|
            && r.items[offset] == Selected(catalog, req, slugs, brandMatch, textMatch)[PageStart(page, r.limit) + offset]
  {
    var selected, limit := Selected(catalog, req, slugs, brandMatch, textMatch), ListLimit(req.limit);
    PageAndLimit(req.page, req.limit);
    ListingParts(catalog, req, slugs, brandMatch, textMatch, selected, page, limit);
    ListingEntry(ListProducts(catalog, req, slugs, brandMatch, textMatch), selected, page, limit, offset);
  }

  /**
   * Entry `offset` of the page's window is the entry that many past the page's
   * start, and a page whose entry exists is within the page count.
   */
  lemma ListingEntry(r: Listing, selected: seq<Product>, page: nat, limit: nat, offset: nat)
    requires page >= 1 && limit >= 1 && r.page == page && r.limit == limit
    requires r.items == Window(selected, PageStart(page, limit), limit)
    requires r.totalPages == CeilDiv(|selected|, limit)
    requires offset < limit && PageStart(page, limit) + offset < |selected|
    ensures r.page <= r.totalPages && offset < |r.items|
    ensures r.items[offset] == selected[PageStart(page, r.limit) + offset]
  {
    WindowEntry(selected, limit, page, offset);
  }

  /** The listing is the requested window of the selection, under the clamped page and limit. */
  lemma ListingParts(catalog: seq<Product>, req: ListRequest, slugs: map<string, CategoryId>,
                     brandMatch: TextMatch, textMatch: TextMatch, selected: seq<Product>, page: nat, limit: nat)
    requires selected == Selected(catalog, req, slugs, brandMatch, textMatch)
    requires page == ListPage(req.page) && limit == ListLimit(req.limit) && page >= 1 && limit >= 1
    ensures var r := ListProducts(catalog, req, slugs, brandMatch, textMatch);
            r.page == page && r.limit == limit && r.items == Window(selected, PageStart(page, limit), limit)
            && r.totalPages == CeilDiv(|selected|, limit)
  {
  }

  /** GET /:slug: the active product with that slug, else not found. */
  function ProductBySlug(catalog: seq<Product>, slug: string): (r: Result<Product, ApiError>)
    ensures r.Success? ==> r.value in catalog && r.value.isActive && r.value.slug == slug
    ensures r.Failure? <==> forall p :: p in catalog ==> !(p.isActive && p.slug == slug)
    ensures r.Failure? ==> r.error == ProductNotFound
  {
    if |catalog| == 0 then Failure(ProductNotFound)
    else if catalog[0].isActive && catalog[0].slug == slug then Success(catalog[0])
    else
      var rest := ProductBySlug(catalog[1..], slug);
      assert forall p :: p in catalog ==> p == catalog[0] || p in catalog[1..];
      rest
  }

  /** `limit(8)`: the first eight, or all of fewer. */
  function FirstEight(s: seq<Product>): (r: seq<Product>)
    ensures r <= s
    ensures |r| == if |s| < 8 then |s| else 8
  {
    if |s| <= 8 then s else s[..8]
  }

  /**
   * The featured shelf: the first eight active, featured products in catalogue
   * order, or all of them when there are fewer.
   */
  function Featured(catalog: seq<Product>): (r: seq<Product>)
    ensures var all := Select(catalog, (p: Product) => p.isFeatured && p.isActive);
            r <= all && |r| == (if |all| < 8 then |all| else 8)
    ensures forall k :: 0 <= k < |r| ==> r[k] in catalog && r[k].isActive && r[k].isFeatured
  {
    var all := Select(catalog, (p: Product) => p.isFeatured && p.isActive);
    var r := FirstEight(all);
    assert forall k :: 0 <= k < |r| ==> r[k] == all[k];
    r
  }

  /**
   * The sale shelf: the first eight active products on sale in catalogue order,
   * or all of them when there are fewer.
   */
  function OnSale(catalog: seq<Product>): (r: seq<Product>)
    ensures var all := Select(catalog, (p: Product) => p.isOnSale && p.isActive);
            r <= all && |r| == (if |all| < 8 then |all| else 8)
    ensures forall k :: 0 <= k < |r| ==> r[k] in catalog && r[k].isActive && r[k].isOnSale
  {
    var all := Select(catalog, (p: Product) => p.isOnSale && p.isActive);
    var r := FirstEight(all);
    assert forall k :: 0 <= k < |r| ==> r[k] == all[k];
    r
  }

  /** A shelf shows every qualifying product when there are at most eight of them. */
  lemma ShelvesComplete(catalog: seq<Product>)
    ensures |Select(catalog, (p: Product) => p.isFeatured && p.isActive)| <= 8 ==>
              forall p :: p in catalog && p.isActive && p.isFeatured ==> p in Featured(catalog)
    ensures |Select(catalog, (p: Product) => p.isOnSale && p.isActive)| <= 8 ==>
              forall p :: p in catalog && p.isActive && p.isOnSale ==> p in OnSale(catalog)
  {
    SelectComplete(catalog, (p: Product) => p.isFeatured && p.isActive);
    SelectComplete(catalog, (p: Product) => p.isOnSale && p.isActive);
  }

  /** GET /search/search: a missing or empty `q` is refused; otherwise the active products matching it. */
  function Search(catalog: seq<Product>, q: string, textMatch: TextMatch): (r: Result<seq<Product>, ApiError>)
    ensures r.Failure? <==> q == ""
    ensures r.Failure? ==> r.error == SearchQueryRequired && HttpStatus(r.error) == 400
    ensures r.Success? ==> forall k :: 0 <= k < |r.value| ==>
              r.value[k] in catalog && r.value[k].isActive && textMatch(q, r.value[k])
    ensures r.Success? ==> forall p :: p in catalog && p.isActive && textMatch(q, p) ==> p in r.value
  {
    if q == "" then Failure(SearchQueryRequired)
    else
      SelectComplete(catalog, (p: Product) => p.isActive && textMatch(q, p));
      Success(Select(catalog, (p: Product) => p.isActive && textMatch(q, p)))
  }
}
