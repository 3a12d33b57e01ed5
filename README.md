# Pharmacy storefront: a verified model of the shopping and ordering core

This project models, in Dafny, the core logic of an online pharmacy built with
an Express/Mongoose back end and a React front end. It covers the following:

- **Cart.** Each user has one cart with lines of `{product, quantity, price}`. The
  server adds, updates, removes and clears lines. The cart's pre-save hook
  recomputes `subtotal` and `total` from the lines.
- **Orders.** An order is placed from the cart: the cart must not be empty, each
  line's stock is checked, the prescription flags are OR-ed, the lines are built,
  stock is taken off and the cart is cleared. A pending order can be cancelled,
  which puts the stock back. The order's hooks recompute its totals and give it a
  tracking number of the form `ORD-YYMMDD-NNNN`.
- **Reviews.** Each user may review a product once, with a rating from 1 to 5. Each
  save recomputes the product's average rating, rounded to one decimal, and its
  review count.
- **Catalogue.** Slugs are derived from names. A product has a sale price and a
  discount percentage. The import script removes duplicate slugs with `-1`,
  `-2`, … suffixes and classifies dosage form, prescription and
  controlled-substance flags by keyword. The category collection keeps a unique
  index on the name and on the slug; the admin route that creates a category is
  refused (400) when either is taken or empty.
- **Queries.** Page and limit are clamped, the product filter is built, and
  `totalPages` is computed. The admin API lists and filters products, orders and
  reviews, updates order status, verifies reviews, sums revenue and validates
  demo-data requests.
- **Front-end state.** The model covers:
  - the page-number list with ellipses and the "Showing x–y" range;
  - filter-to-URL updates;
  - the admin badges and the order-status action table;
  - the two-step checkout;
  - the cart context (item count, total, state after each request);
  - the bounded quantity selector and the star display;
  - the product form (comma-list parsing, images, edit defaults, subcategory choice);
  - the demo-data selection;
  - the category tree and category form.

## How the model is built

- **Storage.** The database is one `Store.Database` class held in memory:
  - products and carts are maps keyed by id;
  - orders and reviews are sequences in insertion order;
  - one counter hands out fresh order and review ids.
- **Handlers.** Each route handler is a method that changes the database. Each one
  is proved against a pure `…Result` function. Lemmas beside it state that
  function's failure cases (both directions), its success shape, and that it keeps
  `Database.Valid()`.
- **Categories.** The category collection is a `CategoryStore.Categories` class
  whose `Valid()` is the pair of unique indexes. Mongoose runs validation before
  the pre-save hooks, so a new category with no slug is refused before the slug
  hook could fill it.
- **Documents with hooks.** Mongoose documents with pre-save hooks are small classes
  (`CartDocument`, `OrderDocument`, `ProductDocument`, `CategoryDocument`).
- **React pages.** Pages that hold state are classes whose methods are the event
  handlers. Pure helpers are functions.
- **Loops.** Loops in the source are methods with loop invariants, proved against
  reference functions. Examples are the slug-collision loops, the import loops,
  the order-placement loop, the stock writes and the page-number builder.
- **Numbers.** Money is in integer cents. An average rating is in integer tenths
  of a star. `parseInt` results arrive as `Option<int>`, where `None` stands
  for `NaN` or a missing value. A price bound is a `PriceParam`, which keeps
  `NaN` apart from a missing bound, because a `NaN` bound makes the list query
  fail with 500.
- **JavaScript truthiness.** The model spells truthiness out wherever the source
  relies on it: `||` defaults, `!parent`, `value || ''`.

## Model

| member | source | states |
|---|---|---|
| Common.LowerChar | medicine/backend/src/models/Product.ts:169-170 | `toLowerCase` on ASCII: A–Z become a–z, and the result has no ASCII upper-case letter; other characters are kept as they are (see Left out) |
| Common.Lower | medicine/backend/scripts/importData.ts:40 | the ASCII lower-casing applies `LowerChar` to each character, one for one, so the length is kept (see Left out for the Unicode cases) |
| Common.TrimShape | medicine/backend/src/models/Order.ts:75 | `trim` leaves no whitespace at either end and leaves an already trimmed string unchanged |
| Common.TrimTwice | medicine/backend/src/models/Order.ts:75 | trimming an already trimmed string changes nothing |
| Common.TrimStartShape | medicine/backend/src/models/Order.ts:75 | the leading-whitespace cut is a suffix of the input that starts with a non-space, and everything cut is whitespace |
| Common.TrimEndShape | medicine/backend/src/models/Order.ts:75 | the trailing-whitespace cut is a prefix of the input that ends with a non-space, and everything cut is whitespace |
| Common.Dec | medicine/backend/src/models/Order.ts:180-183 | `toString()` of a natural number is a non-empty string of digits |
| Common.DecRoundTrip | medicine/backend/src/models/Order.ts:180-183 | reading the decimal string back gives the number |
| Common.DecInjective | medicine/backend/src/models/Order.ts:180-183 | different numbers print differently |
| Common.Digits | medicine/backend/src/models/Order.ts:181-183 | the fixed-width decimal has exactly the width asked for and only digits |
| Common.DigitsValue | medicine/backend/src/models/Order.ts:181-183 | a fixed-width decimal reads back as the number when it fits |
| Common.PadStart | medicine/backend/src/models/Order.ts:181-183 | `padStart(w, c)` has length max(w, \|s\|), ends with s and is c before it |
| Common.PadDecIsDigits | medicine/backend/src/models/Order.ts:181-183 | `n.toString().padStart(w, '0')` is the w-digit decimal of n when it fits |
| Common.LastTwoDecDigits | medicine/backend/src/models/Order.ts:180 | `slice(-2)` of a year of at least two digits is its last two decimal digits |
| Common.FindIndex | medicine/backend/src/routes/cart.ts:73 | `find` gives the first position satisfying the test, and none exactly when no position does |
| Slug.SkipRun | medicine/backend/src/models/Product.ts:170 | dropping a leading run outside `[a-z0-9]` leaves a suffix that starts with a slug character |
| Slug.HyphenateShape | medicine/backend/src/models/Product.ts:170 | replacing each run outside `[a-z0-9]` with "-" leaves only slug characters and single hyphens |
| Slug.StripHyphens | medicine/backend/src/models/Product.ts:171 | stripping one hyphen from each end never lengthens the string |
| Slug.Slugify | medicine/backend/src/models/Product.ts:169-172 | every derived slug is in `[a-z0-9-]`, has no "--", has no hyphen at either end, and is no longer than the name |
| Slug.StripHyphensIsSlug | medicine/backend/src/models/Product.ts:169-172 | dropping one hyphen at each end of a string of slug characters and lone hyphens leaves a slug |
| Slug.AlnumsHyphenate | medicine/backend/src/models/Product.ts:170 | hyphenation keeps the letters and digits, in order |
| Slug.AlnumsStripHyphens | medicine/backend/src/models/Product.ts:171 | stripping the end hyphens keeps the letters and digits |
| Slug.SlugKeepsAlnums | medicine/backend/src/models/Product.ts:169-172 | the slug holds exactly the lower-cased name's letters and digits, in order |
| Slug.HyphenateOfSlug | medicine/backend/src/models/Product.ts:170 | a string already in the slug alphabet without "--" is unchanged by hyphenation |
| Slug.SlugifyOfSlug | medicine/backend/src/models/Product.ts:169-172 | a slug is its own slug |
| Slug.SlugifyIdempotent | medicine/backend/src/models/Product.ts:169-172 | deriving a slug twice gives the same slug as deriving it once |
| Catalog.SalePrice | medicine/backend/src/models/Product.ts:178-183 | on sale with a positive percentage the price is reduced by that percentage, otherwise it is the price; for a valid product it lies in [0, price], and strictly below a positive price when a sale applies |
| Catalog.Round | medicine/backend/src/models/Product.ts:190 | `Math.round` gives the nearest integer, halves rounded up |
| Catalog.DiscountPercentage | medicine/backend/src/models/Product.ts:186-191 | 0 unless the compare price is above the price, else the rounded percentage off; always in [0, 100] for a valid product |
| Catalog.SlugOnSave | medicine/backend/src/models/Product.ts:166-172 | an existing slug is never overwritten; an empty slug is derived from the name only when the name changed |
| Catalog.SlugOnSaveSettles | medicine/backend/src/models/Product.ts:166-172 | saving again after a save that set a slug leaves it unchanged |
| Catalog.ProductDocument.PreSave | medicine/backend/src/models/Product.ts:166-175 | the hook keeps the name and sets the slug as `SlugOnSave` says |
| Catalog.CategoryDocument.PreSave | medicine/backend/src/models/Category.ts:50-59 | the category hook applies the same rule to the category's slug |
| CategoryStore.CreateCategoryResult | medicine/backend/src/routes/admin.ts:439-455 | the new category is refused with 400 exactly when its trimmed name or lower-cased slug is empty or already stored; otherwise it is stored with the trimmed name and lower-cased slug |
| CategoryStore.CreateKeepsUnique | medicine/backend/src/models/Category.ts:4-16 | a category the route accepts keeps names and slugs unique across the collection |
| CategoryStore.SecondCreateRefused | medicine/backend/src/models/Category.ts:4-16 | after a category is stored, another with the same name or the same slug is refused |
| CategoryStore.ImportedCategoriesUnique | medicine/backend/scripts/importData.ts:103-129 | the categories the import script stores have unique names and unique slugs |
| CategoryStore.Categories.Create | medicine/backend/src/routes/admin.ts:439-455 | the collection grows by the accepted category, or is unchanged on refusal, and keeps both unique indexes |
| ImportData.AnyContains | medicine/backend/scripts/importData.ts:62 | `keys.some(k => t.includes(k))` holds exactly when some key occurs in t |
| ImportData.RuleTests | medicine/backend/scripts/importData.ts:41-51 | each rule of the table matches exactly when one of the keywords the script tests for it occurs |
| ImportData.FirstRule | medicine/backend/scripts/importData.ts:41-52 | the index of the first rule whose keywords occur, with no earlier rule matching; none exactly when no rule matches |
| ImportData.GetDosageForm | medicine/backend/scripts/importData.ts:37-53 | a missing or empty type is `other`; otherwise the form is that of the first rule, in the script's order, one of whose keywords occurs in the lower-cased type, and `other` exactly when no keyword occurs |
| ImportData.DosageKeyword | medicine/backend/scripts/importData.ts:41-52 | the if-chain agrees with the first-match classification over the ordered rule table (`ByRules`), and gives `other` exactly when no keyword occurs |
| ImportData.TabletWins | medicine/backend/scripts/importData.ts:41 | a type mentioning "oral" or "tablet" is a tablet whatever else it mentions |
| ImportData.TopicalIsLastResort | medicine/backend/scripts/importData.ts:41-51 | a type mentioning "topical" is a cream when none of the ten earlier rules matches; when any earlier rule matches, the form is that of the first earlier rule that matches |
| ImportData.DosageFormIgnoresCase | medicine/backend/scripts/importData.ts:40 | the classification depends only on the lower-cased type |
| ImportData.IsPrescriptionRequired | medicine/backend/scripts/importData.ts:56-63 | true exactly when the lower-cased category contains a listed category |
| ImportData.IsControlledSubstance | medicine/backend/scripts/importData.ts:66-72 | true exactly when the lower-cased drug name contains a listed drug; the category plays no part |
| ImportData.ImportedStock | medicine/backend/scripts/importData.ts:185 | `countInStock \|\| 100`: a given non-zero count is kept, a missing or zero count becomes 100 |
| ImportData.ImportMedicine | medicine/backend/scripts/importData.ts:176-200 | the product record copies name, trimmed category, brand or "Generic", stock, flags, tags and side effects as the script sets them; a drawn sale percentage lies in [10, 39] |
| ImportData.CandidateInjective | medicine/backend/scripts/importData.ts:126 | `base`, `base-1`, `base-2`, … are pairwise different |
| ImportData.CandidatesCount | medicine/backend/scripts/importData.ts:125-128 | the first k candidates are k different strings |
| ImportData.CandidatesMembers | medicine/backend/scripts/importData.ts:125-128 | the first k candidates are exactly the candidates numbered below k |
| ImportData.TakenBound | medicine/backend/scripts/importData.ts:125-128 | if the first k candidates are all taken, at least k slugs are taken, so the loop ends |
| ImportData.FirstFree | medicine/backend/scripts/importData.ts:125-128 | the reference index of the first free candidate: it is free, all before it are taken, and it is at most the number of taken slugs |
| ImportData.UniqueSlug | medicine/backend/scripts/importData.ts:123-129 | the collision loop returns the first candidate not yet used |
| ImportData.ResolveSlugsSnoc | medicine/backend/scripts/importData.ts:116-129 | resolving one more base appends its first free candidate against the earlier slugs |
| ImportData.ResolveSlugsUnique | medicine/backend/scripts/importData.ts:114-129 | all resolved slugs are pairwise different |
| ImportData.FirstAppearance | medicine/backend/scripts/importData.ts:103-108 | the names in insertion order have no repeats and are exactly the trimmed non-empty categories |
| ImportData.FirstAppearanceExtends | medicine/backend/scripts/importData.ts:103-108 | the names collected from a prefix of the medicines stay, in the same order, at the front of the names collected from all of them |
| ImportData.CollectCategories | medicine/backend/scripts/importData.ts:103-108 | the loop collects exactly `FirstAppearance` of the medicines: the distinct trimmed non-empty categories, in the order the `Set` first received them |
| ImportData.Pair | medicine/backend/scripts/importData.ts:131-137 | each category pairs a name with the slug at the same position |
| ImportData.ImportCategories | medicine/backend/scripts/importData.ts:116-143 | the category loop creates each name with its slug made unique against the earlier categories |
| ImportData.Importable | medicine/backend/scripts/importData.ts:149-155 | the medicines kept are those whose trimmed category was created, in order |
| ImportData.ImportableComplete | medicine/backend/scripts/importData.ts:149-155 | every medicine of a created category is kept |
| ImportData.ImportStep | medicine/backend/scripts/importData.ts:149-173 | one step of the product loop skips a medicine without a category or imports it with the next unique slug |
| ImportData.ImportSkip | medicine/backend/scripts/importData.ts:149-173 | a medicine without a category adds no product and leaves the slugs taken unchanged |
| ImportData.ImportTake | medicine/backend/scripts/importData.ts:149-173 | a medicine with a category adds one product whose slug was free before and is taken after |
| ImportData.ImportProducts | medicine/backend/scripts/importData.ts:146-200 | the product loop imports each kept medicine in order, with the drug name's slug made unique against the earlier products |
| CartModel.EmptyCart | medicine/backend/src/routes/cart.ts:21 | a new cart belongs to its user, has no lines and zero totals, and is valid |
| CartModel.SubtotalAppend | medicine/backend/src/models/Cart.ts:46 | the sum of price × quantity over two runs of lines is the sum of the two sums |
| CartModel.SubtotalNonNegative | medicine/backend/src/models/Cart.ts:10-19 | lines with quantity ≥ 1 and price ≥ 0 give a subtotal ≥ 0 |
| CartModel.SubtotalUpdate | medicine/backend/src/models/Cart.ts:46 | replacing one line changes the subtotal by the difference of the two line amounts |
| CartModel.LineIndex | medicine/backend/src/routes/cart.ts:73 | the first line of the product, and none exactly when no line has it |
| CartModel.AddLineEffect | medicine/backend/src/routes/cart.ts:73-83 | an add raises the product's line by q at the new price or appends one line; every other line is kept, and there is still one line per product |
| CartModel.AddLineRaised | medicine/backend/src/routes/cart.ts:73-83 | with a line for the product, that line ends with the old quantity plus q at the new price, in place; every other line is kept |
| CartModel.AddLineAppended | medicine/backend/src/routes/cart.ts:73-83 | without a line for the product, exactly one line with q at the price is appended and found last |
| CartModel.AddLineValid | medicine/backend/src/routes/cart.ts:73-85 | after an add the lines pass the schema exactly when the product's line ends with at least one unit |
| CartModel.AddLineSubtotal | medicine/backend/src/routes/cart.ts:74-83 | the subtotal grows by q × price plus the re-pricing of the units already held |
| CartModel.RepeatedAddsCanExceedStock | medicine/backend/src/routes/cart.ts:60-76 | two adds that each pass the stock check can leave a line above the stock |
| CartModel.WithoutMembers | medicine/backend/src/routes/cart.ts:177 | the filter keeps only lines of other products, each from the cart |
| CartModel.WithoutAbsent | medicine/backend/src/routes/cart.ts:177 | removing an absent product leaves the lines unchanged |
| CartModel.WithoutPresent | medicine/backend/src/routes/cart.ts:177 | with one line per product, removing drops exactly that line |
| CartModel.WithoutOnlyLine | medicine/backend/src/routes/cart.ts:177 | removing the product's only line leaves the lines before and after it |
| CartModel.WithoutEffect | medicine/backend/src/routes/cart.ts:177 | after a remove the product has no line and the lines still pass the schema |
| CartModel.WithoutDistinct | medicine/backend/src/routes/cart.ts:177 | a remove keeps one line per product |
| CartModel.SetQuantityEffect | medicine/backend/src/routes/cart.ts:143 | an update changes only that line's quantity, keeps its price snapshot, and shifts the subtotal accordingly |
| CartModel.CartDocument.AddItem | medicine/backend/src/routes/cart.ts:73-83 | the document's lines become `AddLine` of the old ones; user and stored totals unchanged until save |
| CartModel.CartDocument.SetItemQuantity | medicine/backend/src/routes/cart.ts:143 | the document's lines become `SetQuantity` of the old ones |
| CartModel.CartDocument.RemoveItem | medicine/backend/src/routes/cart.ts:177 | the document's lines become the filtered lines |
| CartModel.CartDocument.PreSave | medicine/backend/src/models/Cart.ts:45-49 | the hook keeps user and lines and makes subtotal and total equal the sum of the lines |
| CartModel.PreSaveSettles | medicine/backend/src/models/Cart.ts:45-49 | saving a saved cart again changes nothing |
| CartModel.EmptyCartTotals | medicine/backend/src/models/Cart.ts:45-47 | a saved cart without lines has subtotal = total = 0 |
| CartModel.SavedTotalsNonNegative | medicine/backend/src/models/Cart.ts:30-47 | a saved cart with valid lines has non-negative subtotal and total |
| CartRoutes.Saved | medicine/backend/src/models/Cart.ts:45-47 | saving keeps user and lines and makes the totals consistent |
| CartRoutes.RequestedQuantity | medicine/backend/src/routes/cart.ts:48 | an omitted quantity is one unit; a given quantity is used as is |
| CartRoutes.AddToCartOutcome | medicine/backend/src/routes/cart.ts:45-85 | an add fails as not found exactly for a missing or inactive product, for stock exactly when stock < q, at validation exactly when the line would end below one unit; on success the cart holds `AddLine` at the current price |
| CartRoutes.AddToCartResult | medicine/backend/src/routes/cart.ts:45-85 | an add fails only as not found, for stock or at validation; a successful add is of an active product with enough stock and leaves valid lines with consistent totals |
| CartRoutes.AddOmittedQuantity | medicine/backend/src/routes/cart.ts:48-85 | an add with no quantity of an active product in stock succeeds and puts exactly one more unit on the product's line, at the current price |
| CartRoutes.AddToCartSucceeds | medicine/backend/src/routes/cart.ts:51-85 | an active product with 1 ≤ q ≤ stock is always added |
| CartRoutes.AddToCartKeepsValid | medicine/backend/src/routes/cart.ts:67-85 | the stored carts stay valid after an add |
| CartRoutes.UpdateCartItemOutcome | medicine/backend/src/routes/cart.ts:111-144 | an update fails, in order, on q < 1, no cart, no line, and (only if the product exists) stock < q; on success only that line's quantity changes |
| CartRoutes.UpdateCartItemKeepsValid | medicine/backend/src/routes/cart.ts:111-144 | the stored carts stay valid after an update |
| CartRoutes.RemoveFromCartOutcome | medicine/backend/src/routes/cart.ts:169-178 | a remove fails only without a cart; an absent line leaves the cart as it was, a present one is dropped |
| CartRoutes.RemoveFromCartKeepsValid | medicine/backend/src/routes/cart.ts:169-178 | the stored carts stay valid after a remove |
| CartRoutes.ClearCartOutcome | medicine/backend/src/routes/cart.ts:202-205 | a clear empties an existing cart with zero totals, creates none, and touches no other cart |
| CartRoutes.GetCart | medicine/backend/src/routes/cart.ts:16-28 | returns the stored cart or a new empty one, which is then stored |
| CartRoutes.AddToCart | medicine/backend/src/routes/cart.ts:45-101 | the handler answers `AddToCartResult` for the requested quantity, one when the body omits it, and stores the cart only on success |
| CartRoutes.UpdateCartItem | medicine/backend/src/routes/cart.ts:105-160 | the handler answers `UpdateCartItemResult` and stores the cart only on success |
| CartRoutes.RemoveFromCart | medicine/backend/src/routes/cart.ts:164-194 | the handler answers `RemoveFromCartResult` and stores the cart only on success |
| CartRoutes.ClearCart | medicine/backend/src/routes/cart.ts:198-210 | the handler empties the caller's cart if there is one |
| Store.HttpStatus | medicine/backend/src/routes/cart.ts:53-64 | failures are sent as 404 exactly for the not-found errors, as 500 exactly for a query the database cannot run, and as 400 for every other error |
| Store.Database.constructor | medicine/backend/src/models/Cart.ts:22-28 | a fresh store has the given products and no carts, orders or reviews; carts are keyed by user, so one per user |
| OrderModel.ParseStatus | medicine/backend/src/models/Order.ts:56-60 | the enum check accepts exactly the names of the six statuses |
| OrderModel.ParseStatusName | medicine/backend/src/models/Order.ts:56-60 | every status is accepted under its own name |
| OrderModel.ParsePaymentStatus | medicine/backend/src/models/Order.ts:61-65 | the payment-status enum check accepts only the stored names |
| OrderModel.ParsePaymentMethod | medicine/backend/src/models/Order.ts:66-70 | the payment-method enum check accepts only the four method names |
| OrderModel.ParsePaymentMethodName | medicine/backend/src/models/Order.ts:66-70 | every payment method is accepted under its own name |
| OrderModel.TrimAddressSettles | medicine/backend/src/models/Order.ts:71-112 | trimming an address twice is trimming it once, and it keeps the `required` check's verdict |
| OrderModel.LineTotalsNonNegative | medicine/backend/src/models/Order.ts:10-24 | lines within the schema bounds total ≥ 0 |
| OrderModel.NewOrderDetails | medicine/backend/src/models/Order.ts:61-65 | a new order's payment is pending, its prescription unapproved, and its shipping address trimmed |
| OrderModel.Serial | medicine/backend/src/models/Order.ts:183 | `Math.floor(random * 10000)` lies in [0, 9999] |
| OrderModel.LastTwo | medicine/backend/src/models/Order.ts:180 | `slice(-2)` is the last two characters, or the whole of a shorter string |
| OrderModel.TrackingNumber | medicine/backend/src/models/Order.ts:177-185 | for a valid date and a random draw in [0, 1) the tracking number is "ORD-", two-digit year, month, day, "-", four-digit serial: fifteen characters |
| OrderModel.ParseTrackingNumber | medicine/backend/src/models/Order.ts:184 | a well-formed tracking number is 15 characters, starts with "ORD-" and has "-" at position 10 |
| OrderModel.TrackingNumberRoundTrip | medicine/backend/src/models/Order.ts:177-185 | reading the tracking number back gives the year's last two digits, the month, the day and the serial |
| OrderModel.ParseAssembled | medicine/backend/src/models/Order.ts:177-185 | a number assembled from two-digit year, month and day and a four-digit serial reads back as those four values |
| OrderModel.OrderDocument.New | medicine/backend/src/models/Order.ts:56-60 | a new order document has status pending and no tracking number yet |
| OrderModel.OrderDocument.PreSave | medicine/backend/src/models/Order.ts:167-187 | with modified items, subtotal = sum of line totals and total = subtotal + tax + shipping, else both kept; a tracking number is assigned only on first save |
| OrderRoutes.CheckLinesOutcome | medicine/backend/src/routes/orders.ts:36-59 | the check passes exactly when every line's product exists with enough stock; then one line per cart line at the product's current price with total = quantity × price, and a prescription is needed exactly when some product needs one |
| OrderRoutes.CheckLinesPasses | medicine/backend/src/routes/orders.ts:36-59 | the check passes exactly when every line is orderable, and fails only as unavailable or short of stock |
| OrderRoutes.CheckLinesPrescription | medicine/backend/src/routes/orders.ts:36-59 | a prescription is required exactly when some line's product requires one |
| OrderRoutes.CheckLinesShape | medicine/backend/src/routes/orders.ts:36-59 | a passing check has one order line per cart line, each orderable and priced at the product's current price |
| OrderRoutes.CheckLinesStops | medicine/backend/src/routes/orders.ts:39-47 | the loop stops at the first failing line |
| OrderRoutes.AdjustStockEffect | medicine/backend/src/routes/orders.ts:79-83 | the stock writes change only stock, each product by exactly the quantity ordered of it |
| OrderRoutes.RestockTwice | medicine/backend/src/routes/orders.ts:79-83 | two stock moves add up to one move by their sum, every other field kept |
| OrderRoutes.RestoreUndoesTake | medicine/backend/src/routes/orders.ts:200-204 | restoring an order's quantities undoes taking them |
| OrderRoutes.OrderedQuantityAbsent | medicine/backend/src/routes/orders.ts:79-83 | a product without a line is ordered zero times |
| OrderRoutes.OrderedQuantityOfLine | medicine/backend/src/routes/orders.ts:79-83 | with one line per product, the ordered quantity is that line's quantity |
| OrderRoutes.OrderedQuantityNonNegative | medicine/backend/src/routes/orders.ts:79-83 | lines within the bounds order a non-negative quantity of every product |
| OrderRoutes.PlaceOrderFailures | medicine/backend/src/routes/orders.ts:25-76 | placement fails as empty exactly without a cart or lines, as unavailable or short exactly when some line is not orderable, and at validation exactly for an unknown method or incomplete address |
| OrderRoutes.PlaceOrderResult | medicine/backend/src/routes/orders.ts:14-89 | an order is placed only from a non-empty cart, with an accepted payment method and a valid shipping address; it gets the next id, belongs to the caller and has valid lines |
| OrderRoutes.CheckedLinesValid | medicine/backend/src/routes/orders.ts:53-58 | lines built from valid cart lines and products pass the order-line bounds |
| OrderRoutes.PlacedOrderHeader | medicine/backend/src/routes/orders.ts:62-76 | a placed order is the caller's, pending, unpaid, unapproved, with tax and shipping 0, total = sum of line totals, and the stamp's tracking number |
| OrderRoutes.PlacedOrderLines | medicine/backend/src/routes/orders.ts:36-59 | one order line per cart line at the product's current price; a prescription is needed exactly when some product needs one |
| OrderRoutes.PlaceOrderStock | medicine/backend/src/routes/orders.ts:79-83 | after placement each product's stock drops by exactly its cart quantity and stays ≥ 0 |
| OrderRoutes.CheckedStock | medicine/backend/src/routes/orders.ts:79-83 | taking the checked lines off the stock takes each product's cart quantity and leaves every stock ≥ 0 |
| OrderRoutes.CheckedQuantity | medicine/backend/src/routes/orders.ts:79-83 | the checked lines order of each product exactly its cart quantity, which is within its stock |
| OrderRoutes.LinesQuantity | medicine/backend/src/routes/orders.ts:79-83 | order lines copying distinct, orderable cart lines order of each product its cart quantity |
| OrderRoutes.PlaceOrderKeepsValid | medicine/backend/src/routes/orders.ts:62-89 | a placement keeps products, carts, orders and reviews valid |
| OrderRoutes.PlacedFromCheck | medicine/backend/src/routes/orders.ts:24-59 | a placed order comes from a non-empty cart whose lines passed the check, and carries the checked lines |
| OrderRoutes.PlacedStockValid | medicine/backend/src/routes/orders.ts:79-83 | the stock left after a placement keeps every product valid |
| OrderRoutes.PlacedOrderValid | medicine/backend/src/routes/orders.ts:62-76 | the placed order has the next id and is within the order bounds |
| OrderRoutes.BuildLines | medicine/backend/src/routes/orders.ts:36-59 | the placement loop computes `CheckLines` |
| OrderRoutes.ApplyStock | medicine/backend/src/routes/orders.ts:79-83 | the per-line `$inc` loop applies `AdjustStock` |
| OrderRoutes.PlaceOrder | medicine/backend/src/routes/orders.ts:14-103 | the handler answers `PlaceOrderResult`; on failure nothing is written, on success the order is stored, stock taken and the cart emptied |
| OrderRoutes.PrepareOrder | medicine/backend/src/routes/orders.ts:35-76 | building the order from a non-empty cart answers `PlaceOrderResult` |
| OrderRoutes.StoreOrder | medicine/backend/src/routes/orders.ts:76-89 | the writes of a placement: order appended, stock taken, cart cleared, and the store still valid |
| OrderRoutes.FindOrder | medicine/backend/src/routes/orders.ts:145-148 | the caller's order with the id, and none exactly when the caller has no such order |
| OrderRoutes.FindOrderFirst | medicine/backend/src/routes/orders.ts:145-148 | the lookup gives the first matching order |
| OrderRoutes.GetOrderResult | medicine/backend/src/routes/orders.ts:142-157 | an order is returned only to its owner; otherwise 404 |
| OrderRoutes.CancelOrderOutcome | medicine/backend/src/routes/orders.ts:177-197 | a cancel fails as not found exactly when the caller owns no such order, as not cancellable exactly when it is not pending; the cancelled order differs only in status |
| OrderRoutes.CancelOrderKeepsValid | medicine/backend/src/routes/orders.ts:196-204 | a cancel keeps the store valid |
| OrderRoutes.RestoredStockValid | medicine/backend/src/routes/orders.ts:196-204 | putting stock back keeps every product valid |
| OrderRoutes.PlaceThenCancel | medicine/backend/src/routes/orders.ts:79-83 | placing an order and cancelling it gives every product back its stock |
| OrderRoutes.CancelFresh | medicine/backend/src/routes/orders.ts:174-204 | the order just placed, still pending, can be cancelled by its owner |
| OrderRoutes.CancelOrder | medicine/backend/src/routes/orders.ts:174-210 | the handler answers `CancelOrderResult`; on success the status is cancelled and the stock restored, on failure nothing changes |
| OrderRoutes.PrepareCancel | medicine/backend/src/routes/orders.ts:177-197 | the lookup and the status check answer `CancelOrderResult`, with the found position on success |
| OrderRoutes.StoreCancel | medicine/backend/src/routes/orders.ts:196-204 | the writes replace the order, put its quantities back, and keep the store valid |
| ReviewModel.RatingSumBounds | medicine/backend/src/models/Review.ts:15-20 | with ratings in [1, 5] the sum lies between the count and five times the count |
| ReviewModel.RoundedTenths | medicine/backend/src/models/Review.ts:76 | `Math.round(mean × 10)` in tenths is the integer r with 2c·r ≤ 20·sum + c < 2c·(r+1) |
| ReviewModel.RoundedTenthsNearest | medicine/backend/src/models/Review.ts:76 | that r is the nearest tenth to the mean, halves rounded up |
| ReviewModel.NearestFromBounds | medicine/backend/src/models/Review.ts:76 | tenths within half a tenth of the mean are the nearest tenth |
| ReviewModel.TenthsInRange | medicine/backend/src/models/Review.ts:76 | a mean of ratings in [1, 5] rounds to between 10 and 50 tenths |
| ReviewModel.TenthsAtMost | medicine/backend/src/models/Review.ts:76 | a sum of at most five per rating rounds to at most 50 tenths |
| ReviewModel.TenthsAtLeast | medicine/backend/src/models/Review.ts:76 | a sum of at least one per rating rounds to at least 10 tenths |
| ReviewModel.ProductRating | medicine/backend/src/models/Review.ts:59-85 | the review count is the number of the product's reviews; the average is 0 without reviews, else the rounded mean |
| ReviewModel.ProductRatingBounds | medicine/backend/src/models/Review.ts:63-83 | the recomputed average lies in [0, 5] stars and is at least one star when there are reviews |
| ReviewModel.VerifiedReviews | medicine/backend/src/routes/reviews.ts:17-20 | the public list holds only verified reviews of the product |
| ReviewModel.VerifiedReviewsComplete | medicine/backend/src/routes/reviews.ts:17-20 | every verified review of the product is listed |
| ReviewRoutes.WithRatingEffect | medicine/backend/src/models/Review.ts:74-84 | the recompute writes only the reviewed product's rating and count, and keeps the products valid |
| ReviewRoutes.UpdateProductRating | medicine/backend/src/models/Review.ts:59-85 | the store's products become `WithRating` of the reviews |
| ReviewRoutes.FindUserReview | medicine/backend/src/routes/reviews.ts:67 | the caller's review of the product, and none exactly when there is none |
| ReviewRoutes.FindOwnReview | medicine/backend/src/routes/reviews.ts:109 | the caller's review with the id, and none exactly when there is none |
| ReviewRoutes.FindOwnReviewFirst | medicine/backend/src/routes/reviews.ts:109 | the lookup gives the first match |
| ReviewRoutes.FindOwnReviewUnique | medicine/backend/src/routes/reviews.ts:109 | with unique ids the caller's review is found at its own position |
| ReviewRoutes.CreateReviewResult | medicine/backend/src/routes/reviews.ts:52-94 | a create fails as not found exactly for a missing product, as a repeat exactly when the caller reviewed it, at validation exactly for bad rating or text; a created review is unverified with trimmed text |
| ReviewRoutes.AppendReview | medicine/backend/src/models/Review.ts:40 | appending a review of a new (user, product) pair keeps one review per pair |
| ReviewRoutes.CreateReviewKeepsValid | medicine/backend/src/routes/reviews.ts:76-83 | a create keeps the store valid and raises the product's review count by one |
| ReviewRoutes.CreatedReview | medicine/backend/src/routes/reviews.ts:52-83 | a created review has the next id, passes validation and is the caller's first review of the product |
| ReviewRoutes.ReviewCountAppend | medicine/backend/src/routes/reviews.ts:76-83 | appending a review of the product raises its review count by one |
| ReviewRoutes.CreateReview | medicine/backend/src/routes/reviews.ts:52-101 | the handler answers `CreateReviewResult`; on success the review is stored and the rating recomputed, else nothing changes |
| ReviewRoutes.CheckReview | medicine/backend/src/routes/reviews.ts:57-83 | the checks, in the handler's order, answer `CreateReviewResult` |
| ReviewRoutes.AddReview | medicine/backend/src/routes/reviews.ts:83 | the review is appended with the next id |
| ReviewRoutes.UpdateReviewOutcome | medicine/backend/src/routes/reviews.ts:104-120 | an update touches only the caller's review, overwrites exactly rating, title and comment, and fails only on bad values |
| ReviewRoutes.UpdateReviewKeepsValid | medicine/backend/src/routes/reviews.ts:117-120 | an update keeps the store valid |
| ReviewRoutes.UpdateReview | medicine/backend/src/routes/reviews.ts:104-138 | the handler answers `UpdateReviewResult` and writes only on success |
| ReviewRoutes.DeleteReviewResult | medicine/backend/src/routes/reviews.ts:145-151 | a delete finds the caller's review with the id, and fails as not found exactly when there is none |
| ReviewRoutes.DeleteReviewKeepsValid | medicine/backend/src/routes/reviews.ts:145 | removing one review keeps the reviews valid |
| ReviewRoutes.DeleteReview | medicine/backend/src/routes/reviews.ts:141-162 | the handler removes exactly one review on success and nothing on failure |
| Paging.OrDefault | medicine/backend/src/routes/products.ts:10-11 | `parseInt(x) \|\| d`: a non-zero number is kept; a missing value, NaN or 0 becomes d |
| Paging.CeilDiv | medicine/backend/src/routes/products.ts:83 | `Math.ceil(total / limit)`: the least page count that covers the total |
| Paging.Select | medicine/backend/src/routes/products.ts:66 | a filter keeps only matching elements, each from the input |
| Paging.SelectComplete | medicine/backend/src/routes/products.ts:66 | every matching element is kept |
| Paging.Window | medicine/backend/src/routes/products.ts:62-71 | skip/limit gives the `limit` elements from position `skip`, or fewer at the end |
| Paging.WindowPosition | medicine/backend/src/routes/products.ts:62 | element i appears on page i / limit + 1 |
| Paging.WindowEntry | medicine/backend/src/routes/products.ts:62-71 | entry k of page p is element (p−1)·limit + k |
| Paging.NonEmptyPages | medicine/backend/src/routes/products.ts:83 | a page has items exactly when it is at most `totalPages` |
| ProductRoutes.PageAndLimit | medicine/backend/src/routes/products.ts:10-11 | page ≥ 1 and limit in [1, 100]; a missing or 0 limit gives 12, a negative one 1 |
| ProductRoutes.SortDirection | medicine/backend/src/routes/products.ts:63-64 | ascending exactly when sortOrder is "asc" |
| ProductRoutes.PriceBound | medicine/backend/src/routes/products.ts:42-45 | a price parameter yields a bound exactly when it parsed to a number, and the bound is that number |
| ProductRoutes.BuildQuery | medicine/backend/src/routes/products.ts:26-60 | each filter is set exactly when its parameter is present, to its value; the stock and featured flags only for "true" |
| ProductRoutes.ListFilterMeaning | medicine/backend/src/routes/products.ts:26-60 | a product matches exactly when it is active and passes each given filter: category, brand, inclusive price bounds, stock > 0 for "true", flags for "true", search |
| ProductRoutes.Selected | medicine/backend/src/routes/products.ts:66 | the query finds exactly the catalogue products that match it |
| ProductRoutes.ListProducts | medicine/backend/src/routes/products.ts:8-85 | for bounds that parsed, the listing returns at most `limit` matching products, the total of matches, and a `totalPages` covering them |
| ProductRoutes.ListResponse | medicine/backend/src/routes/products.ts:42-45 | the handler answers 500 exactly when a price bound is present but not a number; otherwise it answers the listing |
| ProductRoutes.ListingCoversMatches | medicine/backend/src/routes/products.ts:62-83 | every matching product is on exactly the page its position says |
| ProductRoutes.ListingParts | medicine/backend/src/routes/products.ts:62-83 | the listing is the requested window of the selection, with the clamped page and limit and the page count of the selection |
| ProductRoutes.ProductBySlug | medicine/backend/src/routes/products.ts:97-110 | only an active product with the slug is returned, otherwise 404 |
| ProductRoutes.FirstEight | medicine/backend/src/routes/products.ts:135 | `limit(8)` keeps a prefix: all of a list of at most eight, otherwise its first eight |
| ProductRoutes.Featured | medicine/backend/src/routes/products.ts:128-135 | the first eight, in catalogue order, of the active featured products (all of them when fewer) |
| ProductRoutes.OnSale | medicine/backend/src/routes/products.ts:152-159 | the first eight, in catalogue order, of the active products on sale (all of them when fewer) |
| ProductRoutes.ShelvesComplete | medicine/backend/src/routes/products.ts:128-159 | with at most eight candidates every one is shown |
| ProductRoutes.Search | medicine/backend/src/routes/products.ts:176-197 | a search without q fails with 400; otherwise it finds exactly the active products that match the text |
| AdminRoutes.Revenue | medicine/backend/src/routes/admin.ts:23-51 | without paid orders the revenue is 0 |
| AdminRoutes.NoPaidOrders | medicine/backend/src/routes/admin.ts:23-26 | the paid total of orders none of which is paid is 0 |
| AdminRoutes.RevenueAppend | medicine/backend/src/routes/admin.ts:23-26 | a new order adds its total to revenue exactly when it is paid |
| AdminRoutes.RevenueNonNegative | medicine/backend/src/routes/admin.ts:23-51 | revenue over valid orders is ≥ 0 |
| AdminRoutes.RevenueIgnoresStatus | medicine/backend/src/routes/admin.ts:23-26 | changing an order's status leaves revenue unchanged |
| AdminRoutes.TotalPages | medicine/backend/src/routes/admin.ts:110 | `Math.ceil(total / limit)` for positive and for negative limits |
| AdminRoutes.PageItems | medicine/backend/src/routes/admin.ts:92-98 | a page is given exactly for page ≥ 1 and limit ≥ 1, and it is the window of the matches that starts at (page − 1)·limit |
| AdminRoutes.AdminList | medicine/backend/src/routes/admin.ts:70-110 | page and limit default to 1 and 10 when missing or 0, without clamping; the total is the number of matches; for page and limit ≥ 1 the items are exactly the matches from (page − 1)·limit on, at most `limit` of them; `totalPages` is `Math.ceil(total / limit)` |
| AdminRoutes.AdminListCovers | medicine/backend/src/routes/admin.ts:70-110 | every match appears on some page within the page count, at its own offset |
| AdminRoutes.AdminLimitNotClamped | medicine/backend/src/routes/admin.ts:71 | an admin limit above 100 is kept as given |
| AdminRoutes.StatusFilter | medicine/backend/src/routes/admin.ts:88-90 | no status gives no filter; "active" gives active, any other string inactive |
| AdminRoutes.AdminStatusFilter | medicine/backend/src/routes/admin.ts:68-110 | the listed products all pass the status filter, and without filters all products are counted |
| AdminRoutes.MatchingProducts | medicine/backend/src/routes/admin.ts:76-90 | a product is selected exactly when it passes the search and status filters |
| AdminRoutes.AdminProducts | medicine/backend/src/routes/admin.ts:68-110 | the total counts all matching products and the items are their requested page |
| AdminRoutes.AdminProductsCover | medicine/backend/src/routes/admin.ts:68-110 | every matching product is on some page within the page count |
| AdminRoutes.MatchingOrders | medicine/backend/src/routes/admin.ts:201-204 | an order is selected exactly when it has the given status and payment status |
| AdminRoutes.AdminOrders | medicine/backend/src/routes/admin.ts:195-226 | listed orders match the filters; the total counts all matching orders and the items are their requested page |
| AdminRoutes.AdminOrdersCover | medicine/backend/src/routes/admin.ts:195-226 | every matching order is on some page within the page count |
| AdminRoutes.VerifiedFilter | medicine/backend/src/routes/admin.ts:465-468 | no parameter gives no filter; "true" gives verified, any other value unverified |
| AdminRoutes.MatchingReviews | medicine/backend/src/routes/admin.ts:465-468 | a review is selected exactly when it passes the verification filter |
| AdminRoutes.AdminReviews | medicine/backend/src/routes/admin.ts:459-490 | listed reviews match the filter; the total counts all matching reviews and the items are their requested page |
| AdminRoutes.AdminReviewsCover | medicine/backend/src/routes/admin.ts:459-490 | every matching review is on some page within the page count |
| AdminRoutes.OrderWithId | medicine/backend/src/routes/admin.ts:239 | the order with the id, and none exactly when there is none |
| AdminRoutes.OrderWithIdUnique | medicine/backend/src/routes/admin.ts:239 | with unique ids the order is found at its own position |
| AdminRoutes.UpdateOrderStatusOutcome | medicine/backend/src/routes/admin.ts:236-250 | a status update fails as not found exactly for an unknown id; otherwise only the status changes |
| AdminRoutes.UpdateOrderStatusResult | medicine/backend/src/routes/admin.ts:236-250 | not found exactly when no order has the id; otherwise that order with the new status |
| AdminRoutes.UpdateOrderStatusKeepsValid | medicine/backend/src/routes/admin.ts:239-243 | a status change keeps the orders valid |
| AdminRoutes.UpdateOrderStatus | medicine/backend/src/routes/admin.ts:236-257 | the handler answers `UpdateOrderStatusResult` and writes only on success |
| AdminRoutes.LocateOrder | medicine/backend/src/routes/admin.ts:236-257 | the lookup finds the position of the order with the id, or none |
| AdminRoutes.StoreOrderAt | medicine/backend/src/routes/admin.ts:236-257 | the write replaces that order and keeps the store valid |
| AdminRoutes.ReviewWithId | medicine/backend/src/routes/admin.ts:502 | the review with the id, and none exactly when there is none |
| AdminRoutes.VerifyReviewOutcome | medicine/backend/src/routes/admin.ts:500-514 | verifying fails as not found exactly for an unknown id; it keeps reviews valid, leaves every count and rating sum unchanged, and is idempotent |
| AdminRoutes.VerifyReviewResult | medicine/backend/src/routes/admin.ts:500-514 | not found exactly when no review has the id; otherwise that review, verified |
| AdminRoutes.SameIds | medicine/backend/src/routes/admin.ts:502 | lists with the same ids find the same position |
| AdminRoutes.StatsIgnoreVerification | medicine/backend/src/routes/admin.ts:502-505 | marking a review verified changes no count or rating sum |
| AdminRoutes.VerifyReview | medicine/backend/src/routes/admin.ts:500-520 | the handler answers `VerifyReviewResult` and the reviews become `AfterVerify` |
| AdminRoutes.ParseDemoType | medicine/backend/src/routes/admin.ts:544-564 | only the five type names are accepted |
| AdminRoutes.ParseDemoTypeName | medicine/backend/src/routes/admin.ts:544-564 | every type is accepted under its own name |
| AdminRoutes.ValidateDemoRequest | medicine/backend/src/routes/admin.ts:535-564 | a request is accepted exactly for a known type and a quantity from 1 to 100; it is refused for parameters exactly when the type is empty or the quantity is missing, 0, below 1 or above 100, and otherwise for an unknown type |
| AdminRoutes.GenerateAllRequest | medicine/backend/src/routes/admin.ts:584-601 | without quantities the request fails; missing types take defaults 10, 5, 20, 15, 30, given ones are kept; it is accepted exactly when no quantity exceeds 100 |
| AdminRoutes.GenerateAllNoLowerBound | medicine/backend/src/routes/admin.ts:591-601 | an empty object gets all defaults, and a negative quantity is accepted |
| AdminPages.StatusBadge | medicine/frontend/src/pages/admin/Products.tsx:71-82 | the badge is Inactive, On Sale, Featured or Active in that priority, each exactly in its case |
| AdminPages.AdminShowing | medicine/frontend/src/pages/admin/Products.tsx:274-278 | the admin range is the shared range with a fixed page size of 10 |
| AdminPages.Offered | medicine/frontend/src/pages/admin/Orders.tsx:248-283 | no action ever offers pending or refunded, and delivered, cancelled and refunded orders get no action |
| AdminPages.OfferedPaths | medicine/frontend/src/pages/admin/Orders.tsx:248-283 | following offered actions from pending walks a prefix of pending → processing → shipped → delivered or of pending → cancelled, and never reaches refunded |
| AdminPages.OfferedActionApplied | medicine/frontend/src/pages/admin/Orders.tsx:50-52 | an offered action on an existing order is stored as chosen |
| AdminPages.OrderBadge | medicine/frontend/src/pages/admin/Orders.tsx:65-81 | an unknown status shows "Pending"; "Pending" is shown exactly for pending or unknown |
| AdminPages.PaymentBadge | medicine/frontend/src/pages/admin/Orders.tsx:83-97 | an unknown payment status shows "Pending"; "Pending" exactly for pending or unknown |
| AdminPages.BadgesDistinguishKnownStatuses | medicine/frontend/src/pages/admin/Orders.tsx:65-97 | known statuses show their own labels, and different statuses show different labels |
| PageNumbers.Run | medicine/frontend/src/pages/Products.tsx:470-472 | the loop pushes lo, lo+1, …, hi |
| PageNumbers.PageListSpec | medicine/frontend/src/pages/Products.tsx:448-482 | at most seven entries, every number a page from 1 to the last, the first entry page 1 and the last entry the last page |
| PageNumbers.PageList | medicine/frontend/src/pages/Products.tsx:448-482 | the imperative builder produces `PageListSpec` |
| PageNumbers.PushRun | medicine/frontend/src/pages/Products.tsx:448-482 | one push loop appends the buttons lo to hi |
| PageNumbers.SmallListsAll | medicine/frontend/src/pages/Products.tsx:453-457 | with at most 7 pages every page is listed, in order |
| PageNumbers.LargeListShape | medicine/frontend/src/pages/Products.tsx:458-481 | with more than 7 pages: first page, an ellipsis when current > 4, the window around current, an ellipsis when current < total − 3, the last page |
| PageNumbers.PageListWellFormed | medicine/frontend/src/pages/Products.tsx:448-482 | every listed number is a page in range, strictly increasing, and the current page is listed when in range |
| PageNumbers.LargeListWellFormed | medicine/frontend/src/pages/Products.tsx:448-482 | with more than seven pages, the list has at most seven entries, increasing numbers within range, and the current page |
| PageNumbers.LargeListEntries | medicine/frontend/src/pages/Products.tsx:448-482 | with more than seven pages, page 1 comes before the middle run, then the run from max(2, current - 1), then the last page |
| PageNumbers.PageTwoSkippedWithoutGap | medicine/frontend/src/pages/Products.tsx:462-468 | for 10 pages at page 4 the list is 1, 3, 4, 5, …, 10 |
| PageNumbers.GapUnmarkedAsWritten | medicine/frontend/src/pages/Products.tsx:462-468 | that list skips a page without an ellipsis |
| PageNumbers.PageListFixedMarksGaps | medicine/frontend/src/pages/Products.tsx:448-482 | with the corrected conditions every skip is marked by an ellipsis and every ellipsis stands for a skip |
| PageNumbers.PageListFixedShowsCurrent | medicine/frontend/src/pages/Products.tsx:448-482 | the corrected list starts at 1, ends at the last page, and shows the current page |
| PageNumbers.ShowingCountsPage | medicine/frontend/src/pages/Products.tsx:398 | "Showing x – y" names exactly the items on the page |
| PageNumbers.ShowingRange | medicine/frontend/src/pages/Products.tsx:398 | the last number shown never exceeds the total, and the line never spans more than one page |
| PageNumbers.ButtonsFollowPages | medicine/frontend/src/pages/Products.tsx:441-504 | Next is enabled exactly when the next page has products; an enabled Previous leads to a page that has products |
| PageNumbers.AdminButtonsAgreeInRange | medicine/frontend/src/pages/admin/Products.tsx:258-265 | the admin buttons' equality tests agree with the range tests in range, but Next stays enabled past the last page |
| ProductsPage.GetParam | medicine/frontend/src/pages/Products.tsx:65 | a parameter is absent exactly when no entry has the key |
| ProductsPage.DeleteParam | medicine/frontend/src/pages/Products.tsx:69 | deletion keeps only entries of other keys |
| ProductsPage.SetParam | medicine/frontend/src/pages/Products.tsx:67 | after `set` the pairs are the new pair and the old pairs of other keys |
| ProductsPage.DeleteParamEffect | medicine/frontend/src/pages/Products.tsx:69 | after `delete(key)` the key is absent and every other key reads as before |
| ProductsPage.SetParamEffect | medicine/frontend/src/pages/Products.tsx:67 | after `set(key, v)` the key reads v and every other key as before |
| ProductsPage.SearchParams.Set | medicine/frontend/src/pages/Products.tsx:67 | the entries become `SetParam` of the old ones |
| ProductsPage.SearchParams.Delete | medicine/frontend/src/pages/Products.tsx:69 | the entries become `DeleteParam` of the old ones |
| ProductsPage.HandleFilterChange | medicine/frontend/src/pages/Products.tsx:64-75 | the handler computes `FilterChange` |
| ProductsPage.FilterChange | medicine/frontend/src/pages/Products.tsx:64-75 | the key holds the value when it is non-empty and is gone otherwise, the page is "1" for any other key, every other pair is kept, and nothing else is added |
| ProductsPage.FilterChangeEffect | medicine/frontend/src/pages/Products.tsx:64-75 | a non-empty value is set and an empty one deleted; a non-page change resets page to "1"; other keys are kept |
| ProductsPage.ProductsView.OnFilterChange | medicine/frontend/src/pages/Products.tsx:64-75 | the requested URL is the filter change applied to the rendered parameters |
| ProductsPage.ProductsView.OnSortChange | medicine/frontend/src/pages/Products.tsx:371-375 | both calls start from the same rendered parameters, so only the second survives |
| ProductsPage.SortChangeLosesField | medicine/frontend/src/pages/Products.tsx:371-375 | a changed sortBy is lost |
| ProductsPage.SortChangeSetsBoth | medicine/frontend/src/pages/Products.tsx:371-375 | the corrected sort change sets both fields and page "1" and keeps every other key |
| ProductsPage.SortChange | medicine/frontend/src/pages/Products.tsx:371-375 | the corrected sort change holds the new field, the new order and page "1" |
| CartContext.QuantitySumAtLeastLines | medicine/frontend/src/contexts/CartContext.tsx:127-130 | with valid lines the item count is at least the number of lines |
| CartContext.QuantitySumUpdate | medicine/frontend/src/contexts/CartContext.tsx:127-130 | replacing a line changes the count by the difference of the quantities |
| CartContext.ItemCountAfterAdd | medicine/frontend/src/contexts/CartContext.tsx:127-130 | after the server adds q units the count grows by exactly q |
| CartContext.ItemCountAfterSet | medicine/frontend/src/contexts/CartContext.tsx:127-130 | after an update the count changes by the new minus the old quantity |
| CartContext.CartState.constructor | medicine/frontend/src/contexts/CartContext.tsx:38-54 | the context starts without a cart, not loading |
| CartContext.CartState.ItemCount | medicine/frontend/src/contexts/CartContext.tsx:127-130 | 0 without a cart; at least the number of lines for valid lines |
| CartContext.CartState.Total | medicine/frontend/src/contexts/CartContext.tsx:132-135 | 0 without a cart; the sum of the lines for a saved cart |
| CartContext.CartState.Fetch | medicine/frontend/src/contexts/CartContext.tsx:38-54 | without a user the cart is cleared and nothing is requested; else the cart is the response, or none on failure, and loading ends |
| CartContext.CartState.Change | medicine/frontend/src/contexts/CartContext.tsx:60-125 | the shared handler: nothing without a user; else one request, loading ends, and the cart is replaced on success and kept on failure |
| CartContext.CartState.AddToCart | medicine/frontend/src/contexts/CartContext.tsx:60-77 | on success the cart is the server's cart; on failure it is kept and the error reported |
| CartContext.CartState.UpdateCartItem | medicine/frontend/src/contexts/CartContext.tsx:79-93 | on success the cart is the server's cart; on failure it is kept |
| CartContext.CartState.RemoveFromCart | medicine/frontend/src/contexts/CartContext.tsx:95-109 | on success the cart is the server's cart; on failure it is kept |
| CartContext.CartState.ClearCart | medicine/frontend/src/contexts/CartContext.tsx:111-125 | on success the cart is gone; on failure it is kept |
| CartContext.SavedCartFigures | medicine/frontend/src/contexts/CartContext.tsx:127-135 | for a cart the server saved, the shown total is the sum of the lines and the count is at least the number of lines |
| CheckoutPage.SetField | medicine/frontend/src/pages/Checkout.tsx:67-75 | setting one address field changes that field only |
| CheckoutPage.CheckoutForm.constructor | medicine/frontend/src/pages/Checkout.tsx:18-44 | step 1, blank addresses with country "United States", credit card, same address for billing, no prescription |
| CheckoutPage.CheckoutForm.OrderData | medicine/frontend/src/pages/Checkout.tsx:93-99 | the request carries the shipping address, the billing address (the shipping one when "same" is ticked), the method and the prescription |
| CheckoutPage.CheckoutForm.InputChange | medicine/frontend/src/pages/Checkout.tsx:67-75 | an edit changes one field of one section and leaves the other section alone |
| CheckoutPage.CheckoutForm.ChoosePayment | medicine/frontend/src/pages/Checkout.tsx:329-353 | a radio choice sets one of the three offered methods |
| CheckoutPage.CheckoutForm.UploadPrescription | medicine/frontend/src/pages/Checkout.tsx:77-86 | a chosen file replaces the prescription; no file keeps it |
| CheckoutPage.CheckoutForm.Submit | medicine/frontend/src/pages/Checkout.tsx:88-111 | at step 1 it moves to step 2 exactly when the shipping fields are filled, sending nothing; at step 2 it sends the order data |
| CheckoutPage.CheckoutForm.BackToShipping | medicine/frontend/src/pages/Checkout.tsx:404 | Back returns to step 1 |
| CheckoutPage.SentOrdersAccepted | medicine/frontend/src/pages/Checkout.tsx:329-353 | every offered method passes the server's enum, and billing equals shipping |
| CheckoutPage.ShippingFilled | medicine/frontend/src/pages/Checkout.tsx:92-99 | an address the server accepts always passes the step-one check |
| CheckoutPage.StepOneWeakerThanServer | medicine/frontend/src/pages/Checkout.tsx:92-99 | a blank-but-spaced name or an empty country passes step one but not the server |
| CheckoutPage.RequiresPrescription | medicine/frontend/src/pages/Checkout.tsx:120-122 | true exactly when some populated line's product needs a prescription; no cart needs none |
| CheckoutPage.AnyPrescription | medicine/frontend/src/pages/Checkout.tsx:120-122 | `some` over the lines holds exactly when one line's product needs a prescription |
| CheckoutPage.PrescriptionPromptMatchesOrder | medicine/frontend/src/pages/Checkout.tsx:120-122 | the page asks for a prescription exactly when the server will mark the order as needing one |
| CheckoutPage.DisplayedTax | medicine/frontend/src/pages/Checkout.tsx:462 | the tax line (total − subtotal) of a saved cart is 0 |
| ProductDetailPage.QuantityLimit | medicine/frontend/src/pages/ProductDetail.tsx:66-70 | `stockQuantity \|\| 1`: the stock, or 1 for a stock of 0 |
| ProductDetailPage.QuantitySelector.constructor | medicine/frontend/src/pages/ProductDetail.tsx:17 | the selector starts at 1 |
| ProductDetailPage.QuantitySelector.Change | medicine/frontend/src/pages/ProductDetail.tsx:66-70 | a value from 1 to the limit is taken, any other ignored; the quantity stays at least 1 and within stock or 1 |
| ProductDetailPage.QuantitySelector.MinusDisabled | medicine/frontend/src/pages/ProductDetail.tsx:305-308 | an enabled minus click on a valid selector is always accepted by the handler |
| ProductDetailPage.QuantitySelector.PlusDisabled | medicine/frontend/src/pages/ProductDetail.tsx:313-314 | an enabled plus click on a valid selector is always accepted by the handler |
| ProductDetailPage.BuyDisabled | medicine/frontend/src/pages/ProductDetail.tsx:326 | the buttons are disabled exactly for stock 0 |
| ProductDetailPage.SelectedQuantityAccepted | medicine/frontend/src/pages/ProductDetail.tsx:32-47 | for an active product in stock the selected quantity is always accepted by the cart endpoint |
| ProductDetailPage.AfterAdd | medicine/frontend/src/pages/ProductDetail.tsx:32-64 | without a user, to login; buy now goes to checkout exactly when signed in and the add succeeded |
| ProductDetailPage.Stars | medicine/frontend/src/pages/ProductDetail.tsx:120-128 | five stars, star i filled exactly when i < rating |
| ProductDetailPage.StarsFilledFirst | medicine/frontend/src/pages/ProductDetail.tsx:120-128 | filled stars come first |
| ProductDetailPage.StarsRoundUp | medicine/frontend/src/pages/ProductDetail.tsx:223 | an average of r tenths fills exactly ⌈r/10⌉ stars |
| ProductDetailPage.ReviewStars | medicine/frontend/src/pages/ProductDetail.tsx:500 | a review's 1–5 rating fills exactly that many stars |
| AdminPages.LowStockMatchesAlert | medicine/frontend/src/pages/ProductDetail.tsx:262 | with the default threshold of 10 the detail page's alert and the admin table's highlight agree for stock above 0; out of stock is highlighted without an alert |
| CategoryDocs.ParentKey | medicine/backend/src/routes/admin.ts:418-423 | the id a parent stands for, bare or populated; "" for none |
| CategoriesPage.FindById | medicine/frontend/src/pages/admin/Categories.tsx:118-122 | the first category with the id, and none exactly when none has it |
| CategoriesPage.ParentName | medicine/frontend/src/pages/admin/Categories.tsx:118-122 | "None" for an empty id, the first match's name, otherwise "Unknown" |
| CategoriesPage.Level | medicine/frontend/src/pages/admin/Categories.tsx:131-133 | the as-written filter lists exactly the categories that pass its test |
| CategoriesPage.PopulatedChildHidden | medicine/frontend/src/pages/admin/Categories.tsx:133 | a category with a populated parent is on no level of the tree |
| CategoriesPage.ChildLevel | medicine/frontend/src/pages/admin/Categories.tsx:131-133 | the corrected filter lists exactly the categories whose parent, bare or populated, is the id |
| CategoriesPage.LevelsAgreeOnBareIds | medicine/frontend/src/pages/admin/Categories.tsx:133 | for bare parent ids the two filters agree |
| CategoriesPage.Tree | medicine/frontend/src/pages/admin/Categories.tsx:131-167 | one node per category of the level, in list order |
| CategoriesPage.Node | medicine/frontend/src/pages/admin/Categories.tsx:163-167 | a node recurses only for a non-empty `children` list |
| CategoriesPage.TreePlaced | medicine/frontend/src/pages/admin/Categories.tsx:131-167 | every node at every depth is a listed category under its own parent |
| CategoriesPage.OrEmpty | medicine/frontend/src/pages/admin/Categories.tsx:98-112 | `value \|\| ''` for an optional text field |
| CategoriesPage.EditNullParentThrows | medicine/frontend/src/pages/admin/Categories.tsx:104 | editing a category whose parent is `null` throws |
| CategoriesPage.EditFormAsWritten | medicine/frontend/src/pages/admin/Categories.tsx:98-112 | the edit fails exactly for a `null` parent; otherwise the form holds the parent's id, or "", and the name |
| CategoriesPage.CategoryEditor.constructor | medicine/frontend/src/pages/admin/Categories.tsx:9-22 | the page starts with a blank form, nothing edited, the form closed |
| CategoriesPage.CategoryEditor.ResetForm | medicine/frontend/src/pages/admin/Categories.tsx:75-87 | the form returns to its defaults |
| CategoriesPage.CategoryEditor.HandleEdit | medicine/frontend/src/pages/admin/Categories.tsx:98-112 | the category is remembered, the form filled and opened |
| CategoriesPage.EditForm | medicine/frontend/src/pages/admin/Categories.tsx:98-112 | the form's parent is the parent's id or ""; name, order and active flag are copied |
| CategoriesPage.EditFormMeaning | medicine/frontend/src/pages/admin/Categories.tsx:98-112 | the corrected form agrees with the page where it does not throw, defaults missing text to "", and places the category where the tree shows it |
| ProductForm.Split | medicine/frontend/src/components/admin/ProductForm.tsx:121 | `split(',')` gives at least one piece and no piece holds a comma |
| ProductForm.SplitRejoins | medicine/frontend/src/components/admin/ProductForm.tsx:121 | joining the pieces with "," gives the text back |
| ProductForm.SplitNoComma | medicine/frontend/src/components/admin/ProductForm.tsx:121 | text without a comma is one piece |
| ProductForm.SplitAtComma | medicine/frontend/src/components/admin/ProductForm.tsx:121 | splitting at a comma splits the two sides |
| ProductForm.CleanConcat | medicine/frontend/src/components/admin/ProductForm.tsx:121 | trim-and-drop-empty works piece by piece |
| ProductForm.ParseConcat | medicine/frontend/src/components/admin/ProductForm.tsx:120-123 | parsing keeps the order of the entries |
| ProductForm.SplitCons | medicine/frontend/src/components/admin/ProductForm.tsx:120-123 | a comma starts a new piece and any other character joins the first piece |
| ProductForm.CleanEntries | medicine/frontend/src/components/admin/ProductForm.tsx:121 | every parsed entry is non-empty, trimmed and comma-free |
| ProductForm.ParseList | medicine/frontend/src/components/admin/ProductForm.tsx:120-123 | every entry of a parsed list is non-empty, trimmed and comma-free |
| ProductForm.ParseJoined | medicine/frontend/src/components/admin/ProductForm.tsx:541-542 | a joined list, after an optional leading space, parses back to itself |
| ProductForm.ParseLead | medicine/frontend/src/components/admin/ProductForm.tsx:120-123 | an empty field or a lone space parses to no entries |
| ProductForm.ParseLeadEntry | medicine/frontend/src/components/admin/ProductForm.tsx:120-123 | a clean entry after an optional space parses to itself |
| ProductForm.ParseJoinRoundTrip | medicine/frontend/src/components/admin/ProductForm.tsx:579-580 | the field shows `join(', ')` and parsing that gives the clean list back |
| ProductForm.ParsedListStable | medicine/frontend/src/components/admin/ProductForm.tsx:120-123 | re-displaying a parsed list and parsing again changes nothing |
| ProductForm.RemoveAt | medicine/frontend/src/components/admin/ProductForm.tsx:135-137 | removing an index in range drops exactly that image; another index changes nothing |
| ProductForm.EditFormDefaults | medicine/frontend/src/components/admin/ProductForm.tsx:55-93 | copied keys are copied, a falsy optional field takes the blank default, category becomes an id, a missing subcategory becomes "" |
| ProductForm.EditForm | medicine/frontend/src/components/admin/ProductForm.tsx:55-93 | the edit form has exactly the blank form's keys |
| ProductForm.ProductFormState.constructor | medicine/frontend/src/components/admin/ProductForm.tsx:16-50 | a new form is the blank form |
| ProductForm.ProductFormState.Edit | medicine/frontend/src/components/admin/ProductForm.tsx:55-93 | editing starts from the edit form of the product |
| ProductForm.ProductFormState.InputChange | medicine/frontend/src/components/admin/ProductForm.tsx:116-118 | one field takes the value and every other field is kept |
| ProductForm.ProductFormState.ArrayInputChange | medicine/frontend/src/components/admin/ProductForm.tsx:120-123 | the field becomes the parsed list; every other field is kept |
| ProductForm.ProductFormState.ImageUpload | medicine/frontend/src/components/admin/ProductForm.tsx:125-133 | chosen files' URLs are appended; no files change nothing |
| ProductForm.ProductFormState.RemoveImage | medicine/frontend/src/components/admin/ProductForm.tsx:135-137 | the images become the list without that index |
| ProductForm.SubcategoryOptionsAsWritten | medicine/frontend/src/components/admin/ProductForm.tsx:212 | the as-written options are the categories whose parent is the bare id, and none when parents arrive populated |
| ProductForm.SubcategoriesMembers | medicine/frontend/src/components/admin/ProductForm.tsx:212 | the corrected options are exactly the categories whose parent, bare or populated, is the chosen category |
| DemoDataPage.Without | medicine/frontend/src/pages/admin/DemoData.tsx:124 | the filter drops exactly the type and keeps a list without repeats free of repeats |
| DemoDataPage.ToggleEffect | medicine/frontend/src/pages/admin/DemoData.tsx:121-127 | a toggle flips the type's membership only, twice restores it, and keeps no repeats |
| DemoDataPage.AtLeastOne | medicine/frontend/src/pages/admin/DemoData.tsx:132 | `Math.max(1, v)` is at least 1 and v, and v when v ≥ 1 |
| DemoDataPage.WithQuantity | medicine/frontend/src/pages/admin/DemoData.tsx:129-134 | the type's quantity becomes v and every other type's is kept |
| DemoDataPage.UnselectedStillGenerated | medicine/frontend/src/pages/admin/DemoData.tsx:107-113 | asking for users alone also generates 5 categories, 20 products, 15 orders and 30 reviews |
| DemoDataPage.GenerateAllSelectedOnly | medicine/frontend/src/pages/admin/DemoData.tsx:107-113 | the corrected request is accepted and generates a type exactly when selected, in its selected quantity |
| DemoDataPage.DemoDataForm.constructor | medicine/frontend/src/pages/admin/DemoData.tsx:19-27 | nothing selected, quantities 10, 5, 20, 15, 30 |
| DemoDataPage.DemoDataForm.ToggleDataSelection | medicine/frontend/src/pages/admin/DemoData.tsx:121-127 | the selection becomes its toggle and stays without repeats |
| DemoDataPage.DemoDataForm.UpdateQuantity | medicine/frontend/src/pages/admin/DemoData.tsx:129-134 | the type's quantity becomes max(1, value); all stay ≥ 1 |
| DemoDataPage.DemoDataForm.SelectAll | medicine/frontend/src/pages/admin/DemoData.tsx:327 | all five types are selected |
| DemoDataPage.DemoDataForm.ClearSelection | medicine/frontend/src/pages/admin/DemoData.tsx:335 | nothing is selected |
| DemoDataPage.DemoDataForm.EnabledRequestNotEmpty | medicine/frontend/src/pages/admin/DemoData.tsx:319 | while the generate-all button is enabled, the request asks for at least one record of some selected type |
| DemoDataPage.DemoDataForm.HandleGenerateAll | medicine/frontend/src/services/api.ts:333-341 | the corrected request with every type present is sent and loading ends |

## Left out

- Persistence, HTTP, authentication and concurrency are left out. The database is held in memory, and each handler runs atomically.
- Populating references and sort order are left out. Lists are given already in the order the query sorts them.
- The regular-expression search is a parameter (`TextMatch`). Its case-insensitive regex semantics are not modelled.
- Paging of the user's own orders and reviews is left out. Those lists use `parseInt(x) || 1` and `parseInt(x) || 10` with no clamp, the same arithmetic as the admin lists (`AdminRoutes.AdminList`).
- ProductRoutes.Search: the search results are not paged in the model; `Search` returns every active match. The route pages them differently from every other list: it uses a bare `parseInt` on the string defaults '1' and '12' (products.ts:178-181), with no `|| default` and no clamp. A page of 0 or below therefore gives a negative skip, a limit of 0 gives `Math.ceil(total / 0)` pages, and a non-numeric page or limit gives NaN. None of these paths is modelled. The route also sorts by creation date, newest first; the model takes the catalogue in that order.
- `parseInt` and `parseFloat` are not modelled. Their results are inputs: page and limit as `Option<int>`, with `None` standing for `NaN` or a missing value, and price bounds as `PriceParam` (absent, `NaN`, or a number in cents).
- Floating-point money is not modelled. Prices are integer cents. The sale-price and discount virtuals use exact reals.
- ReviewRoutes.CreateReviewResult: ratings are whole stars (`int`). The review schema accepts any number from 1 to 5, so a rating such as 4.5 is stored and averaged; fractional ratings are not modelled.
- ReviewRoutes.UpdateReviewOutcome: the same narrowing to whole-star ratings applies to an update; a fractional rating the schema accepts at save is not modelled.
- ReviewModel.Review: the `rating` field is an integer number of stars; fractional ratings and their effect on the rounded average are not modelled.
- ImportData.ImportCategories: the save of each category can fail (a category of only spaces is stored with the empty name, and a name with no letter or digit gets the empty slug; both fail `required`). The script then exits with the earlier categories saved. The model creates every category and does not model that abort.
- ImportData.ImportProducts: the save of each product can fail (an empty slug from a drug name with no letter or digit, a negative price or stock count, or any other schema check). The script then exits with the earlier products saved. The model imports every kept medicine and does not model that abort.
- `Intl` formatting is left out.
- Deleting a review does not recompute the product's rating. The hook on `findOneAndDelete` receives the query, not the document. The model follows that code.
- The admin prescription-approval handler is left out. It reads `order?.notes` inside the initializer of `order` itself, so what it does depends on how it is compiled.
- AdminRoutes.AdminList: for a page or limit below 1 the items are `None`, which means "not modelled", not an empty page. Such values reach the database's own handling of a negative skip or limit, which is not part of this model. The pagination block (page, limit, total, totalPages) is still modelled for them.
- AdminRoutes.UpdateOrderStatus: the status is typed as a known status. `findByIdAndUpdate` runs no validators, so a string outside the enum could be stored; that case is not modelled.
- The billing phone is not modelled, because the billing form has no phone field.
- CategoriesPage.Tree: the recursion is bounded by `fuel`. On the page, a cycle of parents recurses without end.
- DemoDataPage: `handleGenerateData` is left out. It sends one type's request, which `AdminRoutes.ValidateDemoRequest` already models. A `NaN` quantity from an empty number input is not modelled.
- ProductForm.ProductFormState.ImageUpload: object URLs and file readers are inputs.
- The demo data generator, users, auth, JWT and the account pages are not part of this model.
- DemoDataPage.DemoDataForm.HandleGenerateAll uses the corrected request. The request as written is `SelectedQuantities`, with finding (f) below.
- CategoriesPage.CategoryEditor.HandleEdit uses the corrected form, `EditForm`. The form as written is `EditFormAsWritten`.
- CategoriesPage.Tree uses the corrected filter, `ChildLevel`. The filter as written is `Level`.
- CategoryStore.CreateCategoryResult: only the name and slug are modelled. The other fields of the request body (description, parent, image, sort order) are stored as given and are not part of this model.
- Mongoose's casting of an empty or malformed id is not modelled. Ids are opaque values.
- LowerChar (Common.LowerChar): folds only A–Z. `toLowerCase` also folds non-ASCII letters, so "É" becomes "é" and the Kelvin sign U+212A becomes "k"; the model keeps them, and a name made only of such letters gets an empty slug.
- Lower (Common.Lower): maps one character to one. Full Unicode lower-casing can lengthen a string (U+0130 becomes two code units), so the model's "length is kept" holds for the ASCII mapping only.
- IsWhitespace (Common.IsWhitespace): leaves out the space separators U+1680, U+2000–U+200A, U+202F, U+205F and U+3000, which `trim` removes. A field holding only U+3000 passes the model's required-after-trim checks but fails the source's.

## Findings

| source | as written | input that shows it | evidently intended | confidence | as-written member | corrected member |
|---|---|---|---|---|---|---|
| medicine/frontend/src/pages/Products.tsx:462-476 | an ellipsis is pushed only when current > 4, or when current < total − 3 | 10 pages at page 4 gives 1, 3, 4, 5, …, 10: page 2 is skipped without an ellipsis | an ellipsis exactly where pages are skipped (current > 3, current < total − 2) | not executed | PageNumbers.GapUnmarkedAsWritten | PageNumbers.PageListFixedMarksGaps |
| medicine/frontend/src/pages/Products.tsx:371-375 | two `handleFilterChange` calls, each copying the same rendered parameters | choosing "price-asc" while sorted by name: the second call's URL drops sortBy=price | both sortBy and sortOrder set in one update | not executed | ProductsPage.SortChangeLosesField | ProductsPage.SortChangeSetsBoth |
| medicine/frontend/src/pages/admin/Categories.tsx:133 | `cat.parent === parentId`, with parents populated by the server | any subcategory: its parent arrives as an object, so it is on no level | compare the parent's id | not executed | CategoriesPage.PopulatedChildHidden | CategoriesPage.TreePlaced |
| medicine/frontend/src/components/admin/ProductForm.tsx:212 | `cat.parent === formData.category` on populated parents | any category with subcategories: the options are empty | compare the parent's id | not executed | ProductForm.SubcategoryOptionsAsWritten | ProductForm.SubcategoriesMembers |
| medicine/frontend/src/pages/admin/Categories.tsx:104 | `typeof parent === 'object'` then `parent._id` | a top-level category stored with the default `parent: null` throws on edit | treat `null` as no parent | not executed | CategoriesPage.EditNullParentThrows | CategoriesPage.EditFormMeaning |
| medicine/frontend/src/pages/admin/DemoData.tsx:107-113 | only selected types are sent, and the server fills the others with defaults | selecting users alone also generates categories, products, orders and reviews | send 0 for unselected types | not executed | DemoDataPage.UnselectedStillGenerated | DemoDataPage.GenerateAllSelectedOnly |
