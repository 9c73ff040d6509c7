# NovaThreads storefront: a Dafny model of its rules

This project models the rules of the NovaThreads e-commerce storefront in Dafny and proves what
they promise. The storefront has a React client and an Express/Mongoose API; this is the
TheOnlyRou/E-Commerce-Landing-Page repository. The model covers:

- **the client's cart store** (`CartContext`): lines keyed by product, size and colour, plus two
  derived totals;
- **the cart page** (`CartPage`): shipping, tax, the grand total, the free-shipping notice and the
  line buttons;
- **the product detail page** (`ProductDetailPage`): picking the first size and colour, the quantity
  stepper, and the guard in front of `addToCart`;
- **the catalogue page** (`ProductsPage`): page clamping, the page buttons, the category sidebar and
  the request parameters;
- **the product handlers** (`ProductController`): the listing's filter, sort and pagination, the
  featured list, and 400/404/500 on create, read, update and delete;
- **the Product schema** (`ProductSchema`): required fields, bounds, the category enumeration,
  defaults and the name's `trim`;
- **the newsletter registry** (`NewsletterModel`, `NewsletterController`): address normalisation and
  pattern, subscribe, reactivate and unsubscribe, and the admin listing;
- **the middlewares and routers** (`Auth`, `Routes`): bearer authentication, the admin gate, the
  route tables and the validator chains;
- **start-up** (`Seed`, `SeedData`, `Environment`): seeding the products and the admin account, and
  the environment check.

Shared pieces:

- `Listing` holds filter, skip/limit and `ceil(total/limit)`.
- `Ordering` holds the document store's one-key sort order and an insertion sort proved sorted and
  a permutation.
- `Text` holds JavaScript's `trim`, `\s` and `toLowerCase`.
- `Types`, `Wrappers` and `Http` hold the records, `Option` and the status codes.

**How the model is built:**

- Where the source keeps state and updates it step by step, the model is a class:
  - `CartStore`, `ProductDetail`, `Products`, `ProductCollection`, `NewsletterRegistry` and
    `UserCollection`;
  - each has methods whose `modifies` and `ensures` give the whole new state;
  - each method's `ensures` ties that state to a reference function (`Merged`, `WithoutProduct`,
    `QuantityUpdated`, `SubscribeOutcome`, `AfterSeedProducts`, …) whose properties are lemmas.
- The environment check's `forEach` becomes a `while` loop proved against `Missing`.
- Pure code (pricing, filters, schema, routers) becomes functions and lemmas.

**Values supplied as parameters:**

- Responses from the API client, the clock (`now`) and generated ObjectIds.
- The JWT verifier, the text index and validator.js's `isEmail`, `isURL`, `normalizeEmail`,
  `trim` and float parser, which are arrow-typed values.
- The `window.confirm` answer and the browser's stored cart.

**Behaviour worth knowing:**

- A malformed product id makes `findById` (and `findByIdAndUpdate`/`findByIdAndDelete`) throw a
  cast error, and the handler's `catch` turns that into 500. Only a well-formed id that no
  document has gets 404 (`ProductController.GetProductById`,
  `ProductController.ProductCollection.DeleteProduct`).
- HTTP authentication scheme names are case-insensitive (section 2.1 of RFC 7235). The code
  compares `"Bearer "` case-sensitively, so `"bearer …"` is refused (`Auth.LowerCaseSchemeRefused`).
- The routers are built with a plain `Router()`, so literal path segments match whatever their case:
  `/api/products/Featured` is the featured list, not a lookup by id (`Routes.FeaturedInAnyCase`).

## Model

| member | source | states |
|---|---|---|
| Auth.Authenticate | backend/src/middleware/auth.ts:12-40 | 401 exactly when the header is missing, does not start with the case-sensitive "Bearer ", or its token does not verify; otherwise `next` runs with `req.user` set to the decoded payload, and never both |
| Auth.TokenFollowsScheme | backend/src/middleware/auth.ts:28-33 | the verifier receives the header with its first seven characters removed |
| Auth.LowerCaseSchemeRefused | backend/src/middleware/auth.ts:20-26 | a lower-case "bearer " scheme is answered 401 whatever the token |
| Auth.RequireAdmin | backend/src/middleware/auth.ts:45-67 | 401 iff no decoded user, 403 iff its role is not "admin", otherwise `next` with the request unchanged |
| CartContext.TotalsConcat | frontend/src/context/CartContext.tsx:41-45 | the item count and the price total are sums over the lines: both split over concatenation |
| CartContext.FindLine | frontend/src/context/CartContext.tsx:54-59 | `findIndex` on (id, size, colour): the first line with that key, or -1 when no line has it |
| CartContext.MergedByIndex | frontend/src/context/CartContext.tsx:53-76 | the reducer's find-index, bump-in-a-copy or append computes the reference merge `Merged` |
| CartContext.MergeExisting | frontend/src/context/CartContext.tsx:63-66 | adding an existing key raises only that line's quantity by the added amount; the length and every other line stay |
| CartContext.MergeNew | frontend/src/context/CartContext.tsx:67-76 | adding a new key appends exactly one line at the end, keeping the existing lines in order |
| CartContext.MergePreservesUnique | frontend/src/context/CartContext.tsx:54-76 | adding keeps the (id, size, colour) keys unique |
| CartContext.MergePreservesPositive | frontend/src/context/CartContext.tsx:63-76 | adding at least one unit keeps every line at one unit or more |
| CartContext.MergeTotalItems | frontend/src/context/CartContext.tsx:42-78 | after adding, the item count is the old count plus the added quantity |
| CartContext.MergeTotalPrice | frontend/src/context/CartContext.tsx:63-78 | after adding, the price total grows by the added quantity times the unit price of the line that received it; a re-added product is charged its earlier snapshot price |
| CartContext.AddTwiceSumsQuantities | frontend/src/context/CartContext.tsx:53-76 | adding the same key twice to a cart without it leaves one appended line holding both quantities |
| CartContext.WithoutProduct | frontend/src/context/CartContext.tsx:90 | the filter keeps only lines of the cart, and none of the removed product |
| CartContext.WithoutProductConcat | frontend/src/context/CartContext.tsx:90 | removal splits over concatenation, so the kept lines keep their order |
| CartContext.WithoutProductKeeps | frontend/src/context/CartContext.tsx:90 | every line of another product survives a removal |
| CartContext.WithoutAbsentProduct | frontend/src/context/CartContext.tsx:90 | removing a product the cart does not hold changes nothing |
| CartContext.WithoutProductPreservesUnique | frontend/src/context/CartContext.tsx:90 | removal keeps the keys unique |
| CartContext.WithoutProductPreservesPositive | frontend/src/context/CartContext.tsx:90 | removal keeps every quantity positive |
| CartContext.WithQuantity | frontend/src/context/CartContext.tsx:108-110 | same length; every line of the product, whatever its size and colour, gets the new quantity and every other line is unchanged |
| CartContext.UpdatePreservesUnique | frontend/src/context/CartContext.tsx:101-110 | both branches of `updateQuantity` keep the keys unique |
| CartContext.UpdatePreservesPositive | frontend/src/context/CartContext.tsx:101-110 | whatever quantity is asked for, no line is left below one unit |
| CartContext.WithQuantityTotalItems | frontend/src/context/CartContext.tsx:108-111 | after setting a quantity the item count is that of the other products plus the new quantity once per line of the product |
| CartContext.HasProduct | frontend/src/context/CartContext.tsx:130 | `some`: true iff some line holds that product id |
| CartContext.RemovedProductAbsent | frontend/src/context/CartContext.tsx:88-99 | after a removal the product is not in the cart |
| CartContext.CartStore.constructor | frontend/src/context/CartContext.tsx:18-22 | the initial cart: no lines and zero totals, consistent |
| CartContext.CartStore.Restore | frontend/src/context/CartContext.tsx:25-34 | a parsed snapshot replaces the state as it is, totals trusted; a missing or unparsable one keeps the state |
| CartContext.CartStore.AddToCart | frontend/src/context/CartContext.tsx:47-86 | the lines become `Merged(old lines, new line)`, the totals are recomputed from them, and unique keys stay unique |
| CartContext.CartStore.RemoveFromCart | frontend/src/context/CartContext.tsx:88-99 | the lines become `WithoutProduct(old lines, id)`, totals recomputed, keys stay unique |
| CartContext.CartStore.UpdateQuantity | frontend/src/context/CartContext.tsx:101-119 | a quantity of zero or less is a removal; otherwise the quantity is set on every line of the product; totals recomputed, keys stay unique |
| CartContext.CartStore.ClearCart | frontend/src/context/CartContext.tsx:121-127 | no lines and zero totals, independent of the old state, hence idempotent |
| CartContext.CartStore.IsInCart | frontend/src/context/CartContext.tsx:129-131 | true iff some line holds that product id |
| CartPage.Shipping | frontend/src/pages/Cart.tsx:151 | shipping is 0 iff the subtotal is strictly above 50, otherwise 5 |
| CartPage.Tax | frontend/src/pages/Cart.tsx:155 | the tax is a tenth of the subtotal |
| CartPage.Summarize | frontend/src/pages/Cart.tsx:144-166 | the summary shows the stored total as subtotal, its shipping and tax, and a grand total that is their sum |
| CartPage.FreeShippingNotice | frontend/src/pages/Cart.tsx:187-193 | the notice shows iff the subtotal is below 50, with a positive amount that makes up the difference to 50 |
| CartPage.NoticeAndFreeShippingAtThreshold | frontend/src/pages/Cart.tsx:151-190 | notice and free shipping never show together; at exactly 50 neither applies and shipping is charged; at any other total one of them applies |
| CartPage.PricingExamples | frontend/src/pages/Cart.tsx:151-166 | 50 pays shipping, 50.01 does not; 100 pays 10 tax and 110 in all |
| CartPage.Render | frontend/src/pages/Cart.tsx:23-123 | the empty view iff there are no lines; otherwise one row per line in order with subtotal price × quantity, the stored item count, the summary and the notice |
| CartPage.HandleCheckout | frontend/src/pages/Cart.tsx:13-21 | a signed-out user is sent to login, a signed-in one sees the notice; no cart state is involved |
| CartPage.DecrementLine | frontend/src/pages/Cart.tsx:103 | minus calls `updateQuantity(id, quantity - 1)` |
| CartPage.IncrementLine | frontend/src/pages/Cart.tsx:110 | plus calls `updateQuantity(id, quantity + 1)` |
| CartPage.RemoveLine | frontend/src/pages/Cart.tsx:94 | the bin removes every line of the product |
| CartPage.ClearCartButton | frontend/src/pages/Cart.tsx:127-132 | clears the cart only when the confirmation is accepted; otherwise the state is untouched |
| CartPage.MinusOnLastUnitRemovesProduct | frontend/src/pages/Cart.tsx:103 | minus on a one-unit line removes the product, other sizes and colours of it included, and keeps every other product's lines |
| CartPage.StepperSetsEveryVariant | frontend/src/pages/Cart.tsx:103-110 | minus above one unit, and plus, set the new quantity on every line of the product |
| Listing.Where | backend/src/controllers/productController.ts:45 | `find(filter)`: every element kept satisfies the filter, and every element that satisfies it is kept |
| Listing.PageCount | backend/src/controllers/productController.ts:60 | `Math.ceil(total / limit)`: the smallest page count whose pages hold all matches |
| Listing.Window | backend/src/controllers/productController.ts:46-48 | skip then limit: at most `limit` consecutive elements starting at `skip`, empty past the end |
| Listing.SkipSign | backend/src/controllers/productController.ts:36-38 | with a positive limit the skip is non-negative iff the page is at least 1 |
| Listing.PastTheLastPage | backend/src/controllers/productController.ts:38-60 | a page starts at or past the last match iff its number exceeds the page count |
| NewsletterController.IndexOfEmail | backend/src/controllers/newsletterController.ts:23 | `findOne({ email })`: the position of the record with that address, or -1 when there is none |
| NewsletterController.SubscribeOutcome | backend/src/controllers/newsletterController.ts:8-62 | 400 iff validation failed; 409 iff the address is active; an inactive record, and only it, is reactivated with the new time, answering 200; an unknown address answers 201 iff it matches the pattern, appending one active record stamped now, and 500 iff it does not; failures leave the registry as it was and no address moves |
| NewsletterController.UnsubscribeOutcome | backend/src/controllers/newsletterController.ts:67-96 | 404 iff the address is unknown, registry unchanged; otherwise 200, and the registry differs only in that record's `isActive`, now false whatever it was; its address and subscription time are kept |
| NewsletterController.SubscribeTwiceConflicts | backend/src/controllers/newsletterController.ts:26-31 | subscribing an address that was just subscribed or reactivated answers 409 and changes nothing |
| NewsletterController.UnsubscribeIdempotent | backend/src/controllers/newsletterController.ts:81-82 | unsubscribing twice equals unsubscribing once |
| NewsletterController.ComeBackAfterUnsubscribe | backend/src/controllers/newsletterController.ts:32-43 | a known address that unsubscribes and subscribes again is reactivated (200), not duplicated |
| NewsletterController.SubscribePreservesValid | backend/src/models/Newsletter.ts:11-17 | subscribing keeps addresses unique and every stored address lower-case, trimmed and matching the pattern |
| NewsletterController.UnsubscribePreservesValid | backend/src/models/Newsletter.ts:11-17 | unsubscribing keeps the same invariant |
| NewsletterController.NewsletterRegistry.Subscribe | backend/src/controllers/newsletterController.ts:8-62 | the handler's answer and new registry are `SubscribeOutcome` on the normalised address, and the registry invariant holds |
| NewsletterController.NewsletterRegistry.Unsubscribe | backend/src/controllers/newsletterController.ts:67-96 | the handler's answer and new registry are `UnsubscribeOutcome` on the normalised address |
| NewsletterController.ActiveFilter | backend/src/controllers/newsletterController.ts:105-108 | the `isActive` filter is present iff `active` is, and true iff it reads "true" |
| NewsletterController.GetSubscribers | backend/src/controllers/newsletterController.ts:101-141 | 500 iff the page is below 1; otherwise page, limit, the count of the filtered records and `ceil(total/limit)` |
| NewsletterController.SubscribersFromRegistry | backend/src/controllers/newsletterController.ts:114-117 | each listed subscriber is a record of the registry and satisfies the active filter |
| NewsletterController.SubscribersNewestFirst | backend/src/controllers/newsletterController.ts:115 | the listed subscribers are ordered by subscription time, newest first |
| NewsletterController.SubscriberDefaults | backend/src/controllers/newsletterController.ts:103 | without parameters: page 1 of 50 over every record |
| NewsletterModel.NormalizeEmail | backend/src/models/Newsletter.ts:15-16 | the setters never lengthen the address and leave no whitespace at either end |
| NewsletterModel.NormalizeIdempotent | backend/src/models/Newsletter.ts:15-16 | normalising twice equals normalising once |
| NewsletterModel.NormalizeEitherOrder | backend/src/models/Newsletter.ts:15-16 | trimming then lower-casing gives the same address as the other order |
| NewsletterModel.MatchesPattern | backend/src/models/Newsletter.ts:17 | the decision procedure accepts exactly the language of `^\S+@\S+\.\S+$` |
| NewsletterModel.PatternAccepts | backend/src/models/Newsletter.ts:17 | "a@b.io" matches |
| NewsletterModel.PatternRejects | backend/src/models/Newsletter.ts:17 | a missing user part, domain or suffix, or a space, fails |
| NewsletterModel.NormalizedIsLowerTrimmed | backend/src/models/Newsletter.ts:15-16 | the setters leave no capital letter and no whitespace at the ends |
| NewsletterModel.LowerTrimmedIsNormalized | backend/src/models/Newsletter.ts:15-16 | an address already in that form is left as it is |
| NewsletterModel.NewSubscription | backend/src/models/Newsletter.ts:9-31 | a record is created iff the normalised address matches the pattern; it holds that address, is active and is stamped with the creation time |
| NewsletterModel.EmptyAddressRejected | backend/src/models/Newsletter.ts:13-17 | an address that normalises to empty is never saved |
| Ordering.ValueLeqTotal | backend/src/controllers/productController.ts:41-42 | any two sort values are comparable |
| Ordering.ValueLeqTrans | backend/src/controllers/productController.ts:41-42 | the sort order is transitive |
| Ordering.SortBySortedPermutation | backend/src/controllers/productController.ts:45-46 | the sort returns a permutation of its input in key order, for either direction |
| Ordering.PrefixComesFirst | backend/src/controllers/productController.ts:222-224 | in a sorted sequence everything after a prefix sorts no earlier than anything in it |
| Ordering.SliceOfSorted | backend/src/controllers/productController.ts:46-48 | a page cut from a sorted sequence is sorted |
| ProductController.Truthy | backend/src/controllers/productController.ts:23 | a query value counts only when present and non-empty |
| ProductController.BuildFilter | backend/src/controllers/productController.ts:20-33 | category and search are filtered only when given non-empty; featured only when present, with value true iff it is exactly "true" |
| ProductController.GetProducts | backend/src/controllers/productController.ts:8-72 | 500 iff the page is below 1 (negative skip); otherwise page, limit, the count with the same filter, and `ceil(total/limit)` |
| ProductController.ListedPageIsSlice | backend/src/controllers/productController.ts:44-48 | the page is the filtered, sorted matches from position `(page-1)*limit`, at most `limit` of them |
| ProductController.RankedHoldsAllMatches | backend/src/controllers/productController.ts:45-50 | the sorted matches are a permutation of the matches, so `total` counts what the page is cut from |
| ProductController.ListedProductsMatch | backend/src/controllers/productController.ts:45 | every listed product is in the store and satisfies the filter |
| ProductController.ListedProductsSorted | backend/src/controllers/productController.ts:41-46 | the listed page is in the requested order: `sortBy` (createdAt by default), ascending iff `order` is "asc" |
| ProductController.EveryMatchOnItsPage | backend/src/controllers/productController.ts:36-48 | the match at position i is item `i % limit` of page `i / limit + 1` |
| ProductController.PagesBeyondTheLastAreEmpty | backend/src/controllers/productController.ts:45-60 | a page is empty iff its number exceeds the page count |
| ProductController.NoCriteriaCountsEverything | backend/src/controllers/productController.ts:10-18 | with no parameters every product matches and the defaults page 1, limit 12 apply |
| ProductController.FeaturedLimit | backend/src/controllers/productController.ts:220 | `parseInt(limit) \|\| 6`: 6 when missing, unparseable or zero, the parsed value otherwise |
| ProductController.GetFeatured | backend/src/controllers/productController.ts:218-238 | as many featured products as the limit allows, each from the store and featured |
| ProductController.FeaturedDefaultsToSix | backend/src/controllers/productController.ts:220 | without a limit, or with 0: six products, or all featured ones if fewer |
| ProductController.FeaturedByRating | backend/src/controllers/productController.ts:223 | the featured list is ordered by rating, highest first |
| ProductController.FeaturedAreTopRated | backend/src/controllers/productController.ts:222-224 | no featured product left out rates above one listed |
| ProductController.FeaturedIsRankedPrefix | backend/src/controllers/productController.ts:222-224 | the featured list is the start of the featured products ranked by rating |
| ProductController.FeaturedAreRanked | backend/src/controllers/productController.ts:222-223 | every featured product of the store is ranked |
| ProductController.IndexOfId | backend/src/controllers/productController.ts:81 | the position of the first product with that id, or -1 when there is none |
| ProductController.CastId | backend/src/controllers/productController.ts:81 | casting a hex id gives the same ObjectId whatever the case of its digits: same length, letters lowered, castable stays castable, and a cast id is its own cast |
| ProductController.GetProductById | backend/src/controllers/productController.ts:77-103 | 500 iff the id is not a castable ObjectId; 404 iff it is castable and no document has the ObjectId it casts to; otherwise that document |
| ProductController.AnySpellingFindsIt | backend/src/controllers/productController.ts:81-94 | in a valid collection, any spelling of a stored id, upper-case hex digits included, finds that document |
| ProductController.RemoveAt | backend/src/controllers/productController.ts:191 | the store with exactly one position removed, the others in order |
| ProductController.RemoveAtDropsOnlyThatId | backend/src/controllers/productController.ts:191 | deleting the document with an id leaves none with it, keeps ids unique and keeps every other document |
| ProductController.RemoveAtKeepsStoreValid | backend/src/controllers/productController.ts:191 | deleting a document keeps the collection valid and leaves no document with its id |
| ProductController.PatchKeepsStoreValid | backend/src/controllers/productController.ts:155-159 | a validated update of one document keeps the collection valid |
| ProductController.AppendKeepsStoreValid | backend/src/controllers/productController.ts:120-121 | saving a valid document under a fresh id keeps the collection valid |
| ProductController.ProductCollection.CreateProduct | backend/src/controllers/productController.ts:108-136 | 400 and no change when validation failed; 201 and the built document appended, under the ObjectId its id casts to, when it passes the schema and that ObjectId is new; 500 and no change otherwise |
| ProductController.ProductCollection.UpdateProduct | backend/src/controllers/productController.ts:141-182 | 400 when validation failed; 500 for a malformed id or an invalid field; 404 when no document has the id's ObjectId; these leave the store unchanged; otherwise 200 and exactly that document patched |
| ProductController.ProductCollection.DeleteProduct | backend/src/controllers/productController.ts:187-213 | 500 for a malformed id, 404 for an absent ObjectId, both without change; otherwise 200 with exactly that document removed; afterwards no document has that ObjectId |
| ProductDetailPage.FirstOrEmpty | frontend/src/pages/ProductDetail.tsx:32-33 | `list[0] \|\| ''`: the first entry, or "" for an empty list; the result is "" or an entry of the list |
| ProductDetailPage.Decremented | frontend/src/pages/ProductDetail.tsx:203 | minus gives at least 1: one less above 1, and 1 otherwise |
| ProductDetailPage.Incremented | frontend/src/pages/ProductDetail.tsx:210 | plus raises the quantity by exactly one, without an upper bound |
| ProductDetailPage.DecrementUndoesIncrement | frontend/src/pages/ProductDetail.tsx:203-210 | from any quantity of at least 1, plus then minus returns to it |
| ProductDetailPage.IncrementUndoesDecrement | frontend/src/pages/ProductDetail.tsx:203-210 | minus then plus returns to it, except at 1, where it reaches 2 |
| ProductDetailPage.ProductDetail.constructor | frontend/src/pages/ProductDetail.tsx:15-20 | nothing loaded, empty selections, quantity 1 |
| ProductDetailPage.ProductDetail.FetchProduct | frontend/src/pages/ProductDetail.tsx:28-41 | a loaded product selects its first size, first colour and main image; a failed load keeps product and selections; the quantity is never reset |
| ProductDetailPage.ProductDetail.SelectSize | frontend/src/pages/ProductDetail.tsx:158-161 | a size button selects one of the product's sizes and nothing else |
| ProductDetailPage.ProductDetail.SelectColor | frontend/src/pages/ProductDetail.tsx:180-183 | a colour button selects one of the product's colours and nothing else |
| ProductDetailPage.ProductDetail.Decrement | frontend/src/pages/ProductDetail.tsx:203 | the quantity becomes `Decremented` of the old one, staying at least 1 |
| ProductDetailPage.ProductDetail.Increment | frontend/src/pages/ProductDetail.tsx:210 | the quantity becomes `Incremented` of the old one |
| ProductDetailPage.ProductDetail.AddButtonEnabled | frontend/src/pages/ProductDetail.tsx:233 | the button is enabled iff the loaded product is in stock |
| ProductDetailPage.ProductDetail.HandleAddToCart | frontend/src/pages/ProductDetail.tsx:43-53 | nothing happens without a product, or with an empty size or colour; otherwise the cart receives exactly one `addToCart` of the product, quantity and selections, keeping unique keys and positive quantities |
| ProductDetailPage.NoOptionsNoSelection | frontend/src/pages/ProductDetail.tsx:32-49 | a product without sizes, or without colours, keeps that selection empty, so it can never be added |
| ProductSchema.Build | backend/src/models/Product.ts:21-86 | each absent field takes the schema default, the name is trimmed and both timestamps are the creation time |
| ProductSchema.NewProduct | backend/src/models/Product.ts:21-86 | a document is saved iff all required fields are present and every present field passes its validator; what is saved is stored-valid |
| ProductSchema.BuildStored | backend/src/models/Product.ts:23-81 | the built document satisfies every constraint and its name is its own trim |
| ProductSchema.PatchPreservesStored | backend/src/models/Product.ts:23-81 | validating only the updated fields suffices: a stored document patched with valid fields is still valid, with the same id and creation time |
| ProductSchema.MinimalBodyAccepted | backend/src/models/Product.ts:42-81 | a body with only the required fields is accepted, and the defaults fill in the rest |
| ProductsPage.ButtonCategory | frontend/src/pages/Products.tsx:93 | "All" asks for no category, any other button for its own name |
| ProductsPage.Sent | frontend/src/pages/Products.tsx:29-30 | `value \|\| undefined`: an empty parameter is not sent |
| ProductsPage.PageNumbers | frontend/src/pages/Products.tsx:135 | `totalPages` buttons, the i-th numbered i+1 |
| ProductsPage.PageNumbersExactlyThePages | frontend/src/pages/Products.tsx:135 | the buttons ascend strictly and are exactly 1..totalPages |
| ProductsPage.Products.constructor | frontend/src/pages/Products.tsx:11-15 | page 1 of 1, loading, parameters from the URL |
| ProductsPage.Products.Param | frontend/src/pages/Products.tsx:18-19 | `searchParams.get(key) \|\| ''` |
| ProductsPage.Products.Request | frontend/src/pages/Products.tsx:28-33 | the request always has limit 12 and the current page; category and search are sent only when non-empty |
| ProductsPage.Products.FetchProducts | frontend/src/pages/Products.tsx:25-42 | a response replaces the list and the page count, a failure keeps them; loading ends and the page is kept |
| ProductsPage.Products.ShowsPagination | frontend/src/pages/Products.tsx:125 | the pagination row shows iff the list is loaded, non-empty and spans more than one page |
| ProductsPage.Products.Previous | frontend/src/pages/Products.tsx:128 | `max(1, p-1)`: never below 1, never above the last page if it was not |
| ProductsPage.Products.Next | frontend/src/pages/Products.tsx:150 | `min(totalPages, p+1)`: never past the last page |
| ProductsPage.Products.GoToPage | frontend/src/pages/Products.tsx:138 | a numbered button sets a page between 1 and the last |
| ProductsPage.Products.HandleCategoryChange | frontend/src/pages/Products.tsx:44-52 | the page goes back to 1; an empty category removes the parameter, any other sets it |
| ProductsPage.Products.Highlighted | frontend/src/pages/Products.tsx:95 | "All" is highlighted with no category (or "All"); any other button iff it is the category |
| ProductsPage.Products.ChooseCategory | frontend/src/pages/Products.tsx:90-95 | after a sidebar click exactly that button is highlighted, the search is kept, and the next request asks page 1 of that category ("All" sends none) |
| ProductsPage.Products.SearchChanged | frontend/src/pages/Products.tsx:21-23 | a new search replaces the parameters without resetting the page |
| ProductsPage.RequestIsListed | frontend/src/pages/Products.tsx:28-33 | every request the page sends is listed by the server with at most 12 products on the current page |
| ProductsPage.StalePageShowsNothing | frontend/src/pages/Products.tsx:21-23 | a page kept beyond the new page count gets an empty list |
| Routes.Dispatch | backend/src/routes/productRoutes.ts:13-67 | the first route, in registration order, whose method and path match, literal segments compared without regard to case; none iff no route matches |
| Routes.SameIgnoringCaseIsLowerEqual | backend/src/routes/productRoutes.ts:13 | a segment matches a literal letter by letter without case exactly when both lower-case to the same string |
| Routes.FeaturedInAnyCase | backend/src/routes/productRoutes.ts:13-27 | any spelling of "featured", capitals included, reaches the featured handler |
| Routes.SubscribeInAnyCase | backend/src/routes/newsletterRoutes.ts:6-22 | "Subscribe" reaches the subscribe route |
| Routes.Sanitized | backend/src/routes/productRoutes.ts:46-47 | the sanitisers rewrite their field and add no field |
| Routes.RunRules | backend/src/routes/productRoutes.ts:45-51 | validator chains only append errors and leave the credentials alone |
| Routes.FeaturedIsNotAnId | backend/src/routes/productRoutes.ts:27-34 | "featured" reaches the featured handler, not the by-id one |
| Routes.FirstMatchWins | backend/src/routes/productRoutes.ts:20-67 | the first matching route is dispatched whatever follows it |
| Routes.OtherSegmentsAreIds | backend/src/routes/productRoutes.ts:27-34 | any other non-empty single segment, one that is not "featured" in some case, reaches the by-id handler |
| Routes.ProductAccess | backend/src/routes/productRoutes.ts:20-67 | the three reads are public; create, update and delete start with `authenticate, requireAdmin` |
| Routes.NoValidatorsOnUpdateOrDelete | backend/src/routes/productRoutes.ts:60-67 | update and delete run no body validator |
| Routes.SanitizedKeepsOthers | backend/src/routes/productRoutes.ts:45-51 | a chain's sanitiser touches only its own field |
| Routes.RunRulesErrors | backend/src/routes/productRoutes.ts:45-51 | on chains over distinct fields, no error is recorded iff every check passes on the body as it arrived |
| Routes.CreateProductValidation | backend/src/routes/productRoutes.ts:46-50 | a product body passes iff name and description are non-empty when trimmed, the price parses as at least 0, the category is one of the five and the image address is a URL |
| Routes.IsLengthCount | backend/src/routes/authRoutes.ts:20-22 | the length `isLength` compares: never more than the code points, and equal to them iff the string holds no presentation selector U+FE0E/U+FE0F |
| Routes.RegisterValidation | backend/src/routes/authRoutes.ts:15-31 | registration passes iff the email is valid, the password counts six or more characters as `isLength` counts them, and both names are non-empty when trimmed |
| Routes.LoginValidation | backend/src/routes/authRoutes.ts:42-50 | login passes iff the email is valid and the password is non-empty, with no minimum length |
| Routes.BlankPasswordPassesLogin | backend/src/routes/authRoutes.ts:20-49 | a three-space password passes login but fails registration |
| Routes.SelectorNotCounted | backend/src/routes/authRoutes.ts:20-22 | "abcde" followed by U+FE0F is six code points, yet registration refuses it as five characters |
| Routes.SubscribeSanitizes | backend/src/routes/newsletterRoutes.ts:13-22 | subscribe always reaches the handler with the email normalised, and no error recorded iff the email is valid |
| Routes.AdminGate | backend/src/routes/productRoutes.ts:41-44 | behind `authenticate, requireAdmin`: 401 unless the token verifies, 403 unless the role is admin, else the rest of the chain runs with the decoded user |
| Routes.ProductWritesGated | backend/src/routes/productRoutes.ts:41-67 | create, update and delete all sit behind that gate |
| Routes.PublicForms | backend/src/routes/newsletterRoutes.ts:13-38 | subscribe, unsubscribe, register and login are public; the profile requires a token but no admin role |
| Routes.SubscriberListGate | backend/src/routes/newsletterRoutes.ts:45 | the subscriber list answers 401 without a header, 403 for a valid non-admin token, and reaches the handler for an admin |
| Seed.Documents | backend/src/utils/seedData.ts:195 | the inserted documents are the rows as `new Product(row)` validates and builds them |
| Seed.DocumentsValid | backend/src/utils/seedData.ts:16-195 | under distinct lower-case ids, as the driver generates them, the inserted documents form a valid collection, each under its own id |
| Seed.AfterSeedProducts | backend/src/utils/seedData.ts:7-200 | a non-empty collection is unchanged; an empty one receives the documents when `insertMany` succeeds and stays empty when it throws |
| Seed.SeedProductsIdempotent | backend/src/utils/seedData.ts:7-200 | after a successful insert a second run changes nothing; after a failed one the second run acts as a first |
| Seed.AdminAccount | backend/src/utils/seedData.ts:207-221 | the admin account: role "admin", named Admin User, with ADMIN_EMAIL and ADMIN_PASSWORD or their defaults |
| Seed.AfterSeedAdmin | backend/src/utils/seedData.ts:205-228 | the users are unchanged when the admin email is taken or `save()` throws, otherwise one admin is appended; the admin email is present afterwards iff it was before or the save succeeded |
| Seed.SeedAdminIdempotent | backend/src/utils/seedData.ts:205-228 | after a successful save a second run changes nothing; after a failed one the second run acts as a first |
| Seed.UserCollection.SeedAdminUser | backend/src/utils/seedData.ts:205-228 | the loop's lookup and the conditional save leave `AfterSeedAdmin(old users, env, saved)` |
| SeedData.EmptyStoreGetsTheTenRows | backend/src/utils/seedData.ts:16-195 | an empty collection whose `insertMany` succeeds receives exactly the ten listed products in order, each built by the schema |
| SeedData.SeedProducts | backend/src/utils/seedData.ts:7-200 | the collection becomes `AfterSeedProducts` of the old one, for a succeeding or failing `insertMany`, and stays valid |
| Text.Trim | backend/src/models/Product.ts:26 | `trim` drops whitespace at both ends only, leaving none there |
| Text.TrimIdempotent | backend/src/models/Product.ts:26 | trimming twice is trimming once |
| Text.TrimEmptyIffAllSpace | backend/src/routes/productRoutes.ts:46 | a string trims to empty iff it is all whitespace |
| Text.ToLower | backend/src/models/Newsletter.ts:15 | same length, each letter lowered |
| Text.ToLowerIdempotent | backend/src/models/Newsletter.ts:15 | lowering twice is lowering once |
| Text.LowerTrimCommute | backend/src/models/Newsletter.ts:15-16 | lower-casing and trimming commute |
| Environment.MissingExactly | backend/src/utils/validateEnv.ts:5-16 | the missing list holds exactly the required names that are unset or empty |
| Environment.Warnings | backend/src/utils/validateEnv.ts:27-34 | one warning iff JWT_SECRET is the development fallback, one iff NODE_ENV is production and FRONTEND_URL is unset, in that order |
| Environment.ValidateEnv | backend/src/utils/validateEnv.ts:4-37 | exit code 1 with the missing names in list order iff a required variable is unset; otherwise the start is validated with exactly those warnings |
| Environment.FallbackSecretOnlyWarns | backend/src/utils/validateEnv.ts:18-30 | the development secret earns a warning but does not stop the start |

## Left out

- Browser storage: the localStorage load and save of the cart are a parameter (`CartStore.Restore`) and are otherwise left out. A restored cart's totals are trusted, not recomputed; the model states this and does not fix it.
- Floating point: prices, totals, tax and ratings are exact reals, so IEEE rounding and `toFixed` formatting are not modelled, and the direction of the `reduce` fold does not matter.
- Product `stockQuantity` and `reviewCount`: the schema types them `Number` with only a minimum of 0, and no route validates them, so a fractional value is stored. The model types them as integers and cannot represent such a value.
- Concurrency: the model is sequential. It does not cover the check-then-create race in `subscribe`, or React invoking an updater twice while `addToCart` mutates the shared line object. `addToCart` is modelled as copying the bumped line.
- The document store: `$text` search is an uninterpreted `TextIndex`. `countDocuments`, `findById`, `insertMany` and the unique index are modelled over sequences. Partial failures of `insertMany` are not modelled.
- ProductController.GetProductById: only 24-hex-digit strings, in either case, count as castable ids; the 12-character strings the driver also accepts are not modelled. Stored ids are kept in lower-case hex, as the driver writes ObjectIds.
- ProductController.GetProducts: requires a limit of at least 1. `parseInt` giving NaN, and a non-positive limit (which the store treats specially), are not modelled.
- NewsletterController.GetSubscribers: requires a limit of at least 1, for the same reason.
- ProductController.FieldKey: sorting on an array field (sizes, colours, images) or an unknown field sorts every document as missing. Ties keep store order, where the store may order them differently.
- Ordering.StrLeq: strings compare by Unicode code point, where the store compares bytes of UTF-8; the two orders agree except around surrogate pairs.
- Text.ToLower: lowers ASCII letters only; non-ASCII case mapping is not modelled, here or in the routers' case-insensitive path matching.
- JWT signing and verification, password hashing and the User model are not part of this model. `verify` is a parameter; the admin account is a plain record.
- express-validator's `isEmail`, `isURL`, `normalizeEmail`, `trim` and float parsing are abstract functions of a `Library` value.
- Rate limiting is not part of this model: it is library configuration and no route shown attaches it.
- The newsletter schema's `timestamps` (createdAt/updatedAt) are not modelled; `subscribedAt` is.
- Mounting the routers in the server, CORS and the 404 fallback are not part of this model.
- Errors the seed functions catch and log: whether `insertMany` and `adminUser.save()` succeed is a parameter (`inserted`, `saved`); a failure leaves the collection as it was. A failing `countDocuments` or `findOne` is not modelled, and the logging is left out.
- Console output, toasts, navigation and rendering details are not modelled. This covers the loading spinner, the image thumbnails (`selectedImage` is only set), the filter toggle `showFilters`, and the product cards of the catalogue page (only their count is kept).
- The catalogue page's Previous and Next `disabled` attributes are not modelled; the clamped arithmetic makes them irrelevant to the page number.
