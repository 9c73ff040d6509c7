/**
 * The product handlers of backend/src/controllers/productController.ts over a
 * product collection held as a sequence in store order. Listing builds a filter
 * from the query string, sorts on one key and cuts one page; the CRUD handlers
 * answer 400 for rejected input, 404 for an absent id and 500 for anything the
 * store throws, a malformed id included.
 */
module ProductController {
  import opened Types
  import opened Wrappers
  import opened Http
  import opened Ordering
  import opened Listing
  import opened ProductSchema
  import opened Text

  /** Whether the text index finds the search terms in a product. */
  type TextIndex = (string, Product) -> bool

  /** The query string of the listing, with `page` and `limit` already through `parseInt`. */
  datatype ProductQuery = ProductQuery(
    category: Option<string>,
    featured: Option<string>,
    search: Option<string>,
    page: Option<int>,
    limit: Option<int>,
    sortBy: Option<string>,
    order: Option<string>)

  datatype Filter = Filter(category: Option<string>, featured: Option<bool>, search: Option<string>)

  /** A query value as a JavaScript condition sees it: an empty string is falsy. */
  function Truthy(v: Option<string>): (r: Option<string>)
    ensures r.Some? <==> v.Some? && v.value != ""
    ensures r.Some? ==> r == v
  {
    if v.Some? && v.value != "" then v else None
  }

  function BuildFilter(q: ProductQuery): (f: Filter)
    ensures f.category.Some? <==> q.category.Some? && q.category.value != ""
    ensures f.category.Some? ==> f.category == q.category
    ensures f.featured.Some? <==> q.featured.Some?
    ensures f.featured.Some? ==> (f.featured.value <==> q.featured.value == "true")
    ensures f.search.Some? <==> q.search.Some? && q.search.value != ""
    ensures f.search.Some? ==> f.search == q.search
  {
    Filter(Truthy(q.category), if q.featured.Some? then Some(q.featured.value == "true") else None, Truthy(q.search))
  }

  predicate Matches(p: Product, f: Filter, textIndex: TextIndex) {
    && (f.category.Some? ==> p.category == f.category.value)
    && (f.featured.Some? ==> p.featured == f.featured.value)
    && (f.search.Some? ==> textIndex(f.search.value, p))
  }

  function Matching(store: seq<Product>, f: Filter, textIndex: TextIndex): seq<Product> {
    Where(store, (p: Product) => Matches(p, f, textIndex))
  }

  /** The value a sort on `field` compares; an array field or an unknown name sorts as missing. */
  function FieldKey(p: Product, field: string): SortValue {
    if field == "_id" then Str(p.id)
    else if field == "name" then Str(p.name)
    else if field == "description" then Str(p.description)
    else if field == "category" then Str(p.category)
    else if field == "imageUrl" then Str(p.imageUrl)
    else if field == "price" then Num(p.price)
    else if field == "rating" then Num(p.rating)
    else if field == "stockQuantity" then Num(p.stockQuantity as real)
    else if field == "reviewCount" then Num(p.reviewCount as real)
    else if field == "inStock" then Flag(p.inStock)
    else if field == "featured" then Flag(p.featured)
    else if field == "createdAt" then Date(p.createdAt)
    else if field == "updatedAt" then Date(p.updatedAt)
    else Missing
  }

  function SortField(q: ProductQuery): string {
    q.sortBy.GetOr("createdAt")
  }

  /** Direction 1 exactly when `order` is "asc"; anything else, or nothing, sorts descending. */
  function Ascending(q: ProductQuery): bool {
    q.order.GetOr("desc") == "asc"
  }

  function SortKey(field: string): Product -> SortValue {
    (p: Product) => FieldKey(p, field)
  }

  /** The matching products in the requested order, before skip and limit. */
  function Ranked(store: seq<Product>, q: ProductQuery, textIndex: TextIndex): seq<Product> {
    SortBy(Matching(store, BuildFilter(q), textIndex), SortKey(SortField(q)), Ascending(q))
  }

  function PageOf(q: ProductQuery): int {
    q.page.GetOr(1)
  }

  function LimitOf(q: ProductQuery): int {
    q.limit.GetOr(12)
  }

  datatype ListResult = Listed(products: seq<Product>, info: PageInfo) | ListFailed(status: Status)

  /**
   * `getProducts`. A page below 1 makes the skip negative, which the store
   * rejects, so the handler answers 500.
   */
  function GetProducts(store: seq<Product>, q: ProductQuery, textIndex: TextIndex): (r: ListResult)
    requires LimitOf(q) >= 1
    ensures r.ListFailed? <==> PageOf(q) < 1
    ensures r.ListFailed? ==> r.status == ServerError
    ensures r.Listed? ==>
      var total := |Matching(store, BuildFilter(q), textIndex)|;
      r.info == PageInfo(PageOf(q), LimitOf(q), total, PageCount(total, LimitOf(q)))
  {
    var page := PageOf(q);
    var limit := LimitOf(q);
    var skip := Skip(page, limit);
    if page < 1 then
      assert skip < 0 by { SkipSign(page, limit); }
      ListFailed(ServerError)
    else
      assert skip >= 0 by { SkipSign(page, limit); }
      var total := |Matching(store, BuildFilter(q), textIndex)|;
      Listed(Window(Ranked(store, q, textIndex), skip, limit),
             PageInfo(page, limit, total, PageCount(total, limit)))
  }

  /** The page is the ranked matches from position `skip` on, at most `limit` of them. */
  lemma ListedPageIsSlice(store: seq<Product>, q: ProductQuery, textIndex: TextIndex)
    requires LimitOf(q) >= 1 && PageOf(q) >= 1
    ensures var r := GetProducts(store, q, textIndex);
      var ranked := Ranked(store, q, textIndex);
      var skip := Skip(PageOf(q), LimitOf(q));
      && r.Listed?
      && |r.products| == (if skip >= |ranked| then 0 else Min(LimitOf(q), |ranked| - skip))
      && skip >= 0
      && (forall i :: 0 <= i < |r.products| ==> skip + i < |ranked| && r.products[i] == ranked[skip + i])
  {
    SkipSign(PageOf(q), LimitOf(q));
  }

  /** `total` is the size of what the page is cut from. */
  lemma RankedHoldsAllMatches(store: seq<Product>, q: ProductQuery, textIndex: TextIndex)
    ensures var ranked := Ranked(store, q, textIndex);
      var matching := Matching(store, BuildFilter(q), textIndex);
      && multiset(ranked) == multiset(matching)
      && |ranked| == |matching|
      && SortedBy(ranked, SortKey(SortField(q)), Ascending(q))
  {
    var matching := Matching(store, BuildFilter(q), textIndex);
    SortBySortedPermutation(matching, SortKey(SortField(q)), Ascending(q));
    assert |multiset(Ranked(store, q, textIndex))| == |multiset(matching)|;
  }

  /** Every listed product is in the store and satisfies the filter. */
  lemma ListedProductsMatch(store: seq<Product>, q: ProductQuery, textIndex: TextIndex)
    requires LimitOf(q) >= 1
    ensures var r := GetProducts(store, q, textIndex);
      r.Listed? ==>
        forall i :: 0 <= i < |r.products| ==> r.products[i] in store && Matches(r.products[i], BuildFilter(q), textIndex)
  {
    var r := GetProducts(store, q, textIndex);
    if r.Listed? {
      ListedPageIsSlice(store, q, textIndex);
      RankedHoldsAllMatches(store, q, textIndex);
      var ranked := Ranked(store, q, textIndex);
      var matching := Matching(store, BuildFilter(q), textIndex);
      var skip := Skip(PageOf(q), LimitOf(q));
      forall i | 0 <= i < |r.products|
        ensures r.products[i] in store && Matches(r.products[i], BuildFilter(q), textIndex)
      {
        assert r.products[i] == ranked[skip + i];
        assert ranked[skip + i] in multiset(matching);
      }
    }
  }

  /** The listed page is in the requested order. */
  lemma ListedProductsSorted(store: seq<Product>, q: ProductQuery, textIndex: TextIndex)
    requires LimitOf(q) >= 1
    ensures var r := GetProducts(store, q, textIndex);
      r.Listed? ==> SortedBy(r.products, SortKey(SortField(q)), Ascending(q))
  {
    var r := GetProducts(store, q, textIndex);
    if r.Listed? {
      ListedPageIsSlice(store, q, textIndex);
      RankedHoldsAllMatches(store, q, textIndex);
      SliceOfSorted(Ranked(store, q, textIndex), r.products, Skip(PageOf(q), LimitOf(q)),
                  SortKey(SortField(q)), Ascending(q));
    }
  }

  /** The match at position `i` of the ranking is item `i % limit` of page `i / limit + 1`. */
  lemma EveryMatchOnItsPage(store: seq<Product>, q: ProductQuery, textIndex: TextIndex, i: nat)
    requires LimitOf(q) >= 1
    requires i < |Ranked(store, q, textIndex)|
    ensures var r := GetProducts(store, q.(page := Some(i / LimitOf(q) + 1)), textIndex);
      && r.Listed?
      && i % LimitOf(q) < |r.products|
      && r.products[i % LimitOf(q)] == Ranked(store, q, textIndex)[i]
  {
    var limit := LimitOf(q);
    var q' := q.(page := Some(i / limit + 1));
    assert BuildFilter(q') == BuildFilter(q) && SortField(q') == SortField(q);
    assert Ranked(store, q', textIndex) == Ranked(store, q, textIndex);
    ListedPageIsSlice(store, q', textIndex);
    PageOfPosition(i, limit);
  }

  lemma PageOfPosition(i: nat, limit: int)
    requires limit >= 1
    ensures Skip(i / limit + 1, limit) >= 0
    ensures Skip(i / limit + 1, limit) + i % limit == i
    ensures i % limit < limit
  {
  }

  /** Pages 1 to `pages` are non-empty and every page past them is empty. */
  lemma PagesBeyondTheLastAreEmpty(store: seq<Product>, q: ProductQuery, textIndex: TextIndex)
    requires LimitOf(q) >= 1 && PageOf(q) >= 1
    ensures var r := GetProducts(store, q, textIndex);
      && r.Listed?
      && (r.products == [] <==> PageOf(q) > r.info.pages)
  {
    ListedPageIsSlice(store, q, textIndex);
    RankedHoldsAllMatches(store, q, textIndex);
    PastTheLastPage(PageOf(q), LimitOf(q), |Matching(store, BuildFilter(q), textIndex)|);
  }

  /** A query without criteria counts the whole store. */
  lemma NoCriteriaCountsEverything(store: seq<Product>, textIndex: TextIndex)
    ensures var q := ProductQuery(None, None, None, None, None, None, None);
      && Matching(store, BuildFilter(q), textIndex) == store
      && var r := GetProducts(store, q, textIndex);
        r.Listed? && r.info == PageInfo(1, 12, |store|, PageCount(|store|, 12))
  {
    var q := ProductQuery(None, None, None, None, None, None, None);
    WhereAll(store, (p: Product) => Matches(p, BuildFilter(q), textIndex));
  }

  /** `parseInt(limit) || 6`: a missing, unparseable or zero limit means 6. */
  function FeaturedLimit(limit: Option<int>): (n: int)
    ensures n != 0
    ensures limit.None? || limit.value == 0 ==> n == 6
    ensures limit.Some? && limit.value != 0 ==> n == limit.value
  {
    if limit.None? || limit.value == 0 then 6 else limit.value
  }

  function Abs(n: int): nat {
    if n < 0 then -n else n
  }

  function RatingKey(p: Product): SortValue {
    Num(p.rating)
  }

  function Featured(store: seq<Product>): seq<Product> {
    Where(store, (p: Product) => p.featured)
  }

  function RankedFeatured(store: seq<Product>): seq<Product> {
    SortBy(Featured(store), RatingKey, false)
  }

  /**
   * `getFeaturedProducts`: featured products by rating, highest first. A
   * negative limit is taken as its magnitude.
   */
  function GetFeatured(store: seq<Product>, limit: Option<int>): (r: seq<Product>)
    ensures |r| == Min(Abs(FeaturedLimit(limit)), |Featured(store)|)
    ensures forall i :: 0 <= i < |r| ==> r[i] in store && r[i].featured
  {
    var ranked := RankedFeatured(store);
    SortBySortedPermutation(Featured(store), RatingKey, false);
    assert |multiset(ranked)| == |multiset(Featured(store))|;
    var r := Window(ranked, 0, Abs(FeaturedLimit(limit)));
    assert forall i :: 0 <= i < |r| ==> r[i] in multiset(Featured(store));
    r
  }

  /** Without a limit the featured list is the six best rated, or all featured products if fewer. */
  lemma FeaturedDefaultsToSix(store: seq<Product>)
    ensures |GetFeatured(store, None)| == Min(6, |Featured(store)|)
    ensures |GetFeatured(store, Some(0))| == Min(6, |Featured(store)|)
  {
  }

  /** The featured list is ordered by rating, highest first. */
  lemma FeaturedByRating(store: seq<Product>, limit: Option<int>)
    ensures var r := GetFeatured(store, limit);
      forall i, j :: 0 <= i < j < |r| ==> r[i].rating >= r[j].rating
  {
    var ranked := RankedFeatured(store);
    SortBySortedPermutation(Featured(store), RatingKey, false);
    var r := GetFeatured(store, limit);
    forall i, j | 0 <= i < j < |r| ensures r[i].rating >= r[j].rating {
      assert r[i] == ranked[i] && r[j] == ranked[j];
      assert InOrder(RatingKey(ranked[i]), RatingKey(ranked[j]), false);
    }
  }

  /** No featured product left out of the list is rated above one in it. */
  lemma FeaturedAreTopRated(store: seq<Product>, limit: Option<int>, x: Product, y: Product)
    requires x in GetFeatured(store, limit)
    requires y in store && y.featured && y !in GetFeatured(store, limit)
    ensures y.rating <= x.rating
  {
    var ranked := RankedFeatured(store);
    var k := |GetFeatured(store, limit)|;
    FeaturedIsRankedPrefix(store, limit);
    FeaturedAreRanked(store, y);
    assert ranked == ranked[..k] + ranked[k..];
    assert y in ranked[k..];
    SortBySortedPermutation(Featured(store), RatingKey, false);
    PrefixComesFirst(ranked, RatingKey, false, k);
    assert InOrder(RatingKey(x), RatingKey(y), false);
  }

  /** The featured list is the start of the ranking. */
  lemma FeaturedIsRankedPrefix(store: seq<Product>, limit: Option<int>)
    ensures |GetFeatured(store, limit)| <= |RankedFeatured(store)|
    ensures GetFeatured(store, limit) == RankedFeatured(store)[..|GetFeatured(store, limit)|]
  {
    SortBySortedPermutation(Featured(store), RatingKey, false);
    assert |multiset(RankedFeatured(store))| == |multiset(Featured(store))|;
  }

  /** Every featured product of the store takes part in the ranking. */
  lemma FeaturedAreRanked(store: seq<Product>, y: Product)
    requires y in store && y.featured
    ensures y in RankedFeatured(store)
  {
    SortBySortedPermutation(Featured(store), RatingKey, false);
    assert y in multiset(Featured(store));
  }

  predicate IsHexDigit(c: char) {
    ('0' <= c <= '9') || ('a' <= c <= 'f') || ('A' <= c <= 'F')
  }

  /** What `findById` accepts as an id: 24 hexadecimal digits, in either case. */
  predicate ObjectIdCastable(id: string) {
    |id| == 24 && forall i :: 0 <= i < |id| ==> IsHexDigit(id[i])
  }

  /**
   * The spelling of the ObjectId a hex string casts to, as the driver writes it
   * back: lower-case. Two spellings that differ only in case name one document.
   */
  function CastId(id: string): (r: string)
    ensures |r| == |id|
    ensures ObjectIdCastable(id) ==> ObjectIdCastable(r)
    ensures forall i :: 0 <= i < |id| ==> r[i] == LowerChar(id[i])
    ensures ToLower(r) == r
  {
    ToLowerIdempotent(id);
    ToLower(id)
  }

  /** The position of the first product with this id, or -1. */
  function IndexOfId(store: seq<Product>, id: string): (r: int)
    ensures -1 <= r < |store|
    ensures r >= 0 ==> store[r].id == id
    ensures forall j :: 0 <= j < |store| && (r < 0 || j < r) ==> store[j].id != id
  {
    if store == [] then -1
    else if store[0].id == id then 0
    else
      var k := IndexOfId(store[1..], id);
      if k < 0 then -1 else k + 1
  }

  datatype Lookup = Found(product: Product) | LookupFailed(status: Status)

  /**
   * `getProductById`: a malformed id throws a cast error and answers 500, not
   * 404; a castable one is looked up as the ObjectId it casts to.
   */
  function GetProductById(store: seq<Product>, id: string): (r: Lookup)
    ensures r.LookupFailed? ==> r.status == ServerError || r.status == NotFound
    ensures r.LookupFailed? && r.status == ServerError <==> !ObjectIdCastable(id)
    ensures r.LookupFailed? && r.status == NotFound <==>
      ObjectIdCastable(id) && forall j :: 0 <= j < |store| ==> store[j].id != CastId(id)
    ensures r.Found? ==> r.product in store && r.product.id == CastId(id)
  {
    if !ObjectIdCastable(id) then LookupFailed(ServerError)
    else
      var i := IndexOfId(store, CastId(id));
      if i < 0 then LookupFailed(NotFound) else Found(store[i])
  }

  predicate IdsUnique(store: seq<Product>) {
    forall i, j :: 0 <= i < j < |store| ==> store[i].id != store[j].id
  }

  /** An id as the collection stores it: the lower-case spelling of its ObjectId. */
  predicate CanonicalId(id: string) {
    CastId(id) == id
  }

  /** What the collection keeps: one document per id, each id canonical, each document passed the schema. */
  predicate StoreValid(store: seq<Product>) {
    && IdsUnique(store)
    && (forall i :: 0 <= i < |store| ==> CanonicalId(store[i].id))
    && (forall i :: 0 <= i < |store| ==> Stored(store[i]))
  }

  /** Any spelling of a stored document's id, upper-case digits included, finds that document. */
  lemma AnySpellingFindsIt(store: seq<Product>, p: Product, id: string)
    requires StoreValid(store) && p in store
    requires ObjectIdCastable(id) && CastId(id) == p.id
    ensures GetProductById(store, id) == Found(p)
  {
    var k :| 0 <= k < |store| && store[k] == p;
    var i := IndexOfId(store, CastId(id));
    assert i >= 0;
    assert store[i].id == store[k].id;
  }

  /** The store without the product at position `i`. */
  function RemoveAt(store: seq<Product>, i: nat): (r: seq<Product>)
    requires i < |store|
    ensures |r| == |store| - 1
    ensures forall j :: 0 <= j < |r| ==> r[j] == if j < i then store[j] else store[j + 1]
  {
    store[..i] + store[i + 1..]
  }

  /** Deleting the only document with an id leaves none with it and keeps every other one. */
  lemma RemoveAtDropsOnlyThatId(store: seq<Product>, i: nat)
    requires IdsUnique(store) && i < |store|
    ensures var r := RemoveAt(store, i);
      && IdsUnique(r)
      && (forall j :: 0 <= j < |r| ==> r[j].id != store[i].id)
      && (forall p :: p in store && p.id != store[i].id ==> p in r)
  {
    var r := RemoveAt(store, i);
    forall p | p in store && p.id != store[i].id ensures p in r {
      var k :| 0 <= k < |store| && store[k] == p;
      if k < i {
        assert r[k] == p;
      } else {
        assert r[k - 1] == p;
      }
    }
  }

  /** Deleting a document keeps the collection valid and leaves no document with its id. */
  lemma RemoveAtKeepsStoreValid(store: seq<Product>, i: nat)
    requires StoreValid(store) && i < |store|
    ensures StoreValid(RemoveAt(store, i))
    ensures forall j :: 0 <= j < |RemoveAt(store, i)| ==> RemoveAt(store, i)[j].id != store[i].id
  {
    RemoveAtDropsOnlyThatId(store, i);
    var r := RemoveAt(store, i);
    forall j | 0 <= j < |r| ensures CanonicalId(r[j].id) && Stored(r[j]) {
      var x := if j < i then store[j] else store[j + 1];
      assert r[j] == x;
    }
  }

  /** An update touches one document and keeps the collection valid. */
  lemma PatchKeepsStoreValid(store: seq<Product>, i: nat, patch: ProductFields, now: int)
    requires StoreValid(store) && i < |store| && FieldsValid(patch)
    ensures StoreValid(store[i := ApplyPatch(store[i], patch, now)])
  {
    PatchPreservesStored(store[i], patch, now);
  }

  /** Appending a stored document under an id not yet taken keeps the collection valid. */
  lemma AppendKeepsStoreValid(store: seq<Product>, p: Product)
    requires StoreValid(store) && Stored(p) && CanonicalId(p.id)
    requires forall j :: 0 <= j < |store| ==> store[j].id != p.id
    ensures StoreValid(store + [p])
  {
    var r := store + [p];
    forall i | 0 <= i < |r| ensures Stored(r[i]) && CanonicalId(r[i].id) {
      if i < |store| { assert r[i] == store[i]; }
    }
  }

  /** The product collection as the CRUD handlers change it. */
  class ProductCollection {
    var products: seq<Product>

    ghost predicate Valid()
      reads this
    {
      StoreValid(products)
    }

    constructor()
      ensures Valid()
      ensures products == []
    {
      products := [];
    }

    /**
     * `createProduct`. `newId` is the id of the new document: the body's `_id`
     * when it carries one, otherwise a freshly generated one; it is stored as
     * the ObjectId it casts to. A cast failure, a schema failure or a duplicate
     * id makes `save` throw: 500.
     */
    method CreateProduct(validationPassed: bool, body: ProductFields, newId: string, now: int)
      returns (status: Status)
      requires Valid()
      modifies this
      ensures Valid()
      ensures !validationPassed ==> status == BadRequest && products == old(products)
      ensures validationPassed ==>
        var doc := NewProduct(body, CastId(newId), now);
        if doc.Some? && ObjectIdCastable(newId) && IndexOfId(old(products), CastId(newId)) < 0 then
          status == Created && products == old(products) + [doc.value]
        else
          status == ServerError && products == old(products)
    {
      if !validationPassed {
        return BadRequest;
      }
      var doc := NewProduct(body, CastId(newId), now);
      if doc.None? || !ObjectIdCastable(newId) || IndexOfId(products, CastId(newId)) >= 0 {
        return ServerError;
      }
      AppendKeepsStoreValid(products, doc.value);
      products := products + [doc.value];
      status := Created;
    }

    /**
     * `updateProduct` with `runValidators`: the id is cast and the changed
     * fields are validated before the document with that ObjectId is looked up.
     */
    method UpdateProduct(validationPassed: bool, id: string, patch: ProductFields, now: int)
      returns (status: Status)
      requires Valid()
      modifies this
      ensures Valid()
      ensures !validationPassed ==> status == BadRequest && products == old(products)
      ensures validationPassed && (!ObjectIdCastable(id) || !FieldsValid(patch)) ==>
        status == ServerError && products == old(products)
      ensures validationPassed && ObjectIdCastable(id) && FieldsValid(patch) ==>
        var i := IndexOfId(old(products), CastId(id));
        if i < 0 then
          status == NotFound && products == old(products)
        else
          status == Ok && products == old(products)[i := ApplyPatch(old(products)[i], patch, now)]
    {
      if !validationPassed {
        return BadRequest;
      }
      if !ObjectIdCastable(id) || !FieldsValid(patch) {
        return ServerError;
      }
      var i := IndexOfId(products, CastId(id));
      if i < 0 {
        return NotFound;
      }
      PatchKeepsStoreValid(products, i, patch, now);
      products := products[i := ApplyPatch(products[i], patch, now)];
      status := Ok;
    }

    /** `deleteProduct`: the document with the ObjectId the id casts to is removed. */
    method DeleteProduct(id: string) returns (status: Status)
      requires Valid()
      modifies this
      ensures Valid()
      ensures !ObjectIdCastable(id) ==> status == ServerError && products == old(products)
      ensures ObjectIdCastable(id) ==>
        var i := IndexOfId(old(products), CastId(id));
        if i < 0 then
          status == NotFound && products == old(products)
        else
          status == Ok && products == RemoveAt(old(products), i)
      ensures ObjectIdCastable(id) ==> forall j :: 0 <= j < |products| ==> products[j].id != CastId(id)
    {
      if !ObjectIdCastable(id) {
        return ServerError;
      }
      var i := IndexOfId(products, CastId(id));
      if i < 0 {
        return NotFound;
      }
      RemoveAtKeepsStoreValid(products, i);
      products := RemoveAt(products, i);
      status := Ok;
    }
  }
}
