/**
 * The catalogue page (frontend/src/pages/Products.tsx): the URL search
 * parameters that carry the category and the search terms, the current page
 * and the page count of the last response, the request those three produce,
 * the category buttons and the pagination controls.
 */
module ProductsPage {
  import opened Types
  import opened Wrappers
  import opened Listing
  import opened ProductController
  import opened Ordering

  const PageSize: int := 12

  /** The sidebar buttons, in order; "All" stands for no category. */
  const CategoryButtons: seq<string> := ["All", "Men", "Women", "Accessories", "Shoes", "Sale"]

  /** The category a button asks for: "" for "All", its own name otherwise. */
  function ButtonCategory(button: string): (r: string)
    ensures button == "All" ==> r == ""
    ensures button != "All" ==> r == button
  {
    if button == "All" then "" else button
  }

  /** `value || undefined`: an empty parameter is not sent at all. */
  function Sent(value: string): (r: Option<string>)
    ensures r.None? <==> value == ""
    ensures r.Some? ==> r.value == value
  {
    if value == "" then None else Some(value)
  }

  /** `Array.from({ length: totalPages }, (_, i) => i + 1)`. */
  function PageNumbers(totalPages: int): (r: seq<int>)
    ensures |r| == if totalPages <= 0 then 0 else totalPages
    ensures forall i :: 0 <= i < |r| ==> r[i] == i + 1
  {
    if totalPages <= 0 then [] else PageNumbers(totalPages - 1) + [totalPages]
  }

  /** The buttons are 1, 2, ..., totalPages: strictly ascending, each a page that exists, every page present. */
  lemma PageNumbersExactlyThePages(totalPages: int)
    ensures forall i, j :: 0 <= i < j < |PageNumbers(totalPages)| ==> PageNumbers(totalPages)[i] < PageNumbers(totalPages)[j]
    ensures forall n :: n in PageNumbers(totalPages) <==> 1 <= n <= totalPages
  {
    var r := PageNumbers(totalPages);
    forall n | 1 <= n <= totalPages ensures n in r {
      assert r[n - 1] == n;
    }
  }

  /** The state of one mounted Products component (the product list itself is left out). */
  class Products {
    var searchParams: map<string, string>
    var currentPage: int
    var totalPages: int
    var isLoading: bool
    var productCount: nat

    /** The page number never drops below 1. */
    ghost predicate Valid()
      reads this
    {
      currentPage >= 1
    }

    /** The `useState` initial values; the search parameters come from the URL. */
    constructor (url: map<string, string>)
      ensures Valid()
      ensures searchParams == url
      ensures currentPage == 1 && totalPages == 1 && isLoading && productCount == 0
    {
      searchParams := url;
      currentPage, totalPages := 1, 1;
      isLoading, productCount := true, 0;
    }

    /** `searchParams.get(key) || ''`. */
    function Param(key: string): (r: string)
      reads this
      ensures key in searchParams ==> r == searchParams[key]
      ensures key !in searchParams ==> r == ""
    {
      if key in searchParams then searchParams[key] else ""
    }

    /** The request of `fetchProducts`: the category and search when non-empty, the current page, 12 per page. */
    function Request(): (q: ProductQuery)
      reads this
      ensures q.category == Sent(Param("category")) && q.search == Sent(Param("search"))
      ensures q.page == Some(currentPage) && q.limit == Some(PageSize)
      ensures q.featured.None? && q.sortBy.None? && q.order.None?
    {
      ProductQuery(Sent(Param("category")), None, Sent(Param("search")), Some(currentPage), Some(PageSize), None, None)
    }

    /**
     * The end of `fetchProducts`, with the outcome as a parameter (None when the
     * request throws): a response replaces the list and the page count, a
     * failure keeps both. The current page is left alone either way.
     */
    method FetchProducts(response: Option<(seq<Product>, nat)>)
      requires Valid()
      modifies this
      ensures Valid()
      ensures !isLoading && currentPage == old(currentPage) && searchParams == old(searchParams)
      ensures response.Some? ==> productCount == |response.value.0| && totalPages == response.value.1
      ensures response.None? ==> productCount == old(productCount) && totalPages == old(totalPages)
    {
      if response.Some? {
        productCount := |response.value.0|;
        totalPages := response.value.1;
      }
      isLoading := false;
    }

    /** The pagination row is drawn only under a non-empty, loaded list that spans more than one page. */
    function ShowsPagination(): (b: bool)
      reads this
      ensures b ==> totalPages >= 2
      ensures b <==> !isLoading && productCount > 0 && totalPages > 1
    {
      !isLoading && productCount > 0 && totalPages > 1
    }

    /** "Previous": one page back, not below 1. */
    method Previous()
      requires Valid() && ShowsPagination()
      modifies this
      ensures Valid()
      ensures currentPage == if old(currentPage) - 1 >= 1 then old(currentPage) - 1 else 1
      ensures old(currentPage) <= totalPages ==> currentPage <= totalPages
      ensures searchParams == old(searchParams) && totalPages == old(totalPages)
    {
      currentPage := if currentPage - 1 >= 1 then currentPage - 1 else 1;
    }

    /** "Next": one page on, not past the last page; from beyond the last page it goes to the last. */
    method Next()
      requires Valid() && ShowsPagination()
      modifies this
      ensures Valid()
      ensures currentPage == if old(currentPage) + 1 <= totalPages then old(currentPage) + 1 else totalPages
      ensures currentPage <= totalPages
      ensures searchParams == old(searchParams) && totalPages == old(totalPages)
    {
      currentPage := if currentPage + 1 <= totalPages then currentPage + 1 else totalPages;
    }

    /** A numbered button: one of PageNumbers(totalPages). */
    method GoToPage(page: int)
      requires Valid() && ShowsPagination() && page in PageNumbers(totalPages)
      modifies this
      ensures Valid()
      ensures currentPage == page && 1 <= currentPage <= totalPages
      ensures searchParams == old(searchParams) && totalPages == old(totalPages)
    {
      PageNumbersExactlyThePages(totalPages);
      currentPage := page;
    }

    /** `handleCategoryChange`: back to page 1; an empty category removes the parameter, any other sets it. */
    method HandleCategoryChange(newCategory: string)
      requires Valid()
      modifies this
      ensures Valid()
      ensures currentPage == 1 && totalPages == old(totalPages)
      ensures newCategory == "" ==> searchParams == old(searchParams) - {"category"}
      ensures newCategory != "" ==> searchParams == old(searchParams)["category" := newCategory]
    {
      currentPage := 1;
      if newCategory != "" {
        searchParams := searchParams["category" := newCategory];
      } else {
        searchParams := searchParams - {"category"};
      }
    }

    /** `(cat === 'All' && !category) || cat === category`: the highlighted sidebar button. */
    function Highlighted(button: string): (b: bool)
      reads this
      ensures button == "All" ==> (b <==> Param("category") == "" || Param("category") == "All")
      ensures button != "All" ==> (b <==> Param("category") == button)
    {
      (button == "All" && Param("category") == "") || button == Param("category")
    }

    /**
     * A click on a sidebar button. Afterwards exactly that button is
     * highlighted, the search terms are kept, and the next request asks for
     * page 1 of the chosen category ("All" sends none).
     */
    method ChooseCategory(button: string)
      requires Valid() && button in CategoryButtons
      modifies this
      ensures Valid()
      ensures button == "All" ==> "category" !in searchParams
      ensures button != "All" ==> "category" in searchParams && searchParams["category"] == button
      ensures Param("search") == old(Param("search"))
      ensures forall other :: other in CategoryButtons ==> (Highlighted(other) <==> other == button)
      ensures Request().category == Sent(ButtonCategory(button)) && Request().page == Some(1)
    {
      HandleCategoryChange(ButtonCategory(button));
    }

    /**
     * A search from elsewhere in the app replaces the URL parameters. The
     * page number is not reset, so a narrower search can leave the page past
     * the new last page.
     */
    method SearchChanged(url: map<string, string>)
      requires Valid()
      modifies this
      ensures Valid()
      ensures searchParams == url
      ensures currentPage == old(currentPage) && totalPages == old(totalPages)
    {
      searchParams := url;
    }
  }

  /**
   * The requests the page sends are ones the listing answers: the page is at
   * least 1, so the server cuts a page of at most 12 matches rather than failing.
   */
  lemma RequestIsListed(page: Products, store: seq<Product>, textIndex: TextIndex)
    requires page.Valid()
    ensures LimitOf(page.Request()) == PageSize
    ensures GetProducts(store, page.Request(), textIndex).Listed?
    ensures |GetProducts(store, page.Request(), textIndex).products| <= PageSize
    ensures GetProducts(store, page.Request(), textIndex).info.page == page.currentPage
  {
    var q := page.Request();
    assert PageOf(q) == page.currentPage;
    SkipSign(page.currentPage, PageSize);
  }

  /**
   * A page number kept past the page count that the server now reports (as a
   * search change can leave it) gets an empty list, and with an empty list the
   * pagination row is not drawn, so neither Previous nor a page button is
   * offered to come back.
   */
  lemma StalePageShowsNothing(page: Products, store: seq<Product>, textIndex: TextIndex)
    requires page.Valid()
    requires var r := GetProducts(store, page.Request(), textIndex);
      r.Listed? && page.currentPage > r.info.pages
    ensures GetProducts(store, page.Request(), textIndex).products == []
  {
    var q := page.Request();
    var total := |Matching(store, BuildFilter(q), textIndex)|;
    PastTheLastPage(page.currentPage, PageSize, total);
    SortBySortedPermutation(Matching(store, BuildFilter(q), textIndex), SortKey(SortField(q)), Ascending(q));
    assert |multiset(Ranked(store, q, textIndex))| == total;
  }
}
