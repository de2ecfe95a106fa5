/**
 * The catalogue page of src/pages/ProductsPage.tsx: the infinite query's page parameters and
 * endpoint, the flattened product list, the category filter's navigation and radio buttons,
 * and the mobile filter panel.
 */
module ProductsPage {
  import opened Wrappers

  /** One page of a paged listing, as the server reports it. */
  datatype Page<T> = Page(content: seq<T>, currentPage: int, totalPages: int)

  /** The page size the page always asks for. */
  const PageSize: int := 9

  /** `initialPageParam`. */
  const FirstPageParam: int := 0

  /** `getNextPageParam`: the following page while the last page fetched is not the last one. */
  function NextPageParam<T>(lastPage: Page<T>): (next: Option<int>)
    ensures next.Some? <==> lastPage.currentPage < lastPage.totalPages - 1
    ensures next.Some? ==> next.value == lastPage.currentPage + 1 && next.value < lastPage.totalPages
  {
    if lastPage.currentPage < lastPage.totalPages - 1 then Some(lastPage.currentPage + 1) else None
  }

  /** The request the query function makes. */
  datatype Endpoint = ByCategory(categoryId: string, page: int, size: int) | AllProducts(page: int, size: int)

  /** `queryFn`: the category listing when the route names a category (a non-empty id), else all products. */
  function QueryFor(categoryId: Option<string>, pageParam: int): (e: Endpoint)
    ensures e.ByCategory? <==> categoryId.Some? && categoryId.value != ""
    ensures e.ByCategory? ==> e.categoryId == categoryId.value
    ensures e.page == pageParam && e.size == PageSize
  {
    if categoryId.Some? && categoryId.value != "" then ByCategory(categoryId.value, pageParam, PageSize)
    else AllProducts(pageParam, PageSize)
  }

  /** `pages.flatMap(page => page.content)`. */
  function Flatten<T>(pages: seq<Page<T>>): (r: seq<T>)
    ensures pages == [] ==> r == []
  {
    if pages == [] then [] else Flatten(pages[..|pages| - 1]) + pages[|pages| - 1].content
  }

  /** The products shown: the flattened pages, or none before any data has arrived. */
  function Products<T>(data: Option<seq<Page<T>>>): (r: seq<T>)
    ensures data.None? ==> r == []
    ensures data.Some? ==> r == Flatten(data.value)
  {
    if data.Some? then Flatten(data.value) else []
  }

  /** Each fetched page's products are appended after those already shown, in order. */
  lemma FlattenAppendsPage<T>(pages: seq<Page<T>>, next: Page<T>)
    ensures Flatten(pages + [next]) == Flatten(pages) + next.content
    ensures |Flatten(pages + [next])| == |Flatten(pages)| + |next.content|
  {
    assert (pages + [next])[..|pages|] == pages;
  }

  /** Every product of every fetched page is shown, at the offset of the pages before it. */
  lemma {:induction false} FlattenKeepsEveryProduct<T>(pages: seq<Page<T>>, k: int, j: int)
    requires 0 <= k < |pages| && 0 <= j < |pages[k].content|
    ensures |Flatten(pages[..k])| + j < |Flatten(pages)|
    ensures Flatten(pages)[|Flatten(pages[..k])| + j] == pages[k].content[j]
  {
    var last := |pages| - 1;
    assert pages == pages[..last] + [pages[last]];
    FlattenAppendsPage(pages[..last], pages[last]);
    if k < last {
      assert pages[..last][..k] == pages[..k];
      FlattenKeepsEveryProduct(pages[..last], k, j);
    } else {
      assert pages[..k] == pages[..last];
    }
  }

  /**
   * The page parameters the infinite query asks for, starting at `param`, when scrolling keeps
   * asking for more at most `fuel` more times.
   */
  function ParamsFetched<T>(server: int -> Page<T>, param: int, fuel: nat): (r: seq<int>)
    ensures |r| >= 1 && r[0] == param
    decreases fuel
  {
    var next := NextPageParam(server(param));
    if next.Some? && fuel > 0 then [param] + ParamsFetched(server, next.value, fuel - 1) else [param]
  }

  /** The integers `lo, lo + 1, ..., hi - 1`. */
  function Range(lo: int, hi: int): (r: seq<int>)
    ensures |r| == if lo <= hi then hi - lo else 0
    ensures forall i :: 0 <= i < |r| ==> r[i] == lo + i
    decreases hi - lo
  {
    if lo >= hi then [] else [lo] + Range(lo + 1, hi)
  }

  /**
   * Against a server that answers page `k` with `currentPage == k` and a fixed `totalPages`,
   * scrolling from `param` fetches each remaining page exactly once, in order, and then stops.
   */
  lemma {:induction false} FetchesEveryPageOnce<T>(server: int -> Page<T>, totalPages: int, param: int, fuel: nat)
    requires forall k :: server(k).currentPage == k && server(k).totalPages == totalPages
    requires 0 <= param < totalPages && fuel >= totalPages - 1 - param
    ensures ParamsFetched(server, param, fuel) == Range(param, totalPages)
    decreases totalPages - param
  {
    if param < totalPages - 1 {
      FetchesEveryPageOnce(server, totalPages, param + 1, fuel - 1);
    }
  }

  /** From the first page parameter, a listing of `totalPages >= 1` pages is fetched as pages `0..totalPages-1`. */
  lemma FetchesAllPagesFromFirst<T>(server: int -> Page<T>, totalPages: int)
    requires forall k :: server(k).currentPage == k && server(k).totalPages == totalPages
    requires totalPages >= 1
    ensures ParamsFetched(server, FirstPageParam, totalPages) == Range(0, totalPages)
  {
    FetchesEveryPageOnce(server, totalPages, FirstPageParam, totalPages);
  }

  /** An empty listing (`totalPages == 0`) is fetched once, as page 0, and never asked for more. */
  lemma EmptyListingFetchedOnce<T>(server: int -> Page<T>, fuel: nat)
    requires server(FirstPageParam).currentPage == 0 && server(FirstPageParam).totalPages == 0
    ensures ParamsFetched(server, FirstPageParam, fuel) == [FirstPageParam]
  {
  }

  const ProductsPath: string := "/products"
  const CategoryPrefix: string := "/products/category/"

  /** `handleCategoryFilterChange`: where choosing a category radio navigates. */
  function FilterPath(categoryId: string): (path: string)
    ensures categoryId == "" ==> path == ProductsPath
    ensures categoryId != "" ==> path == CategoryPrefix + categoryId
  {
    if categoryId == "" then ProductsPath else CategoryPrefix + categoryId
  }

  /** The `categoryId` route parameter of a catalogue path (`products` or `products/category/:categoryId`). */
  function RouteCategory(path: string): (r: Option<Option<string>>)
  {
    if path == ProductsPath then Some(None)
    else if |path| > |CategoryPrefix| && path[..|CategoryPrefix|] == CategoryPrefix
            && forall i :: |CategoryPrefix| <= i < |path| ==> path[i] != '/'
    then Some(Some(path[|CategoryPrefix|..]))
    else None
  }

  /**
   * Choosing a category navigates to a route whose parameter is that category, and "All
   * Categories" to the route with none (ids contain no `/`).
   */
  lemma FilterPathRoundTrip(categoryId: string)
    requires forall i :: 0 <= i < |categoryId| ==> categoryId[i] != '/'
    ensures RouteCategory(FilterPath(categoryId)) == Some(if categoryId == "" then None else Some(categoryId))
  {
    if categoryId != "" {
      var path := FilterPath(categoryId);
      assert path[..|CategoryPrefix|] == CategoryPrefix;
      assert path[|CategoryPrefix|..] == categoryId;
      assert path != ProductsPath by {
        assert |path| > |ProductsPath|;
      }
      forall i | |CategoryPrefix| <= i < |path|
        ensures path[i] != '/'
      {
        assert path[i] == categoryId[i - |CategoryPrefix|];
      }
    }
  }

  /** The "All Categories" radio is checked exactly when the route names no category. */
  predicate AllCategoriesChecked(categoryId: Option<string>)
  {
    categoryId.None? || categoryId.value == ""
  }

  /** A category's radio is checked exactly when the route names that category. */
  predicate CategoryChecked(categoryId: Option<string>, id: string)
  {
    categoryId == Some(id)
  }

  /** The indices of the category radios that are checked. */
  function CheckedCategories(categoryId: Option<string>, ids: seq<string>): (r: set<int>)
    ensures forall i :: i in r <==> 0 <= i < |ids| && CategoryChecked(categoryId, ids[i])
  {
    set i | 0 <= i < |ids| && CategoryChecked(categoryId, ids[i])
  }

  /**
   * With distinct, non-empty category ids and a route that names no category or one of them,
   * exactly one radio of the group is checked.
   */
  lemma ExactlyOneRadioChecked(categoryId: Option<string>, ids: seq<string>)
    requires forall i, j :: 0 <= i < j < |ids| ==> ids[i] != ids[j]
    requires forall i :: 0 <= i < |ids| ==> ids[i] != ""
    requires categoryId.None? || categoryId.value in ids
    ensures AllCategoriesChecked(categoryId) ==> CheckedCategories(categoryId, ids) == {}
    ensures !AllCategoriesChecked(categoryId) ==> |CheckedCategories(categoryId, ids)| == 1
  {
    if categoryId.Some? {
      var k :| 0 <= k < |ids| && ids[k] == categoryId.value;
      assert CheckedCategories(categoryId, ids) == {k};
    }
  }

  /** The mobile filter panel. */
  class FilterPanel {
    var isFilterOpen: bool

    constructor()
      ensures !isFilterOpen
    {
      isFilterOpen := false;
    }

    /** `toggleFilterMobile`. */
    method ToggleFilterMobile()
      modifies this
      ensures isFilterOpen == !old(isFilterOpen)
    {
      isFilterOpen := !isFilterOpen;
    }
  }
}
