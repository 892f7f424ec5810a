/**
 * The products list page: pagination arithmetic, when the pager and the
 * empty message show, the handlers that change page, search and category,
 * and the query its fetch effect sends to the products store.
 */
module ProductsPage {
  import opened Wrappers
  import opened Api
  import opened ResourceCache
  import opened Products

  const Limit: nat := 10

  /** `(page - 1) * LIMIT` for the 1-based page. */
  function SkipFor(page: int): (skip: int)
    ensures page >= 1 ==> skip >= 0 && skip % Limit == 0 && skip / Limit == page - 1
  {
    (page - 1) * Limit
  }

  /** `total > 0 ? Math.ceil(total / LIMIT) : 1`, in integer arithmetic. */
  function TotalPages(total: int): (n: int)
    ensures n >= 1 && n * Limit >= total
    ensures total > 0 ==> (n - 1) * Limit < total
  {
    if total > 0 then (total + Limit - 1) / Limit else 1
  }

  predicate ShowsPagination(total: int) {
    total > Limit
  }

  /** The pager is shown exactly when there is more than one page. */
  lemma PaginationIffSeveralPages(total: int)
    ensures ShowsPagination(total) <==> TotalPages(total) > 1
  {
    if total > Limit {
      assert (total + Limit - 1) / Limit >= 2;
    }
  }

  /** "No products found" shows for an empty list that is neither loading nor in error. */
  predicate ShowsNoProducts(s: StoreState<Product>) {
    |s.items| == 0 && !s.loading && !Truthy(s.error)
  }

  /**
   * A miss that settles with an empty list shows the empty message (the miss
   * cleared any earlier error); while it is in flight, and after a failure,
   * the message is hidden.
   */
  lemma EmptyMessageAfterEmptyResult(s: StoreState<Product>, key: string, total: int, m: string)
    requires key !in s.cache && m != ""
    ensures !ShowsNoProducts(Run(s, [Request(key)]))
    ensures ShowsNoProducts(Run(s, [Request(key), Succeed(key, Entry([], total))]))
    ensures !ShowsNoProducts(Run(s, [Request(key), Fail(m)]))
  {
    RunShort(s, Request(key), Succeed(key, Entry([], total)), Fail(m), Fail(m));
    RunShort(s, Request(key), Fail(m), Fail(m), Fail(m));
  }

  /** The first fetch asks for key "-0-10-all" from the plain listing. */
  lemma FirstFetch()
    ensures var p := ProductQuery(Some(""), Limit, SkipFor(1), Some("all"));
      ProductsKey(p) == "-0-10-all" && ProductsEndpoint(p) == List(ProductsResource, 10, 0)
  {
    assert Decimal.NatToString(0) == "0";
    assert Decimal.NatToString(10) == "10";
  }

  /** The page's `page`, `search` and `category` state. */
  class PageState {
    var page: int
    var search: string
    var category: string

    predicate Valid()
      reads this
    {
      page >= 1
    }

    /** The argument of the fetch effect: `{ q: search, limit: LIMIT, skip, category }`. */
    function FetchQuery(): ProductQuery
      reads this
      requires Valid()
    {
      ProductQuery(Some(search), Limit, SkipFor(page), Some(category))
    }

    constructor ()
      ensures Valid() && page == 1 && search == "" && category == "all"
      ensures FetchQuery() == ProductQuery(Some(""), Limit, 0, Some("all"))
    {
      page, search, category := 1, "", "all";
    }

    /** The pager reports a 1-based page. */
    method HandlePageChange(value: int)
      requires value >= 1
      modifies this
      ensures Valid() && page == value && search == old(search) && category == old(category)
    {
      page := value;
    }

    /** A new search text starts again at page 1. */
    method HandleSearchChange(value: string)
      modifies this
      ensures Valid() && page == 1 && search == value && category == old(category)
    {
      page := 1;
      search := value;
    }

    /** A new category starts again at page 1. */
    method HandleCategoryChange(value: string)
      modifies this
      ensures Valid() && page == 1 && category == value && search == old(search)
    {
      page := 1;
      category := value;
    }

    /** The fetch effect: `fetchProducts` with the current query. */
    method FetchEffect(store: ResourceStore<Product>) returns (pending: Option<Pending>)
      requires Valid()
      modifies store
      ensures pending.None? <==> ProductsKey(FetchQuery()) in old(store.cache)
      ensures pending.Some? ==> pending.value == Pending(ProductsKey(FetchQuery()), ProductsEndpoint(FetchQuery()))
      ensures store.State() == Step(old(store.State()), Request(ProductsKey(FetchQuery())))
    {
      pending := FetchProducts(store, FetchQuery());
    }
  }
}
