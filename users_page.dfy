/**
 * The users table page: the offset of its 0-based page, the handlers that
 * change page and search text, and the query its fetch effect sends to the
 * users store.
 */
module UsersPage {
  import opened Wrappers
  import opened Api
  import opened ResourceCache
  import opened Users

  const RowsPerPage: nat := 10

  /** `page * ROWS_PER_PAGE` for the 0-based page. */
  function SkipFor(page: int): (skip: int)
    ensures page >= 0 ==> skip >= 0 && skip % RowsPerPage == 0 && skip / RowsPerPage == page
  {
    page * RowsPerPage
  }

  /** The first fetch asks for key "-0-10" from the plain listing. */
  lemma FirstFetch()
    ensures var p := UsersQuery(Some(""), RowsPerPage, SkipFor(0));
      UsersKey(p) == "-0-10" && UsersEndpoint(p) == List(UsersResource, 10, 0)
  {
    assert Decimal.NatToString(0) == "0";
    assert Decimal.NatToString(10) == "10";
  }

  /** The table's `page` and `search` state. */
  class PageState {
    var page: nat
    var search: string

    /** The argument of the fetch effect: `{ q: search, limit: ROWS_PER_PAGE, skip }`. */
    function FetchQuery(): UsersQuery
      reads this
    {
      UsersQuery(Some(search), RowsPerPage, SkipFor(page))
    }

    constructor ()
      ensures page == 0 && search == ""
      ensures FetchQuery() == UsersQuery(Some(""), RowsPerPage, 0)
    {
      page, search := 0, "";
    }

    /** `handleChangePage`: the new page exactly. */
    method HandleChangePage(newPage: nat)
      modifies this
      ensures page == newPage && search == old(search)
    {
      page := newPage;
    }

    /** The search field's `onChange`: back to the first page with the new text. */
    method HandleSearchInput(value: string)
      modifies this
      ensures page == 0 && search == value
    {
      page := 0;
      search := value;
    }

    /** The fetch effect: `fetchUsers` with the current query. */
    method FetchEffect(store: ResourceStore<User>) returns (pending: Option<Pending>)
      modifies store
      ensures pending.None? <==> UsersKey(FetchQuery()) in old(store.cache)
      ensures pending.Some? ==> pending.value == Pending(UsersKey(FetchQuery()), UsersEndpoint(FetchQuery()))
      ensures store.State() == Step(old(store.State()), Request(UsersKey(FetchQuery())))
    {
      pending := FetchUsers(store, FetchQuery());
    }
  }
}
