/**
 * The products store's `fetchProducts`: the cache key of a query, the
 * endpoint a miss requests, and the fetch itself as steps on a
 * `ResourceStore<Product>`.
 */
module Products {
  import opened Wrappers
  import opened Decimal
  import opened KeyText
  import opened Api
  import opened ResourceCache

  datatype Product = Product(
    id: int,
    title: string,
    price: real,
    category: string,
    rating: real,
    thumbnail: string,
    images: seq<string>,
    description: string)

  /** The argument of `fetchProducts`; `q` and `category` may be omitted. */
  datatype ProductQuery = ProductQuery(q: Option<string>, limit: nat, skip: nat, category: Option<string>)

  /** What a products key records about a query once the defaults are applied. */
  datatype ProductsKeyFields = ProductsKeyFields(q: string, skip: nat, limit: nat, category: string)

  const FailureFallback := "Failed to load products"

  /** `category || "all"`: an omitted or empty category is written as "all". */
  function CategoryLabel(category: Option<string>): (name: string)
    ensures name == "all" <==> !Truthy(category) || category.value == "all"
    ensures name != "all" ==> category == Some(name) && name != ""
  {
    if Truthy(category) then category.value else "all"
  }

  function KeyFields(p: ProductQuery): ProductsKeyFields {
    ProductsKeyFields(OrEmpty(p.q), p.skip, p.limit, CategoryLabel(p.category))
  }

  /** `${q}-${skip}-${limit}-${category || "all"}` with `q` defaulted to "". */
  function ProductsKey(p: ProductQuery): string {
    OrEmpty(p.q) + "-" + NatToString(p.skip) + "-" + NatToString(p.limit) + "-" + CategoryLabel(p.category)
  }

  /** Reads a products key back, splitting at its last three dashes. */
  function ParseProductsKey(key: string): Option<ProductsKeyFields> {
    match SplitLast(key)
    case None => None
    case Some((rest, category)) =>
      match SplitLast(rest)
      case None => None
      case Some((front, limit)) =>
        match SplitLast(front)
        case None => None
        case Some((q, skip)) =>
          if ParseNat(skip) < 0 || ParseNat(limit) < 0 then None
          else Some(ProductsKeyFields(q, ParseNat(skip), ParseNat(limit), category))
  }

  /** The category, if given, has no dash. */
  predicate DashFree(category: Option<string>) {
    category.None? || Dash !in category.value
  }

  lemma ParseProductsKeyRoundTrip(p: ProductQuery)
    requires DashFree(p.category)
    ensures ParseProductsKey(ProductsKey(p)) == Some(KeyFields(p))
  {
    var q, skip, limit, cat := OrEmpty(p.q), NatToString(p.skip), NatToString(p.limit), CategoryLabel(p.category);
    NumeralHasNoDash(p.skip);
    NumeralHasNoDash(p.limit);
    assert Dash !in cat;
    SplitLastJoin(q + "-" + skip + "-" + limit, cat);
    SplitLastJoin(q + "-" + skip, limit);
    SplitLastJoin(q, skip);
    ParseNatToString(p.skip);
    ParseNatToString(p.limit);
  }

  /**
   * When no category contains a dash, two queries share a key exactly when
   * they agree on q, skip, limit and normalised category.
   */
  lemma ProductsKeyUnique(a: ProductQuery, b: ProductQuery)
    requires DashFree(a.category) && DashFree(b.category)
    ensures ProductsKey(a) == ProductsKey(b) <==> KeyFields(a) == KeyFields(b)
  {
    if ProductsKey(a) == ProductsKey(b) {
      ParseProductsKeyRoundTrip(a);
      ParseProductsKeyRoundTrip(b);
    }
  }

  /**
   * With a dash in the category the key is ambiguous: these two queries ask
   * different endpoints for different data yet share the key "x-1-2-3-y", so
   * the second is answered from the first one's cache entry.
   */
  lemma ProductsKeyCollision()
    ensures var a := ProductQuery(Some("x"), 2, 1, Some("3-y"));
      var b := ProductQuery(Some("x-1"), 3, 2, Some("y"));
      && ProductsKey(a) == ProductsKey(b) == "x-1-2-3-y"
      && KeyFields(a) != KeyFields(b)
      && ProductsEndpoint(a) != ProductsEndpoint(b)
  {
    assert NatToString(1) == "1" && NatToString(2) == "2" && NatToString(3) == "3";
  }

  /**
   * Endpoint precedence: a non-empty `q` searches, whatever the category;
   * otherwise a real category (not empty, not "all") lists that category;
   * otherwise the plain listing. Search and category are never combined.
   */
  function ProductsEndpoint(p: ProductQuery): (e: Endpoint)
    ensures e.Search? <==> OrEmpty(p.q) != ""
    ensures e.Category? <==> OrEmpty(p.q) == "" && CategoryLabel(p.category) != "all"
    ensures e.Search? ==> e == Search(ProductsResource, OrEmpty(p.q), p.limit, p.skip)
    ensures e.Category? ==> e == Category(CategoryLabel(p.category), p.limit, p.skip)
    ensures e.List? ==> e == List(ProductsResource, p.limit, p.skip)
  {
    var q := OrEmpty(p.q);
    if q != "" then Search(ProductsResource, q, p.limit, p.skip)
    else if p.category.Some? && p.category.value != "" && p.category.value != "all" then
      Category(p.category.value, p.limit, p.skip)
    else List(ProductsResource, p.limit, p.skip)
  }

  /**
   * The cache is sound for dash-free categories: queries that share a key
   * request the same endpoint, so a hit serves the data a miss would fetch.
   */
  lemma SameKeySameEndpoint(a: ProductQuery, b: ProductQuery)
    requires DashFree(a.category) && DashFree(b.category)
    requires ProductsKey(a) == ProductsKey(b)
    ensures ProductsEndpoint(a) == ProductsEndpoint(b)
  {
    ProductsKeyUnique(a, b);
  }

  /** An omitted, empty or "all" category gives one key and the same endpoint. */
  lemma OmittedCategoryIsAll(q: Option<string>, limit: nat, skip: nat)
    ensures var none := ProductQuery(q, limit, skip, None);
      var empty := ProductQuery(q, limit, skip, Some(""));
      var all := ProductQuery(q, limit, skip, Some("all"));
      && ProductsKey(none) == ProductsKey(empty) == ProductsKey(all)
      && ProductsEndpoint(none) == ProductsEndpoint(empty) == ProductsEndpoint(all)
      && (OrEmpty(q) == "" ==> ProductsEndpoint(all) == List(ProductsResource, limit, skip))
  {
  }

  /** An omitted `q` behaves as the empty search text. */
  lemma OmittedQueryIsEmpty(limit: nat, skip: nat, category: Option<string>)
    ensures var none := ProductQuery(None, limit, skip, category);
      var empty := ProductQuery(Some(""), limit, skip, category);
      ProductsKey(none) == ProductsKey(empty) && ProductsEndpoint(none) == ProductsEndpoint(empty)
  {
  }

  /**
   * `fetchProducts` up to its `await`: a hit shows the cached entry and
   * requests nothing; a miss raises `loading`, clears `error` and returns the
   * request that is now outstanding.
   */
  method FetchProducts(store: ResourceStore<Product>, p: ProductQuery) returns (pending: Option<Pending>)
    modifies store
    ensures pending.None? <==> ProductsKey(p) in old(store.cache)
    ensures pending.Some? ==> pending.value == Pending(ProductsKey(p), ProductsEndpoint(p))
    ensures store.State() == Step(old(store.State()), Request(ProductsKey(p)))
  {
    var key := ProductsKey(p);
    var hit := store.BeginFetch(key);
    if hit {
      pending := None;
    } else {
      pending := Some(Pending(key, ProductsEndpoint(p)));
    }
  }

  /**
   * `fetchProducts` after its `await`: a response is shown and cached under
   * the pending key; an error is reported with the products fallback
   * message; `loading` ends false either way.
   */
  method SettleProducts(store: ResourceStore<Product>, pending: Pending, outcome: ApiOutcome<Product>)
    modifies store
    ensures store.State() == Step(old(store.State()), Settlement(pending.key, outcome, FailureFallback))
    ensures !store.loading
  {
    match outcome
    case Loaded(items, total) =>
      store.SettleSuccess(pending.key, Entry(items, total));
    case Failed(message) =>
      store.SettleFailure(ErrorMessage(message, FailureFallback));
  }
}
