/**
 * The users store's `fetchUsers`: the cache key of a query, the URL a miss
 * requests, and the fetch itself as steps on a `ResourceStore<User>`.
 */
module Users {
  import opened Wrappers
  import opened Decimal
  import opened KeyText
  import opened Api
  import opened ResourceCache

  datatype Company = Company(name: string)

  datatype User = User(
    id: int,
    firstName: string,
    lastName: string,
    email: string,
    gender: string,
    phone: string,
    company: Company)

  /** The argument of `fetchUsers`; `q` may be omitted. */
  datatype UsersQuery = UsersQuery(q: Option<string>, limit: nat, skip: nat)

  /** What a users key records about a query once `q` is defaulted. */
  datatype UsersKeyFields = UsersKeyFields(q: string, skip: nat, limit: nat)

  const FailureFallback := "Failed to load users"

  function KeyFields(p: UsersQuery): UsersKeyFields {
    UsersKeyFields(OrEmpty(p.q), p.skip, p.limit)
  }

  /** `${q}-${skip}-${limit}` with `q` defaulted to "". */
  function UsersKey(p: UsersQuery): string {
    OrEmpty(p.q) + "-" + NatToString(p.skip) + "-" + NatToString(p.limit)
  }

  /** Reads a users key back, splitting at its last two dashes. */
  function ParseUsersKey(key: string): Option<UsersKeyFields> {
    match SplitLast(key)
    case None => None
    case Some((front, limit)) =>
      match SplitLast(front)
      case None => None
      case Some((q, skip)) =>
        if ParseNat(skip) < 0 || ParseNat(limit) < 0 then None
        else Some(UsersKeyFields(q, ParseNat(skip), ParseNat(limit)))
  }

  lemma ParseUsersKeyRoundTrip(p: UsersQuery)
    ensures ParseUsersKey(UsersKey(p)) == Some(KeyFields(p))
  {
    var q, skip, limit := OrEmpty(p.q), NatToString(p.skip), NatToString(p.limit);
    NumeralHasNoDash(p.skip);
    NumeralHasNoDash(p.limit);
    SplitLastJoin(q + "-" + skip, limit);
    SplitLastJoin(q, skip);
    ParseNatToString(p.skip);
    ParseNatToString(p.limit);
  }

  /**
   * The key identifies the call: two queries share a key exactly when they
   * agree on q (after defaulting), skip and limit, even when q has dashes.
   */
  lemma UsersKeyUnique(a: UsersQuery, b: UsersQuery)
    ensures UsersKey(a) == UsersKey(b) <==> KeyFields(a) == KeyFields(b)
  {
    if UsersKey(a) == UsersKey(b) {
      ParseUsersKeyRoundTrip(a);
      ParseUsersKeyRoundTrip(b);
    }
  }

  /** A non-empty `q` selects the search URL, anything else the plain listing. */
  function UsersEndpoint(p: UsersQuery): (e: Endpoint)
    ensures e.Search? <==> OrEmpty(p.q) != ""
    ensures e.Search? ==> e == Search(UsersResource, OrEmpty(p.q), p.limit, p.skip)
    ensures !e.Search? ==> e == List(UsersResource, p.limit, p.skip)
  {
    var q := OrEmpty(p.q);
    if q != "" then Search(UsersResource, q, p.limit, p.skip) else List(UsersResource, p.limit, p.skip)
  }

  /** Queries that share a key request the same URL, so a hit is always the right data. */
  lemma SameKeySameEndpoint(a: UsersQuery, b: UsersQuery)
    requires UsersKey(a) == UsersKey(b)
    ensures UsersEndpoint(a) == UsersEndpoint(b)
  {
    UsersKeyUnique(a, b);
  }

  /** An omitted `q` behaves as the empty search text. */
  lemma OmittedQueryIsEmpty(limit: nat, skip: nat)
    ensures UsersKey(UsersQuery(None, limit, skip)) == UsersKey(UsersQuery(Some(""), limit, skip))
    ensures UsersEndpoint(UsersQuery(None, limit, skip)) == List(UsersResource, limit, skip)
  {
  }

  /**
   * `fetchUsers` up to its `await`: a hit shows the cached entry and
   * requests nothing; a miss raises `loading`, clears `error` and returns the
   * request that is now outstanding.
   */
  method FetchUsers(store: ResourceStore<User>, p: UsersQuery) returns (pending: Option<Pending>)
    modifies store
    ensures pending.None? <==> UsersKey(p) in old(store.cache)
    ensures pending.Some? ==> pending.value == Pending(UsersKey(p), UsersEndpoint(p))
    ensures store.State() == Step(old(store.State()), Request(UsersKey(p)))
  {
    var key := UsersKey(p);
    var hit := store.BeginFetch(key);
    if hit {
      pending := None;
    } else {
      pending := Some(Pending(key, UsersEndpoint(p)));
    }
  }

  /**
   * `fetchUsers` after its `await`: a response is shown and cached under the
   * pending key; an error is reported with the users fallback message;
   * `loading` ends false either way.
   */
  method SettleUsers(store: ResourceStore<User>, pending: Pending, outcome: ApiOutcome<User>)
    modifies store
    ensures store.State() == Step(old(store.State()), Settlement(pending.key, outcome, FailureFallback))
    ensures !store.loading
  {
    match outcome
    case Loaded(items, total) =>
      store.SettleSuccess(pending.key, Entry(items, total));
    case Failed(message) =>
      store.SettleFailure(ErrorMessage(message, FailureFallback));
  }
}
