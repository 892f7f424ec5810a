# Dummy-Admin client state layer in Dafny

This project models the client-side state of the Dummy-Admin dashboard: the
two memoising resource stores (products and users), the auth token holder,
the login page's session bridge and redirect, the NextAuth `authorize`, `jwt`
and `session` callbacks, and the pagination and query logic of the two list
pages.

Layout, one module per source file or shared concern:

- `wrappers.dfy` (`Wrappers`): `Option`, and JavaScript truthiness of an optional string.
- `decimal.dfy` (`Decimal`): `String(n)` for integers, its inverse, injectivity.
- `key_text.dfy` (`KeyText`): splitting a dash-joined key at its last dash.
- `api.dfy` (`Api`): endpoints as a datatype, the API outcome, `q` defaulting, error-message fallback.
- `resource_cache.dfy` (`ResourceCache`): the store state machine shared by both stores.
  `ResourceStore<T>` is the mutable store (fields `items`, `total`, `loading`, `error`, `cache`).
  Each method is specified by the pure `Step` function over `StoreState`.
  `Run` folds `Step` over a sequence of events.
  A fetch is split into `Request(key)`, the synchronous hit-or-start-miss part, and a later settle, `Succeed` or `Fail`.
  Interleavings of overlapping fetches are therefore plain event sequences.
- `products.dfy` (`Products`), `users.dfy` (`Users`): each store's key, key decoder, endpoint choice, and the fetch and settle steps.
- `auth.dfy` (`Auth`): the auth store.
- `auth_options.dfy` (`AuthOptions`): the NextAuth callbacks.
- `login_page.dfy` (`LoginPage`): the session sync effect, the redirect effect, the submit handler.
- `products_page.dfy` (`ProductsPage`), `users_page.dfy` (`UsersPage`): the list pages' state and arithmetic.

Points where the code behaves differently from what one might expect:

- The products key `${q}-${skip}-${limit}-${category || "all"}` is not injective when the category contains a dash.
  `Products.ProductsKeyCollision` exhibits two queries with the key `x-1-2-3-y` that ask different endpoints.
  Uniqueness, and with it "same key, same endpoint", is proved only for dash-free categories.
  The users key is unique for all queries, including search text with dashes, as its doc comment claims.
- The cache is not write-once: two racing misses on one key both write it, and the later settle wins (`DuplicateMissOverwrites`).
- A rejected `signIn` leaves the login form stuck in progress: `handleSubmit` has no try/finally, so `loading` stays true (`LoginPage.LoginForm.HandleSubmit`).
- `isAuthenticated` is `!!accessToken`, so an empty access token counts as unauthenticated, not just a null one.
- A cache hit leaves `error` and `loading` alone, and a success does not clear an error left by another request (`SuccessKeepsOtherError`).

## Model

| member | source | states |
|---|---|---|
| `Api.OrEmpty` | src/store/productsStore.ts:42 | an omitted `q` becomes "", a given one is kept |
| `Api.ErrorMessage` | src/store/productsStore.ts:76-79 | the error's message when present and non-empty, else the fallback; never empty when the fallback is not |
| `Decimal.NatToString` | src/store/usersStore.ts:46 | the numeral of a count is non-empty and all digits |
| `Decimal.ParseNatToString` | src/store/usersStore.ts:46 | parsing the numeral of `n` gives back `n` |
| `Decimal.NatToStringInjective` | src/store/usersStore.ts:46 | distinct offsets and limits are written as distinct numerals |
| `Decimal.IntToStringInjective` | src/lib/authOptions.ts:28 | `String(id)` is injective, so distinct API ids give distinct user ids |
| `Decimal.IntToString` | src/lib/authOptions.ts:28 | `String(id)` of an integer id: a non-empty numeral that starts with "-" exactly when the id is negative |
| `Products.CategoryLabel` | src/store/productsStore.ts:43 | the key's category is "all" exactly for an omitted, empty or "all" category, else the category itself |
| `Products.ProductsKey` | src/store/productsStore.ts:43 | the key text `${q}-${skip}-${limit}-${category}` with an empty category written as "all"; no contract of its own: what it promises (round trip, uniqueness for dash-free categories, the collision) is stated by `ParseProductsKeyRoundTrip`, `ProductsKeyUnique` and `ProductsKeyCollision` |
| `Products.ParseProductsKeyRoundTrip` | src/store/productsStore.ts:43 | a products key decodes back to its defaulted q, skip, limit and category when the category has no dash |
| `Products.ProductsKeyUnique` | src/store/productsStore.ts:43 | for dash-free categories, two queries share a key iff they agree on q, skip, limit and normalised category |
| `Products.ProductsKeyCollision` | src/store/productsStore.ts:43 | ("x",skip 1,limit 2,"3-y") and ("x-1",skip 2,limit 3,"y") share key "x-1-2-3-y" yet differ in fields and endpoint |
| `Products.OmittedCategoryIsAll` | src/store/productsStore.ts:42-43 | an omitted, empty or "all" category gives the same key and endpoint, the plain listing when q is empty |
| `Products.OmittedQueryIsEmpty` | src/store/productsStore.ts:42-43 | an omitted q gives the same key and endpoint as q = "" |
| `Products.ProductsEndpoint` | src/store/productsStore.ts:56-64 | search iff q is non-empty; category iff q is empty and the category is real; plain listing otherwise; never both |
| `Products.SameKeySameEndpoint` | src/store/productsStore.ts:43-64 | for dash-free categories, queries sharing a key request the same endpoint, so a hit serves what a miss would fetch |
| `Products.FetchProducts` | src/store/productsStore.ts:42-66 | a hit requests nothing and shows the cache entry; a miss sets loading, clears error and sends the selected endpoint |
| `Products.SettleProducts` | src/store/productsStore.ts:66-82 | success shows and caches the response; failure sets the message or "Failed to load products"; loading ends false |
| `ResourceCache.Settlement` | src/store/productsStore.ts:66-79 | a response settles as a success for the pending key, an error as a failure with its resolved message |
| `ResourceCache.Step` | src/store/productsStore.ts:44-82 | one atomic store step: the cache never loses a key, loading is switched on only by a miss, and the error changes only when a miss clears it or a failure sets it |
| `ResourceCache.Run` | src/store/productsStore.ts:42-83 | the store state after a sequence of steps; no contract of its own: its properties are `CacheOnlyGrows`, `ViewIsCached`, `LoadingMeansMissInFlight` and `StaleViewOnError` |
| `ResourceCache.ResourceStore.constructor` | src/store/productsStore.ts:30-35 | a new store is empty, not loading, without error, with an empty cache |
| `ResourceCache.ResourceStore.BeginFetch` | src/store/productsStore.ts:44-51 | hit iff the key is cached; a hit copies the entry and keeps loading, error and cache; a miss sets loading and clears error |
| `ResourceCache.ResourceStore.SettleSuccess` | src/store/productsStore.ts:68-82 | items and total become the response, the cache gains it under the key, others untouched, error kept, loading false |
| `ResourceCache.ResourceStore.SettleFailure` | src/store/productsStore.ts:76-82 | error becomes the message; items, total and cache unchanged; loading false |
| `ResourceCache.CacheOnlyGrows` | src/store/productsStore.ts:71-74 | no key ever leaves the cache, and an entry changes only when a later success writes that key |
| `ResourceCache.ViewIsCached` | src/store/productsStore.ts:46-75 | the visible items and total are the initial ones or one of the cache entries |
| `ResourceCache.LoadingMeansMissInFlight` | src/store/productsStore.ts:51-82 | loading is true only when some miss was started and nothing has settled since |
| `ResourceCache.SharedLoadingFlag` | src/store/productsStore.ts:51-82 | with two misses outstanding, the first settle clears loading although the other has not answered |
| `ResourceCache.LastSettledWins` | src/store/productsStore.ts:51-82 | A requested, B requested, B settles, A settles: A's response is shown, both are cached, loading false |
| `ResourceCache.DuplicateMissOverwrites` | src/store/productsStore.ts:71-74 | two racing misses on one key: the later success overwrites the cache entry |
| `ResourceCache.SuccessKeepsOtherError` | src/store/productsStore.ts:68-79 | a success after another request's failure shows its data but keeps that failure's error |
| `ResourceCache.HitAfterSuccess` | src/store/productsStore.ts:44-49 | requesting a key after its success shows the cached response and leaves loading, error and cache as they were |
| `ResourceCache.StaleViewOnError` | src/store/productsStore.ts:76-82 | a failure keeps the shown items, total and cache, reports its message and ends loading |
| `Users.ParseUsersKeyRoundTrip` | src/store/usersStore.ts:46 | a users key decodes back to its defaulted q, skip and limit, whatever q contains |
| `Users.UsersKey` | src/store/usersStore.ts:46 | the key text `${q}-${skip}-${limit}`; no contract of its own: its round trip and uniqueness are `ParseUsersKeyRoundTrip` and `UsersKeyUnique` |
| `Users.UsersKeyUnique` | src/store/usersStore.ts:7-8 | two queries share a users key iff they agree on defaulted q, skip and limit |
| `Users.UsersEndpoint` | src/store/usersStore.ts:59-61 | the search URL iff q is non-empty, else the plain listing, with limit and skip |
| `Users.SameKeySameEndpoint` | src/store/usersStore.ts:46-61 | queries sharing a key request the same URL |
| `Users.OmittedQueryIsEmpty` | src/store/usersStore.ts:45-46 | an omitted q gives the key of q = "" and the plain listing |
| `Users.FetchUsers` | src/store/usersStore.ts:45-62 | a hit requests nothing and shows the cache entry; a miss sets loading, clears error and sends the selected URL |
| `Users.SettleUsers` | src/store/usersStore.ts:62-73 | success shows and caches the response; failure sets the message or "Failed to load users"; loading ends false |
| `Auth.SetTokensStores` | src/store/authStore.ts:25-30 | `setTokens(a, r)` stores exactly a and r and authenticates iff a is non-empty |
| `Auth.Apply` | src/store/authStore.ts:25-33 | every `setTokens` or `clear` leaves `isAuthenticated` equal to `!!accessToken` |
| `Auth.SetTokensIdempotent` | src/store/authStore.ts:25-30 | setting the same tokens twice equals setting them once |
| `Auth.ClearResets` | src/store/authStore.ts:33 | `clear` returns the initial state from any state |
| `Auth.ActionsKeepConsistent` | src/store/authStore.ts:19-33 | after any sequence of actions the flag equals the token's truthiness, so authenticated implies a token |
| `Auth.AuthStore.constructor` | src/store/authStore.ts:19-22 | both tokens null and not authenticated |
| `Auth.AuthStore.SetTokens` | src/store/authStore.ts:25-30 | the fields become a, r and `a != ""`, keeping the invariant |
| `Auth.AuthStore.Clear` | src/store/authStore.ts:33 | the fields return to the initial state |
| `AuthOptions.LoginRequest` | src/lib/authOptions.ts:15-23 | the login call is made iff username and password are both present and non-empty, with exactly those values |
| `AuthOptions.UserRecord` | src/lib/authOptions.ts:27-34 | id is `String(data.id)` (it parses back), name is first + " " + last, email, image and tokens copied |
| `AuthOptions.Authorize` | src/lib/authOptions.ts:14-35 | null without credentials; null when the response lacks a truthy access token; else the user record, whose token is non-empty |
| `AuthOptions.AuthorizeSkipsLogin` | src/lib/authOptions.ts:15 | with missing credentials the result is null whatever the login call would answer |
| `AuthOptions.JwtCallback` | src/lib/authOptions.ts:42-48 | with a user the token's tokens become the user's; without one they stay; other claims untouched |
| `AuthOptions.SessionCallback` | src/lib/authOptions.ts:49-53 | the session's tokens become the token's; the rest of the session is untouched |
| `LoginPage.SyncOutcome` | src/app/page.tsx:27-31 | no truthy token: no write; a truthy token: authenticated with it and `refreshToken ?? null`; never unauthenticates |
| `LoginPage.Synced` | src/app/page.tsx:27-31 | the auth state after the sync effect sees a session; no contract of its own: its properties are `SyncOutcome` (never logs out, copies a truthy token) |
| `LoginPage.SyncSession` | src/app/page.tsx:27-31 | the store becomes the synced state and keeps its invariant |
| `LoginPage.RedirectEffect` | src/app/page.tsx:33-37 | navigation to the dashboard is requested iff the store is authenticated |
| `LoginPage.Navigations` | src/app/page.tsx:33-37 | the number of `router.push("/dashboard")` calls along a run of auth states is at most the number of effect runs; `NavigatesAtMostOnce` bounds it by one |
| `LoginPage.NavigatesAtMostOnce` | src/app/page.tsx:27-37 | along any observation run the redirect fires once if the run goes from unauthenticated to authenticated, else never |
| `LoginPage.SessionSequenceExample` | src/app/page.tsx:27-37 | null, null, {t}, {t}: unauthenticated twice, then authenticated with "t", one navigation on the third |
| `LoginPage.SignInReachesDashboard` | src/app/page.tsx:27-37 | an authorised user's tokens pass through jwt, session and sync, and the redirect fires |
| `LoginPage.SubmitError` | src/app/page.tsx:50-52 | the shown error is non-empty iff sign-in returned a truthy error, and then equals it |
| `LoginPage.LoginForm.constructor` | src/app/page.tsx:23-24 | no error and not loading |
| `LoginPage.LoginForm.BeginSubmit` | src/app/page.tsx:42-43 | error cleared and loading set before sign-in |
| `LoginPage.LoginForm.FinishSubmit` | src/app/page.tsx:50-53 | a truthy result error is shown, otherwise the error is kept; loading false |
| `LoginPage.LoginForm.HandleSubmit` | src/app/page.tsx:39-56 | after a resolved sign-in, error is its error iff there is a truthy one, else empty, and loading is false; after a rejected sign-in (no try/finally) error stays empty and loading stays true |
| `ProductsPage.SkipFor` | src/app/dashboard/products/page.tsx:37 | for page >= 1 the offset is non-negative, a multiple of 10, and `page - 1` tens |
| `ProductsPage.TotalPages` | src/app/dashboard/products/page.tsx:38-41 | at least 1, covers total, and is the least such count when total > 0 |
| `ProductsPage.PaginationIffSeveralPages` | src/app/dashboard/products/page.tsx:181 | the pager shows iff total > 10, iff there is more than one page |
| `ProductsPage.ShowsPagination` | src/app/dashboard/products/page.tsx:181 | the pager condition `total > LIMIT`; no contract of its own: `PaginationIffSeveralPages` proves it means more than one page |
| `ProductsPage.ShowsNoProducts` | src/app/dashboard/products/page.tsx:172 | the empty-state condition (no items, not loading, no error); no contract of its own: `EmptyMessageAfterEmptyResult` says when it holds |
| `ProductsPage.EmptyMessageAfterEmptyResult` | src/app/dashboard/products/page.tsx:172 | "No products found" is hidden while loading and after a failure, shown after an empty success |
| `ProductsPage.FirstFetch` | src/app/dashboard/products/page.tsx:33-45 | the first fetch uses key "-0-10-all" and the plain listing |
| `ProductsPage.PageState.constructor` | src/app/dashboard/products/page.tsx:33-35 | page 1, empty search, category "all"; its query is ("", 10, 0, "all") |
| `ProductsPage.PageState.HandlePageChange` | src/app/dashboard/products/page.tsx:47-52 | page becomes the value; search and category unchanged |
| `ProductsPage.PageState.HandleSearchChange` | src/app/dashboard/products/page.tsx:54-60 | page resets to 1 and search becomes the value; category unchanged |
| `ProductsPage.PageState.HandleCategoryChange` | src/app/dashboard/products/page.tsx:62-68 | page resets to 1 and category becomes the value; search unchanged |
| `ProductsPage.PageState.FetchEffect` | src/app/dashboard/products/page.tsx:43-45 | fetches `{q: search, limit: 10, skip, category}` through the products store |
| `UsersPage.SkipFor` | src/app/dashboard/users/page.tsx:28 | for page >= 0 the offset is non-negative, a multiple of 10, and `page` tens |
| `UsersPage.FirstFetch` | src/app/dashboard/users/page.tsx:25-32 | the first fetch uses key "-0-10" and the plain listing |
| `UsersPage.PageState.constructor` | src/app/dashboard/users/page.tsx:25-26 | page 0 and empty search; its query is ("", 10, 0) |
| `UsersPage.PageState.HandleChangePage` | src/app/dashboard/users/page.tsx:34-39 | page becomes exactly the new page; search unchanged |
| `UsersPage.PageState.HandleSearchInput` | src/app/dashboard/users/page.tsx:49-52 | page resets to 0 and search becomes the value |
| `UsersPage.PageState.FetchEffect` | src/app/dashboard/users/page.tsx:30-32 | fetches `{q: search, limit: 10, skip}` through the users store |

## Left out

- Rendering, MUI components, theming and layout, including `src/app/layout.tsx`, `src/components/Providers.tsx` and the markup of the pages: pure view code.
- The dashboard layout's `getServerSession` + `redirect` guard and the two detail pages: framework routing and display.
- `apiFetch`, `signIn`, `useSession`, `router.push`, `getServerSession`: foreign calls.
  They are an `ApiOutcome` argument, a `login` function argument, a `SignInOutcome` argument (resolved or rejected), a session argument and a returned `navigate` flag.
- `encodeURIComponent` and URL text: requests are `Api.Endpoint` values holding the raw parameters.
- Promise scheduling and Zustand subscriptions: a fetch is two atomic steps, and overlapping fetches are event sequences on one store.
  The success `set` and the `finally` `set` are one step, because nothing can run between them.
- React effect scheduling: effects are methods called explicitly.
  Only the redirect effect's re-run on a change of `isAuthenticated` is modelled, in `LoginPage.Navigations`.
- `Math.ceil` on a float: integer ceiling division, since both operands are integers.
- Products.ProductsKeyUnique: holds only for categories without a dash, because the key format is ambiguous otherwise (see `Products.ProductsKeyCollision`).
- Products.FetchProducts: `skip` and `limit` are natural numbers; negative or fractional JavaScript numbers, which the pages never pass, are not modelled.
- Users.FetchUsers: `skip` and `limit` are natural numbers; negative or fractional JavaScript numbers, which the pages never pass, are not modelled.
- Decimal.NatToString: renders every integer as plain digits; JavaScript writes numbers of 1e21 and above in exponent form ("1e+21") and cannot tell integers apart above 2^53, so offsets, limits and ids are taken to be integers below 2^53, which the pages and the API stay well under.
- Users.SettleUsers: a thrown value that is null or undefined is not modelled; in the code, `err.message` would then throw inside the `catch`, leaving `error` unchanged.
- AuthOptions.Authorize: `apiFetch` throwing on a failed login, which propagates out of `authorize`, is not modelled; `login` returns a response or none.
- The login form's username and password fields and their change handlers, and the demo default credentials: plain input binding.
- Product and user item fields are carried as data; nothing in the core computes on them.
- The JWT's standard claims and the session's `user` and `expires` are opaque values that the callbacks leave untouched.
- Cache eviction, expiry and request de-duplication: the code has none.
