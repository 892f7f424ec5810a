/**
 * The boundary to the REST client. Requests are named by an `Endpoint`
 * value instead of a URL string; the client's answer is an `ApiOutcome`.
 */
module Api {
  import opened Wrappers

  datatype Resource = ProductsResource | UsersResource

  /**
   * `/<resource>/search?q=&limit=&skip=`, `/products/category/<c>?limit=&skip=`
   * and `/<resource>?limit=&skip=`.
   */
  datatype Endpoint =
    | Search(resource: Resource, q: string, limit: nat, skip: nat)
    | Category(category: string, limit: nat, skip: nat)
    | List(resource: Resource, limit: nat, skip: nat)

  /** What the awaited request settles to: the response body, or the thrown error's `message`. */
  datatype ApiOutcome<T> = Loaded(items: seq<T>, total: int) | Failed(message: Option<string>)

  /** A started miss: the cache key it will fill and the request it sent. */
  datatype Pending = Pending(key: string, endpoint: Endpoint)

  /** A `q` parameter defaulted as `{ q = "" }` does. */
  function OrEmpty(q: Option<string>): (r: string)
    ensures q.Some? ==> r == q.value
    ensures q.None? ==> r == ""
  {
    q.GetOr("")
  }

  /** `err.message || fallback`: the error's own message unless it is absent or empty. */
  function ErrorMessage(message: Option<string>, fallback: string): (r: string)
    ensures Truthy(message) ==> r == message.value
    ensures !Truthy(message) ==> r == fallback
    ensures fallback != "" ==> r != ""
  {
    if Truthy(message) then message.value else fallback
  }
}
