/**
 * The auth token holder (`useAuthStore`): the two tokens and the derived
 * `isAuthenticated` flag, set together by `setTokens` and reset by `clear`.
 */
module Auth {
  import opened Wrappers

  datatype AuthState = AuthState(accessToken: Option<string>, refreshToken: Option<string>, isAuthenticated: bool)

  const InitialAuth: AuthState := AuthState(None, None, false)

  /** The flag is `!!accessToken`: set exactly when the access token is present and non-empty. */
  predicate Consistent(s: AuthState) {
    s.isAuthenticated <==> Truthy(s.accessToken)
  }

  datatype AuthOp = SetTokens(accessToken: string, refreshToken: Option<string>) | Clear

  /** One store action. `setTokens` replaces the whole state; `clear` restores the initial one. */
  function Apply(s: AuthState, op: AuthOp): (r: AuthState)
    ensures Consistent(r)
  {
    match op
    case SetTokens(a, r) => AuthState(Some(a), r, a != "")
    case Clear => InitialAuth
  }

  function ApplyAll(s: AuthState, ops: seq<AuthOp>): AuthState
    decreases |ops|
  {
    if ops == [] then s else Apply(ApplyAll(s, ops[..|ops| - 1]), ops[|ops| - 1])
  }

  /** `setTokens(a, r)` stores exactly `a` and `r`, and authenticates iff `a` is non-empty. */
  lemma SetTokensStores(s: AuthState, a: string, r: Option<string>)
    ensures var t := Apply(s, SetTokens(a, r));
      && t.accessToken == Some(a) && t.refreshToken == r
      && (t.isAuthenticated <==> a != "")
  {
  }

  /** Setting the same tokens twice is the same as setting them once. */
  lemma SetTokensIdempotent(s: AuthState, a: string, r: Option<string>)
    ensures Apply(Apply(s, SetTokens(a, r)), SetTokens(a, r)) == Apply(s, SetTokens(a, r))
  {
  }

  /** `clear` returns the initial state from any state. */
  lemma ClearResets(s: AuthState)
    ensures Apply(s, Clear) == InitialAuth
  {
  }

  /**
   * From the initial state, every sequence of actions keeps the flag in step
   * with the access token (each action rewrites all three fields together);
   * in particular an authenticated state always has an access token.
   */
  lemma ActionsKeepConsistent(ops: seq<AuthOp>)
    ensures Consistent(ApplyAll(InitialAuth, ops))
    ensures ApplyAll(InitialAuth, ops).isAuthenticated ==> ApplyAll(InitialAuth, ops).accessToken.Some?
  {
  }

  class AuthStore {
    var accessToken: Option<string>
    var refreshToken: Option<string>
    var isAuthenticated: bool

    function State(): AuthState
      reads this
    {
      AuthState(accessToken, refreshToken, isAuthenticated)
    }

    predicate Valid()
      reads this
    {
      Consistent(State())
    }

    constructor ()
      ensures State() == InitialAuth && Valid()
    {
      accessToken, refreshToken, isAuthenticated := None, None, false;
    }

    method SetTokens(a: string, r: Option<string>)
      modifies this
      ensures State() == Apply(old(State()), AuthOp.SetTokens(a, r))
      ensures accessToken == Some(a) && refreshToken == r
      ensures isAuthenticated <==> a != ""
      ensures Valid()
    {
      accessToken, refreshToken, isAuthenticated := Some(a), r, a != "";
    }

    method Clear()
      modifies this
      ensures State() == InitialAuth && Valid()
    {
      accessToken, refreshToken, isAuthenticated := None, None, false;
    }
  }
}
