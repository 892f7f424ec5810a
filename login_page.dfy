/**
 * The login page: the effect that copies the NextAuth session's tokens into
 * the auth store, the effect that navigates to the dashboard, and the
 * `error`/`loading` bookkeeping of the submit handler.
 */
module LoginPage {
  import opened Wrappers
  import opened Auth
  import opened AuthOptions

  /** The session carries a truthy access token. */
  predicate HasToken(session: Option<SessionData>) {
    session.Some? && Truthy(session.value.accessToken)
  }

  /**
   * The auth state after the sync effect sees `session`: `setTokens(at, rt ?? null)`
   * when it carries a truthy access token, no write otherwise.
   */
  function Synced(s: AuthState, session: Option<SessionData>): AuthState {
    if HasToken(session) then
      Apply(s, AuthOp.SetTokens(session.value.accessToken.value, session.value.refreshToken))
    else s
  }

  /**
   * The bridge never logs out: a session without a token leaves the store as
   * it was, and a session with one authenticates it with that token.
   */
  lemma SyncOutcome(s: AuthState, session: Option<SessionData>)
    ensures !HasToken(session) ==> Synced(s, session) == s
    ensures HasToken(session) ==>
      && Synced(s, session).isAuthenticated
      && Synced(s, session).accessToken == session.value.accessToken
      && Synced(s, session).refreshToken == session.value.refreshToken
    ensures s.isAuthenticated ==> Synced(s, session).isAuthenticated
    ensures Consistent(s) ==> Consistent(Synced(s, session))
  {
  }

  /** The auth state after each of a sequence of session observations. */
  function States(s: AuthState, sessions: seq<Option<SessionData>>): (r: seq<AuthState>)
    ensures |r| == |sessions|
    decreases |sessions|
  {
    if sessions == [] then [] else
      var next := Synced(s, sessions[0]);
      [next] + States(next, sessions[1..])
  }

  /**
   * How often the redirect effect calls `router.push("/dashboard")` along a
   * run: the effect runs again whenever `isAuthenticated` changes, and it
   * pushes when the flag is then true.
   */
  function Navigations(wasAuthenticated: bool, states: seq<AuthState>): (n: nat)
    ensures n <= |states|
    decreases |states|
  {
    if states == [] then 0 else
      (if states[0].isAuthenticated && !wasAuthenticated then 1 else 0)
      + Navigations(states[0].isAuthenticated, states[1..])
  }

  lemma {:induction false} StaysAuthenticated(s: AuthState, sessions: seq<Option<SessionData>>)
    requires s.isAuthenticated
    ensures forall i :: 0 <= i < |sessions| ==> States(s, sessions)[i].isAuthenticated
    decreases |sessions|
  {
    if sessions != [] {
      var next := Synced(s, sessions[0]);
      SyncOutcome(s, sessions[0]);
      StaysAuthenticated(next, sessions[1..]);
      assert States(s, sessions) == [next] + States(next, sessions[1..]);
    }
  }

  /**
   * The login transition fires at most once: along any run of observations
   * the redirect happens once if the run ends authenticated having started
   * unauthenticated, and never otherwise.
   */
  lemma {:induction false} NavigatesAtMostOnce(s: AuthState, sessions: seq<Option<SessionData>>)
    ensures var states := States(s, sessions);
      Navigations(s.isAuthenticated, states)
        == if !s.isAuthenticated && |states| > 0 && states[|states| - 1].isAuthenticated then 1 else 0
    decreases |sessions|
  {
    if sessions != [] {
      var next := Synced(s, sessions[0]);
      var rest := States(next, sessions[1..]);
      assert States(s, sessions) == [next] + rest;
      NavigatesAtMostOnce(next, sessions[1..]);
      SyncOutcome(s, sessions[0]);
      if next.isAuthenticated && rest != [] {
        StaysAuthenticated(next, sessions[1..]);
      }
    }
  }

  /**
   * The observation sequence null, null, {accessToken: "t"}, {accessToken: "t"}:
   * unauthenticated after the first two, authenticated with "t" after the
   * last two, and exactly one navigation, on the third.
   */
  lemma SessionSequenceExample()
    ensures var t := Some(SessionData(Some("t"), None));
      var states := States(InitialAuth, [None, None, t, t]);
      && !states[0].isAuthenticated && !states[1].isAuthenticated
      && states[2].isAuthenticated && states[2].accessToken == Some("t")
      && states[3] == states[2]
      && Navigations(false, states[..2]) == 0
      && Navigations(false, states[..3]) == 1
      && Navigations(false, states) == 1
  {
    var t := Some(SessionData(Some("t"), None));
    var a := AuthState(Some("t"), None, true);
    assert States(a, []) == [];
    assert States(a, [t]) == [a];
    assert States(a, [t, t]) == [a, a];
    assert States(InitialAuth, [None, t, t]) == [InitialAuth, a, a];
    assert States(InitialAuth, [None, None, t, t]) == [InitialAuth, InitialAuth, a, a];
    assert Navigations(true, [a]) == 0;
    assert Navigations(true, [a, a]) == 0;
    assert Navigations(false, [a]) == 1;
    assert Navigations(false, [InitialAuth, a]) == 1;
    assert [InitialAuth, InitialAuth][1..] == [InitialAuth];
    assert Navigations(false, [InitialAuth]) == 0;
    assert Navigations(false, [InitialAuth, InitialAuth]) == 0;
    assert Navigations(false, [InitialAuth, a, a]) == 1;
    var states := States(InitialAuth, [None, None, t, t]);
    assert states[..2] == [InitialAuth, InitialAuth];
    assert states[..3] == [InitialAuth, InitialAuth, a];
    assert [InitialAuth, InitialAuth, a][1..] == [InitialAuth, a];
  }

  /** The sync effect (`useEffect` on `session`). */
  method SyncSession(store: AuthStore, session: Option<SessionData>)
    modifies store
    ensures store.State() == Synced(old(store.State()), session)
    ensures old(store.Valid()) ==> store.Valid()
  {
    if HasToken(session) {
      store.SetTokens(session.value.accessToken.value, session.value.refreshToken);
    }
  }

  /** The redirect effect: it asks for `/dashboard` exactly when the store is authenticated. */
  method RedirectEffect(store: AuthStore) returns (navigate: bool)
    ensures navigate <==> store.isAuthenticated
  {
    navigate := store.isAuthenticated;
  }

  /**
   * A successful sign-in end to end: the user `authorize` built goes through
   * the `jwt` and `session` callbacks, the sync effect sees the session, and
   * the redirect effect then navigates.
   */
  method SignInReachesDashboard(user: AuthUser, token: JwtToken, session: SessionObject, store: AuthStore)
    returns (navigate: bool)
    requires user.accessToken != ""
    modifies token, session, store
    ensures store.accessToken == Some(user.accessToken) && store.refreshToken == user.refreshToken
    ensures store.isAuthenticated && navigate
  {
    var t := JwtCallback(token, Some(user));
    var s := SessionCallback(session, t);
    SyncSession(store, Some(s.Data()));
    navigate := RedirectEffect(store);
  }

  /** What `signIn(..., { redirect: false })` resolves to. */
  datatype SignInResponse = SignInResponse(error: Option<string>)

  /**
   * How the awaited `signIn` promise ends: resolved with a response (or
   * nothing), or rejected, as on a network failure.
   */
  datatype SignInOutcome = Resolved(res: Option<SignInResponse>) | Rejected

  /** The error text the form shows after a submit whose sign-in resolved to `res`. */
  function SubmitError(res: Option<SignInResponse>): (e: string)
    ensures e != "" <==> res.Some? && Truthy(res.value.error)
    ensures e != "" ==> Some(e) == res.value.error
  {
    if res.Some? && Truthy(res.value.error) then res.value.error.value else ""
  }

  /** The form's `error` and `loading` state. */
  class LoginForm {
    var error: string
    var loading: bool

    constructor ()
      ensures error == "" && !loading
    {
      error, loading := "", false;
    }

    /** Before the sign-in call: clear the error and show progress. */
    method BeginSubmit()
      modifies this
      ensures error == "" && loading
    {
      error := "";
      loading := true;
    }

    /** After the sign-in call: show its error, if any, and end progress. */
    method FinishSubmit(res: Option<SignInResponse>)
      modifies this
      ensures error == if res.Some? && Truthy(res.value.error) then res.value.error.value else old(error)
      ensures !loading
    {
      if res.Some? && Truthy(res.value.error) {
        error := res.value.error.value;
      }
      loading := false;
    }

    /**
     * `handleSubmit`: both steps around one sign-in. There is no
     * try/finally, so a rejected sign-in skips the second step and leaves
     * the form cleared and in progress.
     */
    method HandleSubmit(outcome: SignInOutcome)
      modifies this
      ensures outcome.Resolved? ==> error == SubmitError(outcome.res) && !loading
      ensures outcome.Rejected? ==> error == "" && loading
    {
      BeginSubmit();
      if outcome.Resolved? {
        FinishSubmit(outcome.res);
      }
    }
  }
}
