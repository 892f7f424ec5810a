/**
 * The NextAuth configuration: the credentials `authorize` step and the
 * `jwt` and `session` callbacks that carry the API tokens into the session.
 */
module AuthOptions {
  import opened Wrappers
  import opened Decimal

  datatype Credentials = Credentials(username: Option<string>, password: Option<string>)

  /** The body of a `/auth/login` response, as far as `authorize` reads it. */
  datatype LoginData = LoginData(
    id: int,
    firstName: string,
    lastName: string,
    email: string,
    image: string,
    accessToken: Option<string>,
    refreshToken: Option<string>)

  /** The user record `authorize` hands to NextAuth. */
  datatype AuthUser = AuthUser(
    id: string,
    name: string,
    email: string,
    image: string,
    accessToken: string,
    refreshToken: Option<string>)

  /** The tokens a client-side session carries. */
  datatype SessionData = SessionData(accessToken: Option<string>, refreshToken: Option<string>)

  /**
   * The username and password `authorize` posts to `/auth/login`, or None
   * when it returns null before calling the API.
   */
  function LoginRequest(credentials: Option<Credentials>): (r: Option<(string, string)>)
    ensures r.Some? <==> credentials.Some? && Truthy(credentials.value.username) && Truthy(credentials.value.password)
    ensures r.Some? ==> r.value == (credentials.value.username.value, credentials.value.password.value)
  {
    if credentials.Some? && Truthy(credentials.value.username) && Truthy(credentials.value.password) then
      Some((credentials.value.username.value, credentials.value.password.value))
    else None
  }

  /** The record built from a login response that carries an access token. */
  function UserRecord(data: LoginData): (u: AuthUser)
    requires Truthy(data.accessToken)
    ensures ParseInt(u.id) == data.id
    ensures u.name == data.firstName + " " + data.lastName
    ensures u.email == data.email && u.image == data.image
    ensures Some(u.accessToken) == data.accessToken && u.refreshToken == data.refreshToken
  {
    ParseIntToString(data.id);
    AuthUser(IntToString(data.id), data.firstName + " " + data.lastName, data.email, data.image,
             data.accessToken.value, data.refreshToken)
  }

  /**
   * `authorize`: null for missing credentials (without calling `login`),
   * null for a response without an access token, the user record otherwise.
   * `login` stands for the `/auth/login` call; None is a response with no body.
   */
  function Authorize(credentials: Option<Credentials>, login: (string, string) -> Option<LoginData>): (r: Option<AuthUser>)
    ensures LoginRequest(credentials).None? ==> r == None
    ensures LoginRequest(credentials).Some? ==>
      var data := login(LoginRequest(credentials).value.0, LoginRequest(credentials).value.1);
      && (r.Some? <==> data.Some? && Truthy(data.value.accessToken))
      && (r.Some? ==> r.value == UserRecord(data.value))
    ensures r.Some? ==> r.value.accessToken != ""
  {
    match LoginRequest(credentials)
    case None => None
    case Some((username, password)) =>
      var data := login(username, password);
      if data.Some? && Truthy(data.value.accessToken) then Some(UserRecord(data.value)) else None
  }

  /** With missing credentials the login call's answer is irrelevant: it is never made. */
  lemma AuthorizeSkipsLogin(credentials: Option<Credentials>, login1: (string, string) -> Option<LoginData>, login2: (string, string) -> Option<LoginData>)
    requires LoginRequest(credentials).None?
    ensures Authorize(credentials, login1) == Authorize(credentials, login2) == None
  {
  }

  /** The JWT NextAuth keeps: its standard claims and the two API tokens. */
  class JwtToken {
    var claims: map<string, string>
    var accessToken: Option<string>
    var refreshToken: Option<string>

    constructor (claims: map<string, string>)
      ensures this.claims == claims && accessToken == None && refreshToken == None
    {
      this.claims, accessToken, refreshToken := claims, None, None;
    }
  }

  /** The server-side session object NextAuth passes to the `session` callback. */
  class SessionObject {
    var user: map<string, string>
    var expires: string
    var accessToken: Option<string>
    var refreshToken: Option<string>

    constructor (user: map<string, string>, expires: string)
      ensures this.user == user && this.expires == expires && accessToken == None && refreshToken == None
    {
      this.user, this.expires, accessToken, refreshToken := user, expires, None, None;
    }

    /** What the client reads of this session. */
    function Data(): SessionData
      reads this
    {
      SessionData(accessToken, refreshToken)
    }
  }

  /**
   * The `jwt` callback: on sign-in (a user is present) it copies the user's
   * tokens onto the token; on every later call the token is returned as it
   * was, so the tokens persist across refreshes.
   */
  method JwtCallback(token: JwtToken, user: Option<AuthUser>) returns (r: JwtToken)
    modifies token
    ensures r == token
    ensures user.Some? ==> token.accessToken == Some(user.value.accessToken) && token.refreshToken == user.value.refreshToken
    ensures user.None? ==> token.accessToken == old(token.accessToken) && token.refreshToken == old(token.refreshToken)
    ensures token.claims == old(token.claims)
  {
    if user.Some? {
      token.accessToken := Some(user.value.accessToken);
      token.refreshToken := user.value.refreshToken;
    }
    r := token;
  }

  /** The `session` callback: the session gets the token's two tokens and keeps everything else. */
  method SessionCallback(session: SessionObject, token: JwtToken) returns (r: SessionObject)
    modifies session
    ensures r == session
    ensures session.Data() == SessionData(token.accessToken, token.refreshToken)
    ensures session.user == old(session.user) && session.expires == old(session.expires)
  {
    session.accessToken := token.accessToken;
    session.refreshToken := token.refreshToken;
    r := session;
  }
}
