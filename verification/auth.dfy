/**
 * The edge-side authentication callbacks: which paths an unauthenticated
 * visitor may reach, and how the user id is copied from the signed-in user
 * into the token and from the token into the client session.
 */
module Auth {
  import opened Wrappers
  import opened JsString

  datatype User = User(id: string, name: Option<string>, email: Option<string>)

  /** The `auth` value handed to `authorized`; itself absent when nobody has a session. */
  datatype AuthState = AuthState(user: Option<User>)

  /** `!!auth?.user`. */
  predicate IsLoggedIn(auth: Option<AuthState>) {
    auth.Some? && auth.value.user.Some?
  }

  /** The sign-in and sign-up pages, matched as plain string prefixes. */
  predicate IsPublicPath(pathname: string) {
    StartsWith(pathname, "/login") || StartsWith(pathname, "/signup")
  }

  /** The `authorized` callback: public pages for everyone, all others only when logged in. */
  function Authorized(auth: Option<AuthState>, pathname: string): (allowed: bool)
    ensures IsPublicPath(pathname) ==> allowed
    ensures !IsPublicPath(pathname) ==> (allowed <==> IsLoggedIn(auth))
  {
    if IsPublicPath(pathname) then true else IsLoggedIn(auth)
  }

  /** Any path that merely begins with "/login" or "/signup" is public, e.g. "/login-help" or "/signupx". */
  lemma PublicPrefixesAuthorized(auth: Option<AuthState>, rest: string)
    ensures Authorized(auth, "/login" + rest)
    ensures Authorized(auth, "/signup" + rest)
  {
    StartsWithExtension("/login", rest);
    StartsWithExtension("/signup", rest);
  }

  /** Logging in never takes access away, and a logged-in visitor may go anywhere. */
  lemma LoggingInOnlyWidensAccess(auth: Option<AuthState>, signedIn: Option<AuthState>, pathname: string)
    requires IsLoggedIn(signedIn)
    ensures Authorized(auth, pathname) ==> Authorized(signedIn, pathname)
    ensures Authorized(signedIn, pathname)
  {
  }

  /** The JWT: an optional `id` claim beside the others. */
  datatype Token = Token(id: Option<string>, claims: map<string, string>)

  /** The `jwt` callback: on sign-in copy the user's id into the token, else pass it through. */
  function Jwt(token: Token, user: Option<User>): (r: Token)
    ensures user.Some? ==> r.id == Some(user.value.id)
    ensures r.claims == token.claims
    ensures user.None? ==> r == token
  {
    if user.Some? then token.(id := Some(user.value.id)) else token
  }

  datatype SessionUser = SessionUser(id: Option<string>, name: Option<string>, email: Option<string>)

  datatype Session = Session(user: Option<SessionUser>, expires: string)

  /** The `session` callback: copy the token's id onto the session user, when there is one. */
  function SessionFor(session: Session, token: Token): (r: Session)
    ensures r.expires == session.expires
    ensures r.user.Some? <==> session.user.Some?
    ensures session.user.Some? ==> r.user.value == session.user.value.(id := token.id)
  {
    if session.user.Some? then session.(user := Some(session.user.value.(id := token.id))) else session
  }

  /**
   * Signing in with user `u` and then building the client session yields a
   * session whose user id is `u.id`, whatever the token held before.
   */
  lemma SignInIdReachesSession(token: Token, u: User, session: Session)
    requires session.user.Some?
    ensures SessionFor(session, Jwt(token, Some(u))).user.value.id == Some(u.id)
    ensures SessionFor(session, Jwt(token, Some(u))).user.value.name == session.user.value.name
  {
  }

  /** A later refresh without a user keeps the id recorded at sign-in. */
  lemma RefreshKeepsId(token: Token, u: User, session: Session)
    requires session.user.Some?
    ensures SessionFor(session, Jwt(Jwt(token, Some(u)), None)).user.value.id == Some(u.id)
  {
  }
}
