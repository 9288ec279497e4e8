/** The authentication gate in front of every page: which paths are public,
    when the provider redirects, and when it shows a spinner instead of the
    page. The router and the authentication service are not modelled; the
    signed-in user is an input. */
module AuthProvider {
  import opened Wrappers

  /** A signed-in account. */
  datatype User = User(uid: string, email: Option<string>)

  /** The provider's state. */
  datatype AuthState = AuthState(user: Option<User>, loading: bool, firebaseReady: bool)

  /** The paths listed as public; the root path is public as well. */
  const PublicPaths: seq<string> := ["/login", "/about", "/legal", "/learn-more", "/care-circle"]

  const LoginPath: string := "/login"
  const RootPath: string := "/"

  /** `isPublic`: listed, or the root. */
  predicate IsPublic(pathname: string) {
    pathname in PublicPaths || pathname == RootPath
  }

  /** The public paths, written out: exact matches only, so a nested path
      such as a counsellor's chat room is not public. */
  lemma PublicPathsExactly(pathname: string)
    ensures IsPublic(pathname) <==>
      pathname in {"/", "/login", "/about", "/legal", "/learn-more", "/care-circle"}
    ensures !IsPublic("/care-circle/zoya") && !IsPublic("/profile")
  {
  }

  /** The state before the authentication service has answered. */
  const InitialState: AuthState := AuthState(None, true, false)

  /** The start-up effect, run once from the initial state: with an
      authentication instance the provider becomes ready and waits for the
      first answer; without one it stops loading, not ready and with no user. */
  function Start(authConfigured: bool): (r: AuthState)
    ensures r.user.None?
    ensures authConfigured ==> r.firebaseReady && r.loading
    ensures !authConfigured ==> !r.loading && !r.firebaseReady
  {
    var s := InitialState;
    if authConfigured then s.(firebaseReady := true) else s.(loading := false, firebaseReady := false)
  }

  /** The authentication listener, registered only when the service exists:
      it records the user and ends loading. */
  function OnAuthStateChanged(s: AuthState, user: Option<User>): (r: AuthState)
    requires s.firebaseReady
    ensures r.user == user && !r.loading && r.firebaseReady
  {
    s.(user := user, loading := false)
  }

  /** The states the provider can be in: a user is only ever present when
      the authentication service is. */
  predicate Reachable(s: AuthState) {
    !s.firebaseReady ==> s.user.None?
  }

  lemma ReachableInvariant(s: AuthState, authConfigured: bool, user: Option<User>)
    ensures Reachable(InitialState)
    ensures Reachable(Start(authConfigured))
    ensures s.firebaseReady ==> Reachable(OnAuthStateChanged(s, user))
  {
  }

  /** The redirect effect: nothing while loading; to the login page when the
      service is missing or nobody is signed in on a non-public path; to the
      root when a signed-in user is on the login page; otherwise nothing. */
  function Redirect(s: AuthState, pathname: string): (r: Option<string>)
    ensures s.loading ==> r.None?
    ensures r.Some? ==> r.value == LoginPath || r.value == RootPath
    ensures r == Some(LoginPath) <==> !s.loading && !IsPublic(pathname) && (!s.firebaseReady || s.user.None?)
    ensures r == Some(RootPath) <==> !s.loading && s.user.Some? && pathname == LoginPath
  {
    if s.loading then None
    else
      var isPublic := IsPublic(pathname);
      if !s.firebaseReady && !isPublic then Some(LoginPath)
      else if s.user.None? && !isPublic then Some(LoginPath)
      else if s.user.Some? && pathname == LoginPath then Some(RootPath)
      else None
  }

  /** Every redirect lands on a public path. */
  lemma RedirectTargetsArePublic(s: AuthState, pathname: string)
    ensures Redirect(s, pathname).Some? ==> IsPublic(Redirect(s, pathname).value)
  {
  }

  /** Redirects settle: in any reachable state, the page a redirect leads to
      does not redirect again. */
  lemma RedirectSettles(s: AuthState, pathname: string)
    requires Reachable(s)
    requires Redirect(s, pathname).Some?
    ensures Redirect(s, Redirect(s, pathname).value).None?
  {
  }

  /** What the provider renders. */
  datatype RenderMode = Spinner | Children

  /** The render gate: a spinner while loading, and also when nobody is
      signed in on a non-public path; the page otherwise. */
  function Render(s: AuthState, pathname: string): (m: RenderMode)
    ensures m == Children <==> !s.loading && (s.user.Some? || IsPublic(pathname))
  {
    if s.loading then Spinner
    else if s.user.None? && !IsPublic(pathname) then Spinner
    else Children
  }

  /** A page that is not public is only ever rendered for a signed-in user,
      and whenever the gate shows a spinner after loading it is also
      sending the visitor to the login page. */
  lemma GateAgreesWithRedirect(s: AuthState, pathname: string)
    ensures Render(s, pathname) == Children && !IsPublic(pathname) ==> s.user.Some?
    ensures !s.loading && Render(s, pathname) == Spinner ==> Redirect(s, pathname) == Some(LoginPath)
  {
  }
}
