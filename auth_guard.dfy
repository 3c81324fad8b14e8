/** The route guard: while the sign-in state is unsettled it shows a waiting
    screen; afterwards it sends a signed-out visitor to the login page and a
    signed-in one away from it, and otherwise shows the protected page. */
module AuthGuard {
  import opened Common
  import opened Auth

  const LoginPath := "/login"
  const HomePath := "/"

  /** The effect's navigations, in the order it issues them. */
  function GuardEffect(status: AuthStatus, authenticated: bool, pathname: string): (pushes: seq<string>)
    ensures status == Loading ==> pushes == []
    ensures status != Loading && !authenticated && pathname != LoginPath ==> pushes == [LoginPath]
    ensures status != Loading && authenticated && pathname == LoginPath ==> pushes == [HomePath]
    ensures (authenticated <==> pathname != LoginPath) ==> pushes == []
  {
    if status == Loading then []
    else
      (if !authenticated && pathname != LoginPath then [LoginPath] else []) +
      (if authenticated && pathname == LoginPath then [HomePath] else [])
  }

  /** What the guard renders. */
  datatype Screen =
    | CheckingAuthentication
    | RedirectingToLogin
    | RedirectingToDashboard
    | Protected

  function GuardRender(status: AuthStatus, authenticated: bool, pathname: string): (s: Screen)
    ensures s == CheckingAuthentication <==> status == Loading
    ensures s == RedirectingToLogin <==> status != Loading && !authenticated && pathname != LoginPath
    ensures s == RedirectingToDashboard <==> status != Loading && authenticated && pathname == LoginPath
    ensures s == Protected <==> status != Loading && (authenticated <==> pathname != LoginPath)
  {
    if status == Loading then CheckingAuthentication
    else if !authenticated && pathname != LoginPath then RedirectingToLogin
    else if authenticated && pathname == LoginPath then RedirectingToDashboard
    else Protected
  }

  /** The effect navigates at most once, and it navigates exactly when the
      render shows a redirect screen, to the page that screen names. */
  lemma EffectAgreesWithRender(status: AuthStatus, authenticated: bool, pathname: string)
    ensures |GuardEffect(status, authenticated, pathname)| <= 1
    ensures GuardEffect(status, authenticated, pathname) == [LoginPath] <==>
            GuardRender(status, authenticated, pathname) == RedirectingToLogin
    ensures GuardEffect(status, authenticated, pathname) == [HomePath] <==>
            GuardRender(status, authenticated, pathname) == RedirectingToDashboard
    ensures GuardEffect(status, authenticated, pathname) == [] <==>
            GuardRender(status, authenticated, pathname) in {CheckingAuthentication, Protected}
  {
  }

  /** With both inputs taken from the store: the protected page is shown to a
      signed-in user (verified or not) off the login page and to a signed-out
      visitor only on the login page, and never before the store settles. */
  lemma GuardOnStore(user: Option<User>, loading: bool, initialized: bool, pathname: string)
    ensures GuardRender(AuthStatusOf(user, loading, initialized), IsAuthenticated(user), pathname) == Protected <==>
            initialized && !loading && (user.Some? <==> pathname != LoginPath)
    ensures initialized && !loading && user.Some? && !user.value.emailVerified && pathname != LoginPath ==>
            GuardRender(AuthStatusOf(user, loading, initialized), IsAuthenticated(user), pathname) == Protected
  {
  }
}
