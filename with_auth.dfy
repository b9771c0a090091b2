/**
  The route guard wrapped around protected screens: from the store's `loading`, `user` and
  `isAuthenticated` it decides what is shown and whether to navigate to the login screen.
 */
module WithAuth {
  import opened Wrappers
  import opened AuthSlice

  datatype View = Spinner | Wrapped

  /** What the guard shows, and whether its effect replaces the route with `/login`. */
  datatype GuardDecision = GuardDecision(view: View, redirectToLogin: bool)

  /**
    The spinner while loading, the wrapped screen otherwise (even when a redirect is due);
    a redirect exactly when not loading, with neither a user nor the authenticated flag.
   */
  function ProtectedRoute(loading: bool, user: Option<User>, isAuthenticated: bool): (d: GuardDecision)
    ensures d.view == Spinner <==> loading
    ensures d.redirectToLogin <==> !loading && user.None? && !isAuthenticated
    ensures d.redirectToLogin ==> d.view == Wrapped
  {
    GuardDecision(if loading then Spinner else Wrapped, !loading && user.None? && !isAuthenticated)
  }

  /** The guard over the three values it selects from the auth store. */
  function Guard(s: AuthState): (d: GuardDecision)
    ensures d.view == Spinner <==> s.loading
    ensures d.redirectToLogin <==> !s.loading && s.user.None? && !s.isAuthenticated
  {
    ProtectedRoute(s.loading, s.user, s.isAuthenticated)
  }

  /** Only a state with neither user nor flag redirects; either one alone keeps the user on the screen. */
  lemma HalfAuthenticatedDoesNotRedirect(loading: bool, u: User)
    ensures !ProtectedRoute(loading, None, true).redirectToLogin
    ensures !ProtectedRoute(loading, Some(u), false).redirectToLogin
  {
  }

  /** In a consistent, settled store the guard redirects exactly when no session is held. */
  lemma RedirectIffNoSession(s: AuthState)
    requires Consistent(s) && !s.loading
    ensures Guard(s).redirectToLogin <==> s.session.None?
    ensures Guard(s).view == Wrapped
  {
  }

  /** While any of the three auth actions is pending the guard shows the spinner and does not redirect. */
  lemma SpinnerWhilePending(s: AuthState, a: AuthAction)
    requires IsPending(a)
    ensures Guard(Reduce(s, a)) == GuardDecision(Spinner, false)
  {
  }

  /** A settled sign-out sends the user to the login screen. */
  lemma SignOutRedirects(s: AuthState)
    requires !s.loading
    ensures Guard(Reduce(s, SignOutFulfilled)).redirectToLogin
  {
  }

  /** A session check that finds no session redirects; one that finds a session does not. */
  lemma CheckSessionDecidesRedirect(s: AuthState, p: Option<Session>)
    ensures Guard(Reduce(s, CheckSessionFulfilled(p))).redirectToLogin <==> p.None?
    ensures Guard(Reduce(s, CheckSessionRejected)).redirectToLogin
  {
  }

  /** After a sign-in fulfilled without a session the guard neither redirects nor has a user to show. */
  lemma SignInWithoutSessionStays(s: AuthState)
    ensures var r := Reduce(s, SignInFulfilled(None));
      !Guard(r).redirectToLogin && Guard(r).view == Wrapped && r.user.None?
  {
  }
}
