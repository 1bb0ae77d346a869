/**
 * The two route guards: a protected route shows its page only to a signed-in
 * user, and a public route (login, sign-up) only to a signed-out one. Both
 * decide on the authentication state `(loading, currentUser)`, which is an input.
 */
module RouteGuards {
  import opened Text

  /** What a guard renders: its own loading skeleton, a redirect, or the guarded page. */
  datatype Render = DashboardSkeleton | PublicSkeleton | Redirect(to: string, replace: bool) | Children

  const LoginPath := "/login"
  const DefaultPublicRedirect := "/dashboard"

  /** `ProtectedRoute`. `user` is the signed-in user's id, if any. */
  function ProtectedRoute(loading: bool, user: Option<string>): (r: Render)
    ensures loading <==> r == DashboardSkeleton
    ensures !loading && user.None? <==> r == Redirect(LoginPath, true)
    ensures r == Children <==> !loading && user.Some?
  {
    if loading then DashboardSkeleton
    else if user.None? then Redirect(LoginPath, true)
    else Children
  }

  /** `PublicRoute`; an absent `redirectTo` prop means `/dashboard`. */
  function PublicRoute(loading: bool, user: Option<string>, redirectTo: Option<string>): (r: Render)
    ensures loading <==> r == PublicSkeleton
    ensures !loading && user.Some? ==>
              r == Redirect(if redirectTo.Some? then redirectTo.value else DefaultPublicRedirect, true)
    ensures r == Children <==> !loading && user.None?
  {
    if loading then PublicSkeleton
    else if user.Some? then Redirect(if redirectTo.Some? then redirectTo.value else DefaultPublicRedirect, true)
    else Children
  }

  /** Once loading is over, exactly one of the two guards shows its page. */
  lemma GuardsPartitionSignedInState(user: Option<string>, redirectTo: Option<string>)
    ensures (ProtectedRoute(false, user) == Children) != (PublicRoute(false, user, redirectTo) == Children)
  {
  }

  /** While loading, neither guard shows its page nor redirects: each shows its skeleton. */
  lemma LoadingShowsNeither(user: Option<string>, redirectTo: Option<string>)
    ensures ProtectedRoute(true, user) == DashboardSkeleton && PublicRoute(true, user, redirectTo) == PublicSkeleton
  {
  }

  /** A signed-out visitor sent to login by a protected route is let through by the login page's public guard. */
  lemma SignedOutRedirectIsShown(redirectTo: Option<string>)
    ensures ProtectedRoute(false, None).to == LoginPath
    ensures PublicRoute(false, None, redirectTo) == Children
  {
  }
}
