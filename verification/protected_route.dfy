/**
 * The route guard around the dashboard: a decision on whether the session is
 * still initialising and whether there is a user.
 */
module ProtectedRoute {
  import opened Wrappers
  import opened PizzaTypes
  import AuthContext

  const SignInRoute: string := "/auth/signin"

  datatype View = LoadingView | NoView | ChildrenView

  /** What the guard renders and where, if anywhere, its effect redirects. */
  datatype Decision = Decision(view: View, redirect: Option<string>)

  /**
   * While initialising: the loading view and no redirect. Afterwards without a
   * user: nothing, and a redirect to the sign-in page. With a user: the
   * protected children and no redirect.
   */
  function Guard(isInitializing: bool, user: Option<User>): (d: Decision)
    ensures isInitializing ==> d == Decision(LoadingView, None)
    ensures !isInitializing && user.None? ==> d == Decision(NoView, Some(SignInRoute))
    ensures d.view == ChildrenView <==> !isInitializing && user.Some?
    ensures d.redirect.Some? <==> !isInitializing && user.None?
  {
    var redirect := if !isInitializing && user.None? then Some(SignInRoute) else None;
    if isInitializing then Decision(LoadingView, redirect)
    else if user.None? then Decision(NoView, redirect)
    else Decision(ChildrenView, redirect)
  }

  /** No state both renders the children and redirects. */
  lemma NeverRendersAndRedirects(isInitializing: bool, user: Option<User>)
    ensures var d := Guard(isInitializing, user);
            !(d.view == ChildrenView && d.redirect.Some?)
  {
  }

  /** Signing out of an initialised session sends the guard to the sign-in page. */
  method LogoutLeadsToSignIn(p: AuthContext.AuthProvider) returns (d: Decision)
    requires p.Valid() && !p.isInitializing
    modifies p
    ensures d == Decision(NoView, Some(SignInRoute))
  {
    p.Logout();
    d := Guard(p.isInitializing, p.user);
  }
}
