/** The route guard (src/components/ProtectedRoute.tsx). */
module ProtectedRoute {
  import opened Options
  import AuthUser

  datatype RouteView = Spinner | RedirectTo(path: string) | ChildOutlet

  const DefaultRedirectPath := "/login"

  /** While authentication is loading show a spinner; then children only for a signed-in user. */
  function Guard(loading: bool, user: Option<AuthUser.AuthUser>, redirectPath: string): (v: RouteView)
    ensures v == Spinner <==> loading
    ensures v == ChildOutlet <==> !loading && user.Some?
    ensures v.RedirectTo? <==> !loading && user.None?
    ensures v.RedirectTo? ==> v.path == redirectPath
  {
    if loading then Spinner
    else if user.None? then RedirectTo(redirectPath)
    else ChildOutlet
  }

  /** Without an explicit path, a signed-out visitor goes to the login page. */
  lemma SignedOutGoesToLogin()
    ensures Guard(false, None, DefaultRedirectPath) == RedirectTo("/login")
  {
  }

  /** The guard lets through exactly those for whom the current user lookup found an account. */
  lemma {:induction false} GuardAdmitsAccounts(account: Option<AuthUser.AccountRecord>, redirectPath: string)
    ensures Guard(false, AuthUser.CurrentUser(account), redirectPath) == ChildOutlet <==> account.Some?
  {
    var u := AuthUser.CurrentUser(account);
    assert u.None? <==> account.None?;
  }
}
