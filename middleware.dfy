/** The route guard of src/middleware.ts: given the request path and whether the request has
    a session, pass it through or redirect it. */
module Middleware {

  datatype Response = Next | Redirect(location: string)

  const ApiAuthPrefix: string := "/api/auth"
  const LoginPath: string := "/login"
  const DashboardPath: string := "/dashboard"

  /** `pathname.startsWith(prefix)`. */
  predicate StartsWith(pathname: string, prefix: string) {
    prefix <= pathname
  }

  /** Where a path that starts with `prefix` agrees with it. */
  lemma PrefixAgrees(pathname: string, prefix: string, i: nat)
    requires StartsWith(pathname, prefix) && i < |prefix|
    ensures pathname[i] == prefix[i]
  {
    assert pathname[..|prefix|][i] == pathname[i];
  }

  /** A dashboard path is not one of NextAuth's own routes: they differ in the second character. */
  lemma DashboardIsNotApiAuth(pathname: string)
    requires StartsWith(pathname, DashboardPath)
    ensures !StartsWith(pathname, ApiAuthPrefix)
  {
    PrefixAgrees(pathname, DashboardPath, 1);
    if StartsWith(pathname, ApiAuthPrefix) {
      PrefixAgrees(pathname, ApiAuthPrefix, 1);
    }
  }

  /** The guard's decision, tests in the source's order. The source also computes whether the
      path is public (`/` or `/login`) but never uses it. */
  function Guard(pathname: string, isLoggedIn: bool): (r: Response)
    ensures r.Redirect? ==> r.location == if isLoggedIn then DashboardPath else LoginPath
    ensures r.Redirect? ==> !StartsWith(pathname, ApiAuthPrefix)
  {
    if StartsWith(pathname, ApiAuthPrefix) then Next
    else if isLoggedIn && pathname == LoginPath then Redirect(DashboardPath)
    else if !isLoggedIn && StartsWith(pathname, DashboardPath) then Redirect(LoginPath)
    else Next
  }

  /** NextAuth's own routes pass through whatever the login state. */
  lemma ApiAuthPassesThrough(pathname: string, isLoggedIn: bool)
    requires StartsWith(pathname, "/api/auth")
    ensures Guard(pathname, isLoggedIn) == Next
  {
  }

  /** A signed-in visitor of the login page is sent to the dashboard. */
  lemma LoggedInLoginRedirects()
    ensures Guard("/login", true) == Redirect("/dashboard")
  {
  }

  /** A visitor without a session is sent from any dashboard path to the login page. */
  lemma LoggedOutDashboardRedirects(pathname: string)
    requires StartsWith(pathname, "/dashboard")
    ensures Guard(pathname, false) == Redirect("/login")
  {
    DashboardIsNotApiAuth(pathname);
  }

  /** Exactly those two cases redirect; everything else, `/` included, passes through. */
  lemma RedirectsExactly(pathname: string, isLoggedIn: bool)
    ensures Guard(pathname, isLoggedIn).Redirect? <==>
      (isLoggedIn && pathname == "/login") || (!isLoggedIn && StartsWith(pathname, "/dashboard"))
    ensures Guard("/", isLoggedIn) == Next
  {
    if isLoggedIn && pathname == "/login" {
      assert !StartsWith(pathname, ApiAuthPrefix);
    } else if !isLoggedIn && StartsWith(pathname, "/dashboard") {
      DashboardIsNotApiAuth(pathname);
    }
  }

  /** No redirect loop: for a fixed login state, the redirect target is passed through. */
  lemma NoRedirectLoop(pathname: string, isLoggedIn: bool)
    requires Guard(pathname, isLoggedIn).Redirect?
    ensures Guard(Guard(pathname, isLoggedIn).location, isLoggedIn) == Next
  {
    if isLoggedIn {
      DashboardIsNotApiAuth(DashboardPath);
      assert DashboardPath[1] != LoginPath[1];
    } else {
      assert !StartsWith(LoginPath, ApiAuthPrefix) && !StartsWith(LoginPath, DashboardPath);
    }
  }
}
