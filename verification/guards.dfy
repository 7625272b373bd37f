/**
 * How the gates fit together: the session the auth context writes, the
 * cookie the middleware reads on the next request, and the in-tree guards
 * that then decide what renders.
 */
module Guards {
  import opened Base
  import opened Users
  import opened Browser
  import opened Middleware
  import Api
  import AuthContext
  import ProtectedRoute
  import Layouts

  /** The request the browser sends for `path` at time `t`, with the cookie still in the jar. */
  function PageRequest(c: Client, path: string, t: nat): Request {
    Request(path, CookieAt(c.cookie, t), None)
  }

  /**
   * While the demo cookie lives, the middleware lets every path through,
   * whatever the role; once it has gone, protected paths bounce to `/login`.
   */
  lemma DemoCookieOpensTheMiddleware(s: AuthContext.Session, role: string, now: nat, t: nat, path: string)
    requires IsRole(role)
    ensures var c := AuthContext.DemoLogin(s, role, now).session.client;
            t <= now + AuthContext.SessionLength - 1000 ==> Middleware.Middleware(PageRequest(c, path, t)) == Next
    ensures var c := AuthContext.DemoLogin(s, role, now).session.client;
            t > now + AuthContext.SessionLength && !IsPublic(path) ==>
              Middleware.Middleware(PageRequest(c, path, t)) == Redirect(LoginPath)
  {
    var c := AuthContext.DemoLogin(s, role, now).session.client;
    assert c.cookie.value.value != "" by {
      assert c.cookie.value.value[..|AuthContext.DemoPrefix|] == AuthContext.DemoPrefix;
    }
  }

  /**
   * The cookie keeps whole seconds, the stored expiry keeps milliseconds:
   * when the demo login happened off a whole second, there is a final
   * stretch of under a second in which the middleware already bounces a
   * protected page while a page load would still restore the demo user.
   */
  lemma CookieGoesBeforeTheStoredExpiry(s: AuthContext.Session, role: string, now: nat, t: nat,
                                        path: string, profile: Api.Outcome<User>)
    requires IsRole(role)
    requires (now + AuthContext.SessionLength) % 1000 != 0
    requires t == now + AuthContext.SessionLength
    requires !IsPublic(path)
    ensures var d := AuthContext.DemoLogin(s, role, now).session;
            && Middleware.Middleware(PageRequest(d.client, path, t)) == Redirect(LoginPath)
            && AuthContext.CheckAuth(AuthContext.Session(d.client, AuthContext.Initial), t, profile)
                 .session.auth.user == Some(AuthContext.DemoUser(role))
  {
    AuthContext.DemoLoginRehydrates(s, role, now, t, profile);
  }

  /**
   * After `logout`, neither the cookie nor the request interceptor carries a
   * token, so every protected path bounces to `/login`.
   */
  lemma LogoutClosesTheMiddleware(s: AuthContext.Session, path: string, t: nat, headers: Api.Headers)
    requires !IsPublic(path)
    requires Api.AuthorizationHeader !in headers
    ensures var c := AuthContext.Logout(s).session.client;
            && Api.AuthorizationHeader !in Api.AttachAuthorization(c.storage, headers)
            && Middleware.Middleware(PageRequest(c, path, t)) == Redirect(LoginPath)
  {
  }

  /**
   * The backend rejects the demo token with a 401 on the first data call.
   * The interceptor drops the stored token but not the cookie or the demo
   * role, so the middleware still lets the user in and the next page load
   * rebuilds the same demo user from the stored role.
   */
  lemma DemoSurvivesUnauthorized(s: AuthContext.Session, role: string, now: nat, t: nat, path: string,
                                 err: Api.ApiError, profile: Api.Outcome<User>)
    requires IsRole(role)
    requires err.status == Some(Api.Unauthorized)
    requires t <= now + AuthContext.SessionLength - 1000
    ensures var d := AuthContext.DemoLogin(s, role, now).session;
            var after := Api.Intercept<()>(d.client, Api.Rejected(err));
            && after.navigate == Some(LoginPath)
            && GetItem(after.client.storage, JwtTokenKey) == None
            && Middleware.Middleware(PageRequest(after.client, path, t)) == Next
            && AuthContext.CheckAuth(AuthContext.Session(after.client, AuthContext.Initial), t, profile)
                 .session.auth.user == Some(AuthContext.DemoUser(role))
  {
    DemoCookieOpensTheMiddleware(s, role, now, t, path);
  }

  /**
   * A demo ADMIN, once loading is over, sees an ADMIN-only page's content
   * and the permission-denied view on a STUDENT-only page.
   */
  lemma DemoAdminAcrossGuards(s: AuthContext.Session, now: nat)
    requires !s.auth.isLoading
    ensures var a := AuthContext.DemoLogin(s, AdminRole, now).session.auth;
            && ProtectedRoute.Render(a.isLoading, false, AuthContext.IsAuthenticated(a), a.user,
                                     ProtectedRoute.Props(Some([AdminRole]), false)) == ProtectedRoute.Children
            && ProtectedRoute.Render(a.isLoading, false, AuthContext.IsAuthenticated(a), a.user,
                                     ProtectedRoute.Props(Some([StudentRole]), false)).InsufficientPermissions?
  {
  }

  /**
   * A demo ADMIN under `/instructor`: the middleware lets the request in and
   * the page's own guard would admit an ADMIN, but the instructor layout
   * renders nothing and pushes `/login`.
   */
  lemma DemoAdminBouncedFromInstructorArea(s: AuthContext.Session, now: nat, t: nat)
    requires !s.auth.isLoading
    requires t <= now + AuthContext.SessionLength - 1000
    ensures var d := AuthContext.DemoLogin(s, AdminRole, now).session;
            && Middleware.Middleware(PageRequest(d.client, "/instructor/dashboard", t)) == Next
            && Layouts.InstructorPage(false, false, d.auth.user) == Layouts.LayoutOnly(Layouts.Blank)
            && Layouts.InstructorLayout(false, d.auth.user).redirect == Some(LoginPath)
  {
    DemoCookieOpensTheMiddleware(s, AdminRole, now, t, "/instructor/dashboard");
    Layouts.InstructorPagesAreInstructorOnly(false, false, AuthContext.DemoLogin(s, AdminRole, now).session.auth.user);
  }
}
