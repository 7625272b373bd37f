/**
 * The login form: where it sends the user afterwards, how it checks the
 * login reply, and what it writes to the browser. It calls the backend
 * directly with `fetch`, not through the auth context.
 */
module LoginContent {
  import opened Base
  import opened Strings
  import opened Users
  import opened Browser
  import Api
  import AuthContext

  const HomePath: string := "/"
  const LoginFailed: string := "Login failed"
  const InvalidResponse: string := "Invalid response from server"
  const NavigationFailed: string := "Error navigating to dashboard. Please try again."

  /** The form's cookie lasts one day, in milliseconds. */
  const CookieLifetime: nat := 24 * 60 * 60 * 1000

  /** `searchParams.get("redirect") || "/"`. */
  function RedirectTo(query: Option<string>): (r: string)
    ensures r != ""
    ensures r == HomePath <==> !Truthy(query) || query.value == HomePath
    ensures Truthy(query) ==> r == query.value
  {
    OrElse(query, HomePath)
  }

  /** `redirectTo !== "/" && !redirectTo.startsWith("/login")`: the requested page is honoured. */
  predicate HonoursRedirect(redirectTo: string) {
    redirectTo != HomePath && !StartsWith(redirectTo, "/login")
  }

  /** The dashboard switch of the form: the three roles by name, anything else home. */
  function FormDashboard(role: string): (p: string)
    ensures IsRole(role) ==> p == DashboardFor(role)
    ensures !IsRole(role) ==> p == HomePath
  {
    if role == StudentRole then "/student/dashboard"
    else if role == InstructorRole then "/instructor/dashboard"
    else if role == AdminRole then "/admin/dashboard"
    else HomePath
  }

  /** No page a login can end on lies under `/login`. */
  lemma DashboardsAreNotLogin(role: string)
    ensures !StartsWith(FormDashboard(role), "/login")
    ensures !StartsWith(DashboardFor(role), "/login")
  {
    assert "/student/dashboard"[..6][1] != "/login"[1];
    assert "/instructor/dashboard"[..6][1] != "/login"[1];
    assert "/admin/dashboard"[..6][1] != "/login"[1];
  }

  /** Where a successful form login goes. */
  function PostLoginTarget(redirectTo: string, role: string): (t: string)
    ensures HonoursRedirect(redirectTo) ==> t == redirectTo
    ensures !HonoursRedirect(redirectTo) && IsRole(role) ==> t == DashboardFor(role)
    ensures !HonoursRedirect(redirectTo) && !IsRole(role) ==> t == HomePath
    ensures !StartsWith(t, "/login")
  {
    DashboardsAreNotLogin(role);
    if HonoursRedirect(redirectTo) then redirectTo else FormDashboard(role)
  }

  /**
   * How the `fetch` of the login endpoint settles: the network call fails,
   * the reply is not OK (with the server's `message`, if any), or it is OK
   * with the `data.jwt` and `data.role` fields, each possibly missing.
   */
  datatype LoginReply =
    | NetworkFailure(reason: string)
    | NotOk(message: Option<string>)
    | Ok(jwt: Option<string>, role: Option<string>)

  predicate WellFormed(reply: LoginReply) {
    reply.Ok? && Truthy(reply.jwt) && Truthy(reply.role)
  }

  /** The form after one submission: browser state, error line, navigation and spinner flag. */
  datatype Submit = Submit(client: Client, error: string, navigate: Option<string>, isLoading: bool)

  /** The browser writes of a well-formed reply. */
  function StoreLogin(c: Client, now: nat, jwt: string, role: string): Client {
    Client(c.storage[TokenKey := jwt][JwtTokenKey := jwt][UserRoleKey := role],
           Some(Cookie(jwt, WholeSeconds(now + CookieLifetime))))
  }

  /** `handleSubmit`; `navigationSucceeds` is whether `router.replace` resolves. */
  function HandleSubmit(c: Client, now: nat, redirectQuery: Option<string>, reply: LoginReply,
                        navigationSucceeds: bool): (r: Submit)
    ensures !r.isLoading
    ensures !WellFormed(reply) ==> r.client == c && r.navigate == None
    ensures reply.NetworkFailure? ==> r.error == reply.reason
    ensures reply.NotOk? ==> r.error == OrElse(reply.message, LoginFailed) && r.error != ""
    ensures reply.Ok? && !WellFormed(reply) ==> r.error == InvalidResponse
    ensures WellFormed(reply) ==>
              && GetItem(r.client.storage, JwtTokenKey) == reply.jwt
              && GetItem(r.client.storage, TokenKey) == reply.jwt
              && GetItem(r.client.storage, UserRoleKey) == reply.role
              && GetItem(r.client.storage, JwtExpiresAtKey) == GetItem(c.storage, JwtExpiresAtKey)
              && GetItem(r.client.storage, DemoRoleKey) == GetItem(c.storage, DemoRoleKey)
              && r.client.cookie.Some? && r.client.cookie.value.value == reply.jwt.value
    ensures WellFormed(reply) && navigationSucceeds ==>
              r.navigate == Some(PostLoginTarget(RedirectTo(redirectQuery), reply.role.value)) && r.error == ""
    ensures WellFormed(reply) && !navigationSucceeds ==> r.navigate == None && r.error == NavigationFailed
    ensures r.navigate.Some? ==> !StartsWith(r.navigate.value, "/login")
  {
    match reply
    case NetworkFailure(reason) => Submit(c, reason, None, false)
    case NotOk(message) => Submit(c, OrElse(message, LoginFailed), None, false)
    case Ok(jwt, role) =>
      if !Truthy(jwt) || !Truthy(role) then Submit(c, InvalidResponse, None, false)
      else
        var stored := StoreLogin(c, now, jwt.value, role.value);
        if navigationSucceeds then
          Submit(stored, "", Some(PostLoginTarget(RedirectTo(redirectQuery), role.value)), false)
        else
          Submit(stored, NavigationFailed, None, false)
  }

  /**
   * A form login writes no expiry. Starting from a browser without one, the
   * next page load never takes the expiry branch, whatever the time: a
   * non-demo token always goes to the profile endpoint.
   */
  lemma FormSessionNeverExpires(c: Client, now: nat, q: Option<string>, jwt: string, role: string,
                                t: nat, u: User)
    requires JwtExpiresAtKey !in c.storage
    requires jwt != "" && role != "" && !StartsWith(jwt, AuthContext.DemoPrefix)
    ensures var r := HandleSubmit(c, now, q, Ok(Some(jwt), Some(role)), true);
            var p := AuthContext.CheckAuth(AuthContext.Session(r.client, AuthContext.Initial), t, Api.Resolved(u));
            p.session.auth.user == Some(u) && p.session.client == r.client
  {
  }

  /**
   * A form login does not clear an expiry left by an earlier demo session
   * (nothing but `logout` and the expiry branch remove it), so once that
   * instant has passed the next page load discards the new, real token too.
   */
  lemma StaleDemoExpiryCutsFormSession(s: AuthContext.Session, role: string, demoAt: nat,
                                       now: nat, q: Option<string>, jwt: string, t: nat, profile: Api.Outcome<User>)
    requires IsRole(role)
    requires jwt != "" && !StartsWith(jwt, AuthContext.DemoPrefix)
    requires t > demoAt + AuthContext.SessionLength
    ensures var demo := AuthContext.DemoLogin(s, role, demoAt).session;
            var form := HandleSubmit(demo.client, now, q, Ok(Some(jwt), Some(StudentRole)), true);
            var p := AuthContext.CheckAuth(AuthContext.Session(form.client, AuthContext.Initial), t, profile);
            && GetItem(form.client.storage, JwtTokenKey) == Some(jwt)
            && p.session.auth.user == None
            && GetItem(p.session.client.storage, JwtTokenKey) == None
  {
    NumberRoundTrip(demoAt + AuthContext.SessionLength);
  }

  /**
   * A demo button: the context's `demoLogin` for that role, then the same
   * redirect rule as the form with the button's own dashboard as fallback.
   */
  function DemoButton(s: AuthContext.Session, now: nat, redirectQuery: Option<string>, role: string): (r: AuthContext.Step)
    requires IsRole(role)
    ensures r.session == AuthContext.DemoLogin(s, role, now).session
    ensures HonoursRedirect(RedirectTo(redirectQuery)) ==> r.navigate == Some(RedirectTo(redirectQuery))
    ensures !HonoursRedirect(RedirectTo(redirectQuery)) ==> r.navigate == Some(DashboardFor(role))
    ensures r.navigate.Some? && !StartsWith(r.navigate.value, "/login")
  {
    var step := AuthContext.DemoLogin(s, role, now);
    var redirectTo := RedirectTo(redirectQuery);
    DashboardsAreNotLogin(role);
    step.(navigate := Some(if HonoursRedirect(redirectTo) then redirectTo else DashboardFor(role)))
  }

  /** For a known role the buttons and the form agree on where to go. */
  lemma ButtonsMatchForm(redirectTo: string, role: string)
    requires IsRole(role)
    ensures PostLoginTarget(redirectTo, role) ==
              (if HonoursRedirect(redirectTo) then redirectTo else DashboardFor(role))
  {
  }
}
