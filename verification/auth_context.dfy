/**
 * The auth context: the current user, the `isLoading` flag, the one-shot
 * rehydration run on mount (`checkAuth`), and the transitions `login`,
 * `logout`, `register`, `updateProfile` and `demoLogin`. The clock is the
 * `now` parameter and every backend call is an oracle reply that passes
 * through the shared response interceptor.
 */
module AuthContext {
  import opened Base
  import opened Strings
  import opened Users
  import opened Browser
  import opened Api

  datatype Auth = Auth(user: Option<User>, isLoading: bool)

  /** The provider's state before the first rehydration pass. */
  const Initial: Auth := Auth(None, true)

  /** `isAuthenticated = !!user`. */
  predicate IsAuthenticated(a: Auth) {
    a.user.Some?
  }

  datatype Session = Session(client: Client, auth: Auth)

  /**
   * One transition: the resulting session, the page it navigates to (the
   * router's or the window's), and the error its promise rejects with.
   */
  datatype Step = Step(session: Session, navigate: Option<string>, error: Option<ApiError>)

  const DemoPrefix: string := "demo-"
  const DemoUserId: string := "demo-user-id"
  const Placeholder: string := "/placeholder.svg"
  const HomePath: string := "/"
  const LoginPath: string := "/login"

  /** A demo session lasts one hour, in milliseconds. */
  const SessionLength: nat := 60 * 60 * 1000

  /** `role.charAt(0) + role.slice(1).toLowerCase()`: the first character kept as it is. */
  function Capitalised(role: string): string {
    if role == "" then "" else [role[0]] + Lower(role[1..])
  }

  /** The user synthesised for a demo role, without any backend call. */
  function DemoUser(role: string): User {
    User(DemoUserId, "Demo " + Capitalised(role), "demo+" + Lower(role) + "@edu.test",
         role, Some(Placeholder), None)
  }

  /** The demo user a demo role produces: name `Demo ` plus the capitalised role, email `demo+<role>@edu.test`. */
  lemma DemoUserFields(role: string, lowerRest: string)
    requires role != "" && Lower(role[1..]) == lowerRest
    ensures DemoUser(role).id == "demo-user-id" && DemoUser(role).role == role
    ensures DemoUser(role).name == "Demo " + [role[0]] + lowerRest
    ensures DemoUser(role).email == "demo+" + [LowerChar(role[0])] + lowerRest + "@edu.test"
  {
    assert Lower(role) == [LowerChar(role[0])] + Lower(role[1..]);
  }

  /** The demo user of `role`, once its name and e-mail have been spelled out. */
  lemma DemoUserSpelled(role: string, lowerRest: string, name: string, email: string)
    requires role != "" && Lower(role[1..]) == lowerRest
    requires name == "Demo " + [role[0]] + lowerRest
    requires email == "demo+" + [LowerChar(role[0])] + lowerRest + "@edu.test"
    ensures DemoUser(role).name == name && DemoUser(role).email == email
  {
    DemoUserFields(role, lowerRest);
  }

  /** The lower-cased tails of the three role names. */
  lemma RoleTails()
    ensures Lower(StudentRole[1..]) == "tudent"
    ensures Lower(InstructorRole[1..]) == "nstructor"
    ensures Lower(AdminRole[1..]) == "dmin"
  {
    LowerLiteral("TUDENT", "tudent");
    LowerLiteral("NSTRUCTOR", "nstructor");
    LowerLiteral("DMIN", "dmin");
  }

  /** The three demo users the login page offers. */
  lemma DemoStudentUser()
    ensures DemoUser(StudentRole).name == "Demo Student"
    ensures DemoUser(StudentRole).email == "demo+student@edu.test"
  {
    RoleTails();
    assert StudentRole[0] == 'S' && LowerChar('S') == 's';
    DemoUserSpelled(StudentRole, "tudent", "Demo Student", "demo+student@edu.test");
  }

  lemma DemoInstructorUser()
    ensures DemoUser(InstructorRole).name == "Demo Instructor"
    ensures DemoUser(InstructorRole).email == "demo+instructor@edu.test"
  {
    RoleTails();
    assert InstructorRole[0] == 'I' && LowerChar('I') == 'i';
    DemoUserSpelled(InstructorRole, "nstructor", "Demo Instructor", "demo+instructor@edu.test");
  }

  lemma DemoAdminUser()
    ensures DemoUser(AdminRole).name == "Demo Admin"
    ensures DemoUser(AdminRole).email == "demo+admin@edu.test"
  {
    RoleTails();
    assert AdminRole[0] == 'A' && LowerChar('A') == 'a';
    DemoUserSpelled(AdminRole, "dmin", "Demo Admin", "demo+admin@edu.test");
  }

  /** `expiresAtStr && now > Number(expiresAtStr)`. */
  predicate IsExpired(expiresAt: Option<string>, now: nat) {
    Truthy(expiresAt) &&
    match ParseNumber(expiresAt.value)
    case Some(v) => now > v
    case None => false
  }

  /**
   * The stored expiry is exclusive of the instant it names: a session
   * expires only once `now` is strictly later. A missing, empty or
   * non-numeric expiry never expires; one of nothing but white space is
   * truthy and reads as 0, so it has expired at every instant after 0.
   */
  lemma ExpiryRule(e: nat, now: nat, junk: string, blank: string)
    requires ParseNumber(junk).None?
    requires blank != "" && AllSpace(blank)
    ensures IsExpired(Some(NatToString(e)), now) <==> now > e
    ensures !IsExpired(Some(junk), now)
    ensures !IsExpired(None, now) && !IsExpired(Some(""), now)
    ensures IsExpired(Some(blank), now) <==> now > 0
  {
    NumberRoundTrip(e);
  }

  /** The demo-role fallback used once a demo token is found. */
  function StoredDemoRole(st: Storage): string {
    OrElse(GetItem(st, DemoRoleKey), StudentRole)
  }

  /** Rehydration (`checkAuth`), run once when the provider mounts. */
  function CheckAuth(s: Session, now: nat, profile: Outcome<User>): (r: Step)
    ensures !r.session.auth.isLoading
    ensures r.error == None
    ensures r.session.client.cookie == s.client.cookie
    ensures forall k :: k in r.session.client.storage ==>
              k in s.client.storage && r.session.client.storage[k] == s.client.storage[k]
    ensures forall k :: k in s.client.storage && k !in SessionKeys ==> k in r.session.client.storage
    ensures r.session.auth.user != s.auth.user ==> r.session.auth.user.Some?
  {
    var st := s.client.storage;
    var token := GetItem(st, JwtTokenKey);
    if !Truthy(token) then
      var demoRole := GetItem(st, DemoRoleKey);
      if Truthy(demoRole) then
        Step(Session(s.client, Auth(Some(DemoUser(demoRole.value)), false)), None, None)
      else
        Step(Session(s.client, Auth(s.auth.user, false)), None, None)
    else if IsExpired(GetItem(st, JwtExpiresAtKey), now) then
      Step(Session(Client(st - SessionKeys, s.client.cookie), Auth(s.auth.user, false)), None, None)
    else if StartsWith(token.value, DemoPrefix) then
      Step(Session(s.client, Auth(Some(DemoUser(StoredDemoRole(st))), false)), None, None)
    else
      var call := Intercept(s.client, profile);
      match call.outcome
      case Resolved(u) =>
        Step(Session(call.client, Auth(Some(u), false)), call.navigate, None)
      case Rejected(_) =>
        var cleared := call.client.storage - {JwtTokenKey, DemoRoleKey};
        Step(Session(Client(cleared, call.client.cookie), Auth(s.auth.user, false)), call.navigate, None)
  }

  /**
   * Without a token, rehydration restores the demo user when a demo role is
   * stored and leaves the user alone otherwise; it writes nothing, and its
   * outcome does not depend on the stored expiry, the clock or the backend.
   */
  lemma RehydrateWithoutToken(s: Session, now: nat, profile: Outcome<User>,
                              s': Session, now': nat, profile': Outcome<User>)
    requires !Truthy(GetItem(s.client.storage, JwtTokenKey))
    requires s'.auth == s.auth && s'.client.cookie == s.client.cookie
    requires s'.client.storage - {JwtExpiresAtKey} == s.client.storage - {JwtExpiresAtKey}
    ensures var r := CheckAuth(s, now, profile);
            && r.session.client == s.client
            && r.navigate == None
            && r.session.auth.user ==
                 (if Truthy(GetItem(s.client.storage, DemoRoleKey))
                  then Some(DemoUser(s.client.storage[DemoRoleKey])) else s.auth.user)
    ensures CheckAuth(s', now', profile').session.auth == CheckAuth(s, now, profile).session.auth
  {
    var st, st' := s.client.storage, s'.client.storage;
    assert GetItem(st', JwtTokenKey) == GetItem(st, JwtTokenKey) by {
      assert JwtTokenKey in st' <==> JwtTokenKey in st' - {JwtExpiresAtKey};
      assert JwtTokenKey in st <==> JwtTokenKey in st - {JwtExpiresAtKey};
    }
    assert GetItem(st', DemoRoleKey) == GetItem(st, DemoRoleKey) by {
      assert DemoRoleKey in st' <==> DemoRoleKey in st' - {JwtExpiresAtKey};
      assert DemoRoleKey in st <==> DemoRoleKey in st - {JwtExpiresAtKey};
    }
  }

  /**
   * A token whose stored expiry lies strictly before `now` is discarded
   * together with the expiry and the demo role; the user is not restored
   * and the backend is not asked.
   */
  lemma RehydrateExpired(s: Session, now: nat, profile: Outcome<User>)
    requires Truthy(GetItem(s.client.storage, JwtTokenKey))
    requires IsExpired(GetItem(s.client.storage, JwtExpiresAtKey), now)
    ensures var r := CheckAuth(s, now, profile);
            && r.session.client.storage == s.client.storage - SessionKeys
            && GetItem(r.session.client.storage, JwtTokenKey).None?
            && r.session.auth.user == s.auth.user
            && r.navigate == None
  {
  }

  /**
   * A live `demo-` token restores the demo user for the stored demo role
   * (STUDENT when none is stored) without a backend call: the reply oracle
   * does not influence the outcome, and storage is left as it was.
   */
  lemma RehydrateDemoToken(s: Session, now: nat, p1: Outcome<User>, p2: Outcome<User>)
    requires Truthy(GetItem(s.client.storage, JwtTokenKey))
    requires StartsWith(s.client.storage[JwtTokenKey], DemoPrefix)
    requires !IsExpired(GetItem(s.client.storage, JwtExpiresAtKey), now)
    ensures CheckAuth(s, now, p1) == CheckAuth(s, now, p2)
    ensures CheckAuth(s, now, p1).session.client == s.client
    ensures CheckAuth(s, now, p1).session.auth.user == Some(DemoUser(StoredDemoRole(s.client.storage)))
    ensures !Truthy(GetItem(s.client.storage, DemoRoleKey)) ==>
              CheckAuth(s, now, p1).session.auth.user.value.role == StudentRole
  {
  }

  /**
   * A live non-demo token is checked against the profile endpoint. When the
   * call fails, the token and demo role are removed but the stored expiry
   * stays, the user is not set, and a 401 additionally sends the window to
   * `/login` through the shared interceptor.
   */
  lemma RehydrateProfileFailure(s: Session, now: nat, err: ApiError)
    requires Truthy(GetItem(s.client.storage, JwtTokenKey))
    requires !StartsWith(s.client.storage[JwtTokenKey], DemoPrefix)
    requires !IsExpired(GetItem(s.client.storage, JwtExpiresAtKey), now)
    ensures var r := CheckAuth(s, now, Rejected(err));
            && r.session.client.storage == s.client.storage - {JwtTokenKey, DemoRoleKey}
            && GetItem(r.session.client.storage, JwtExpiresAtKey) == GetItem(s.client.storage, JwtExpiresAtKey)
            && r.session.auth.user == s.auth.user
            && !r.session.auth.isLoading
            && r.error == None
            && (r.navigate == Some(LoginPath) <==> err.status == Some(Unauthorized))
            && (r.navigate.Some? ==> r.navigate == Some(LoginPath))
  {
    var st := s.client.storage;
    if err.status == Some(Unauthorized) {
      assert st - {JwtTokenKey} - {JwtTokenKey, DemoRoleKey} == st - {JwtTokenKey, DemoRoleKey};
    }
  }

  /** A successful profile fetch installs the fetched user and leaves storage untouched. */
  lemma RehydrateProfileSuccess(s: Session, now: nat, u: User)
    requires Truthy(GetItem(s.client.storage, JwtTokenKey))
    requires !StartsWith(s.client.storage[JwtTokenKey], DemoPrefix)
    requires !IsExpired(GetItem(s.client.storage, JwtExpiresAtKey), now)
    ensures var r := CheckAuth(s, now, Resolved(u));
            r.session.client == s.client && r.session.auth == Auth(Some(u), false) && r.navigate == None
  {
  }

  /** `demoLogin(role)`: a synthetic session, a cookie, the demo user and the role's dashboard. */
  function DemoLogin(s: Session, role: string, now: nat): (r: Step)
    requires IsRole(role)
    ensures var st := r.session.client.storage;
            && GetItem(st, JwtTokenKey) == Some(DemoPrefix + role + "-" + NatToString(now))
            && GetItem(st, JwtExpiresAtKey) == Some(NatToString(now + SessionLength))
            && GetItem(st, DemoRoleKey) == Some(role)
            && StartsWith(st[JwtTokenKey], DemoPrefix)
            && (forall k :: k !in SessionKeys ==> GetItem(st, k) == GetItem(s.client.storage, k))
    ensures r.session.client.cookie.Some?
    ensures r.session.client.cookie.value.value == r.session.client.storage[JwtTokenKey]
    ensures now + SessionLength - 1000 < r.session.client.cookie.value.expires <= now + SessionLength
    ensures r.session.auth == Auth(Some(DemoUser(role)), s.auth.isLoading)
    ensures r.navigate == Some(DashboardFor(role)) && r.error == None
  {
    var token := DemoPrefix + role + "-" + NatToString(now);
    var expiresAt := now + SessionLength;
    var st := s.client.storage[JwtTokenKey := token][JwtExpiresAtKey := NatToString(expiresAt)][DemoRoleKey := role];
    assert StartsWith(token, DemoPrefix) by {
      assert token[..|DemoPrefix|] == DemoPrefix;
    }
    Step(Session(Client(st, Some(Cookie(token, WholeSeconds(expiresAt)))),
                 Auth(Some(DemoUser(role)), s.auth.isLoading)),
         Some(DashboardFor(role)), None)
  }

  /**
   * Round trip: after `demoLogin(role)` at `now`, a fresh page load at any
   * time up to the stored expiry rehydrates the identical user, without a
   * backend call and without touching storage.
   */
  lemma DemoLoginRehydrates(s: Session, role: string, now: nat, t: nat, profile: Outcome<User>)
    requires IsRole(role)
    requires t <= now + SessionLength
    ensures var d := DemoLogin(s, role, now).session;
            var r := CheckAuth(Session(d.client, Initial), t, profile);
            && r.session.auth == Auth(d.auth.user, false)
            && r.session.auth.user == Some(DemoUser(role))
            && r.session.client == d.client
  {
    NumberRoundTrip(now + SessionLength);
  }

  /** After the hour is over, the same page load discards the demo session and stays anonymous. */
  lemma DemoLoginExpires(s: Session, role: string, now: nat, t: nat, profile: Outcome<User>)
    requires IsRole(role)
    requires t > now + SessionLength
    ensures var d := DemoLogin(s, role, now).session;
            var r := CheckAuth(Session(d.client, Initial), t, profile);
            && r.session.auth == Auth(None, false)
            && r.session.client.storage == d.client.storage - SessionKeys
  {
    NumberRoundTrip(now + SessionLength);
  }

  /** `logout()`. */
  function Logout(s: Session): (r: Step)
    ensures r.session.client.storage.Keys == s.client.storage.Keys - SessionKeys
    ensures forall k :: k in r.session.client.storage ==> r.session.client.storage[k] == s.client.storage[k]
    ensures r.session.client.cookie == None
    ensures r.session.auth == Auth(None, s.auth.isLoading) && !IsAuthenticated(r.session.auth)
    ensures r.navigate == Some(HomePath) && r.error == None
  {
    Step(Session(Client(s.client.storage - SessionKeys, None), Auth(None, s.auth.isLoading)),
         Some(HomePath), None)
  }

  /** Logging out twice leaves the same browser state and user as logging out once. */
  lemma LogoutIdempotent(s: Session)
    ensures Logout(Logout(s).session) == Logout(s)
  {
    var once := Logout(s).session.client.storage;
    assert once - SessionKeys == once;
  }

  /** Logout does not remove the `token` and `userRole` keys the login form writes. */
  lemma LogoutKeepsFormKeys(s: Session)
    ensures GetItem(Logout(s).session.client.storage, TokenKey) == GetItem(s.client.storage, TokenKey)
    ensures GetItem(Logout(s).session.client.storage, UserRoleKey) == GetItem(s.client.storage, UserRoleKey)
  {
  }

  /**
   * The context's `login`: the session-writing code is commented out, so a
   * successful call changes nothing; a failure is rethrown, and on a 401 the
   * shared interceptor alone drops the stored token.
   */
  function Login(s: Session, reply: Outcome<()>): (r: Step)
    ensures r.session.auth == s.auth
    ensures reply.Resolved? ==> r.session == s && r.navigate == None && r.error == None
    ensures reply.Rejected? ==> r.error == Some(reply.error)
    ensures r.session.client == Intercept(s.client, reply).client
  {
    var call := Intercept(s.client, reply);
    match call.outcome
    case Resolved(_) => Step(Session(call.client, s.auth), call.navigate, None)
    case Rejected(e) => Step(Session(call.client, s.auth), call.navigate, Some(e))
  }

  /** The payload of `register`. */
  datatype RegisterData = RegisterData(name: string, email: string, password: string, role: string, bio: Option<string>)

  datatype Endpoint = RegisterStudent | RegisterInstructor

  /** `data.role === "STUDENT" ? registerStudent : registerInstructor`. */
  function RegisterEndpoint(role: string): (e: Endpoint)
    ensures e == RegisterStudent <==> role == StudentRole
  {
    if role == StudentRole then RegisterStudent else RegisterInstructor
  }

  /**
   * `register(data)`: posts to the endpoint for the role and never signs the
   * user in; navigates to `/login` on success and rethrows on failure.
   */
  function Register(s: Session, data: RegisterData, reply: Outcome<()>): (r: (Endpoint, Step))
    ensures r.0 == RegisterStudent <==> data.role == StudentRole
    ensures r.1.session.auth == s.auth
    ensures reply.Resolved? ==> r.1 == Step(s, Some(LoginPath), None)
    ensures reply.Rejected? ==> r.1.error == Some(reply.error)
    ensures reply.Rejected? && !IsUnauthorized(reply) ==> r.1.navigate == None && r.1.session == s
    ensures IsUnauthorized(reply) ==>
              && r.1.navigate == Some(LoginPath)
              && r.1.session == Session(Client(s.client.storage - {JwtTokenKey}, s.client.cookie), s.auth)
  {
    var call := Intercept(s.client, reply);
    var step :=
      match call.outcome
      case Resolved(_) => Step(Session(call.client, s.auth), Some(LoginPath), None)
      case Rejected(e) => Step(Session(call.client, s.auth), call.navigate, Some(e));
    (RegisterEndpoint(data.role), step)
  }

  /** `updateProfile(patch)`: the user is replaced only by what the backend returns. */
  function UpdateProfile(s: Session, reply: Outcome<User>): (r: Step)
    ensures reply.Resolved? ==> r.session.auth.user == Some(reply.value) && r.session.client == s.client
    ensures reply.Rejected? ==> r.session.auth == s.auth && r.error == Some(reply.error)
    ensures r.session.auth.isLoading == s.auth.isLoading
    ensures reply.Resolved? ==> r.navigate == None && r.error == None
    ensures IsUnauthorized(reply) ==>
              && r.navigate == Some(LoginPath)
              && r.session.client == Client(s.client.storage - {JwtTokenKey}, s.client.cookie)
    ensures reply.Rejected? && !IsUnauthorized(reply) ==> r.navigate == None && r.session == s
  {
    var call := Intercept(s.client, reply);
    match call.outcome
    case Resolved(u) => Step(Session(call.client, Auth(Some(u), s.auth.isLoading)), call.navigate, None)
    case Rejected(e) => Step(Session(call.client, s.auth), call.navigate, Some(e))
  }
}
