/**
 * `ProtectedRoute`: the in-tree guard that renders exactly one of a loading
 * view, a caller-supplied fallback, an access-restricted view, a
 * permission-denied view, or the wrapped children.
 */
module ProtectedRoute {
  import opened Base
  import opened Strings
  import opened Users

  /** The props besides `children`: the optional allow-list and whether `fallback` is truthy. */
  datatype Props = Props(allowedRoles: Option<seq<string>>, hasFallback: bool)

  datatype View =
    | Loading
    | Fallback
    | AccessRestricted
    | InsufficientPermissions(required: string, yours: string, dashboard: string)
    | Children

  /**
   * `allowedRoles && !allowedRoles.includes(role)` is the denial test, so an
   * absent list permits every role and a present one, even empty, permits
   * only its members.
   */
  predicate Permits(allowedRoles: Option<seq<string>>, role: string) {
    allowedRoles.None? || role in allowedRoles.value
  }

  /** The text lines of the permission-denied view. */
  function RequiredLine(roles: seq<string>): string {
    "Required role: " + Join(roles, " or ")
  }

  function YourRoleLine(role: string): string {
    "Your role: " + role
  }

  /** One render of the guard, given the context's flags and the local `isChecking` state. */
  function Render(isLoading: bool, isChecking: bool, isAuthenticated: bool, user: Option<User>, props: Props): (v: View)
    ensures v == Loading <==> isLoading || isChecking
    ensures v == Children <==>
              !isLoading && !isChecking && isAuthenticated && user.Some? && Permits(props.allowedRoles, user.value.role)
    ensures v == AccessRestricted <==>
              !isLoading && !isChecking && (!isAuthenticated || user.None?) && !props.hasFallback
    ensures v.InsufficientPermissions? <==>
              && !isLoading && !isChecking && isAuthenticated && user.Some?
              && !Permits(props.allowedRoles, user.value.role) && !props.hasFallback
    ensures v == Fallback <==>
              && !isLoading && !isChecking && props.hasFallback
              && (!isAuthenticated || user.None? || !Permits(props.allowedRoles, user.value.role))
    ensures v.InsufficientPermissions? ==>
              && v.required == RequiredLine(props.allowedRoles.value)
              && v.yours == YourRoleLine(user.value.role)
              && v.dashboard == DashboardFor(user.value.role)
  {
    if isLoading || isChecking then Loading
    else if !isAuthenticated || user.None? then
      if props.hasFallback then Fallback else AccessRestricted
    else if props.allowedRoles.Some? && user.value.role !in props.allowedRoles.value then
      if props.hasFallback then Fallback
      else InsufficientPermissions(RequiredLine(props.allowedRoles.value), YourRoleLine(user.value.role),
                                   DashboardFor(user.value.role))
    else Children
  }

  /** The effect on `isLoading`: once loading has finished, `isChecking` is cleared for good. */
  function AfterEffect(isChecking: bool, isLoading: bool): (c: bool)
    ensures !isLoading ==> !c
    ensures isLoading ==> c == isChecking
  {
    if !isLoading then false else isChecking
  }

  /**
   * The first render of a freshly mounted guard shows the loading view even
   * when the context has already finished loading and holds a user; the
   * render after the effect has run is the real decision.
   */
  lemma FirstRenderIsLoading(isLoading: bool, isAuthenticated: bool, user: Option<User>, props: Props)
    ensures Render(isLoading, true, isAuthenticated, user, props) == Loading
    ensures !isLoading ==>
              Render(isLoading, AfterEffect(true, isLoading), isAuthenticated, user, props) != Loading
  {
  }

  /** An empty allow-list is still a list: it denies every signed-in user. */
  lemma EmptyAllowListDeniesEveryone(u: User)
    ensures Render(false, false, true, Some(u), Props(Some([]), false)) ==
              InsufficientPermissions("Required role: ", "Your role: " + u.role, DashboardFor(u.role))
  {
  }

  /** The denial view for an ADMIN on a STUDENT-only page. */
  lemma AdminOnStudentPage(u: User)
    requires u.role == AdminRole
    ensures Render(false, false, true, Some(u), Props(Some([StudentRole]), false)) ==
              InsufficientPermissions("Required role: STUDENT", "Your role: ADMIN", "/admin/dashboard")
  {
  }

  /** The "Go to Dashboard" button: ADMIN and INSTRUCTOR have their own, anything else is a student. */
  lemma DashboardButton(role: string)
    ensures DashboardFor(role) == "/admin/dashboard" <==> role == AdminRole
    ensures DashboardFor(role) == "/instructor/dashboard" <==> role == InstructorRole
    ensures DashboardFor(role) == "/student/dashboard" <==> role != AdminRole && role != InstructorRole
  {
  }

  /** The required roles are joined with ` or `: one role stands alone, and each further role adds ` or ` and its name. */
  lemma RequiredLines(roles: seq<string>, role: string)
    requires |roles| > 0
    ensures RequiredLine([role]) == "Required role: " + role
    ensures RequiredLine(roles + [role]) == RequiredLine(roles) + " or " + role
    ensures RequiredLine([InstructorRole, AdminRole]) == "Required role: INSTRUCTOR or ADMIN"
    ensures RequiredLine([StudentRole]) == "Required role: STUDENT"
  {
    JoinSnoc(roles, role, " or ");
    JoinSnoc([InstructorRole], AdminRole, " or ");
    assert [InstructorRole] + [AdminRole] == [InstructorRole, AdminRole];
  }
}
