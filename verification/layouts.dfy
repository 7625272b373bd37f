/**
 * The instructor and student portal layouts. Both render a spinner while
 * the auth context loads, then show their sidebar shell only to the one
 * role they serve, and otherwise render nothing and push `/login`.
 */
module Layouts {
  import opened Base
  import opened Users
  import ProtectedRoute

  datatype LayoutView = Spinner | Blank | Shell

  /** One render: what is shown and the navigation the effect issues. */
  datatype Layout = Layout(view: LayoutView, redirect: Option<string>)

  const LoginPath: string := "/login"

  /** The body both layout files share, parameterised by the role they serve. */
  function RoleLayout(required: string, isLoading: bool, user: Option<User>): Layout {
    var admitted := user.Some? && user.value.role == required;
    Layout(if isLoading then Spinner else if admitted then Shell else Blank,
           if !isLoading && !admitted then Some(LoginPath) else None)
  }

  /** `InstructorLayout`. */
  function InstructorLayout(isLoading: bool, user: Option<User>): (l: Layout)
    ensures isLoading ==> l == Layout(Spinner, None)
    ensures l.view == Shell <==> !isLoading && user.Some? && user.value.role == InstructorRole
    ensures l.redirect.Some? <==> !isLoading && (user.None? || user.value.role != InstructorRole)
    ensures l.redirect.Some? ==> l.redirect == Some(LoginPath) && l.view == Blank
  {
    RoleLayout(InstructorRole, isLoading, user)
  }

  /** `StudentLayout`. */
  function StudentLayout(isLoading: bool, user: Option<User>): (l: Layout)
    ensures isLoading ==> l == Layout(Spinner, None)
    ensures l.view == Shell <==> !isLoading && user.Some? && user.value.role == StudentRole
    ensures l.redirect.Some? <==> !isLoading && (user.None? || user.value.role != StudentRole)
    ensures l.redirect.Some? ==> l.redirect == Some(LoginPath) && l.view == Blank
  {
    RoleLayout(StudentRole, isLoading, user)
  }

  /** INSTRUCTOR and ADMIN users under `/student` get an empty page and are pushed to `/login`. */
  lemma StaffUnderStudent(u: User)
    requires u.role == InstructorRole || u.role == AdminRole
    ensures StudentLayout(false, Some(u)) == Layout(Blank, Some("/login"))
  {
  }

  /** What an instructor page shows: the layout alone, or the page's guard inside the layout's shell. */
  datatype PageView = LayoutOnly(view: LayoutView) | Inside(guard: ProtectedRoute.View)

  /** The allow-list every instructor page passes to its guard. */
  const InstructorPageProps: ProtectedRoute.Props :=
    ProtectedRoute.Props(Some([InstructorRole, AdminRole]), false)

  /**
   * An instructor page: the guard only mounts inside the layout's shell, and
   * it sees the context's `isAuthenticated = !!user`.
   */
  function InstructorPage(isLoading: bool, isChecking: bool, user: Option<User>): PageView {
    var l := InstructorLayout(isLoading, user);
    if l.view == Shell then Inside(ProtectedRoute.Render(isLoading, isChecking, user.Some?, user, InstructorPageProps))
    else LayoutOnly(l.view)
  }

  /**
   * The layout overrides the guard's ADMIN allowance: page content shows iff
   * loading is over and the user is exactly an INSTRUCTOR; an ADMIN, whom the
   * guard alone would admit, gets an empty page and a push to `/login`.
   */
  lemma InstructorPagesAreInstructorOnly(isLoading: bool, isChecking: bool, user: Option<User>)
    ensures InstructorPage(isLoading, isChecking, user) == Inside(ProtectedRoute.Children) <==>
              !isLoading && !isChecking && user.Some? && user.value.role == InstructorRole
    ensures user.Some? && user.value.role == AdminRole && !isLoading ==>
              && ProtectedRoute.Render(isLoading, false, true, user, InstructorPageProps) == ProtectedRoute.Children
              && InstructorPage(isLoading, isChecking, user) == LayoutOnly(Blank)
              && InstructorLayout(isLoading, user).redirect == Some("/login")
  {
  }
}
