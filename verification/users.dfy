/** The signed-in user object the auth context hands to the rendering tree. */
module Users {
  import opened Base

  const StudentRole: string := "STUDENT"
  const InstructorRole: string := "INSTRUCTOR"
  const AdminRole: string := "ADMIN"

  /**
   * The three roles the type declarations admit. Role strings arrive from
   * storage, query strings and server replies unchecked, so the model keeps
   * roles as strings and uses this predicate where the source's parameter
   * type restricts its callers.
   */
  predicate IsRole(r: string) {
    r == StudentRole || r == InstructorRole || r == AdminRole
  }

  datatype User = User(
    id: string,
    name: string,
    email: string,
    role: string,
    avatar: Option<string>,
    bio: Option<string>)

  /**
   * The dashboard a role is sent to by the auth context's demo login and by
   * the permission-denied view: ADMIN and INSTRUCTOR have their own, every
   * other string falls through to the student dashboard.
   */
  function DashboardFor(role: string): string {
    if role == AdminRole then "/admin/dashboard"
    else if role == InstructorRole then "/instructor/dashboard"
    else "/student/dashboard"
  }
}
