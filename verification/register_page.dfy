/** The registration page: its default role and its submit guard. */
module RegisterPage {
  import opened Base
  import opened Strings
  import opened Users
  import Api
  import AuthContext

  const PasswordsDiffer: string := "Passwords don't match"

  /** `searchParams.get("role") || "STUDENT"`, taken verbatim. */
  function DefaultRole(query: Option<string>): (r: string)
    ensures Truthy(query) ==> r == query.value
    ensures !Truthy(query) ==> r == StudentRole
  {
    OrElse(query, StudentRole)
  }

  datatype Form = Form(name: string, email: string, password: string, confirmPassword: string,
                       role: string, bio: string)

  /**
   * The form as the page first shows it: every text field empty and the
   * role taken from the query as it stands, STUDENT only when it is absent
   * or empty.
   */
  function InitialForm(query: Option<string>): (f: Form)
    ensures f.name == "" && f.email == "" && f.password == "" && f.confirmPassword == "" && f.bio == ""
    ensures Truthy(query) ==> f.role == query.value
    ensures !Truthy(query) ==> f.role == StudentRole
  {
    Form("", "", "", "", DefaultRole(query), "")
  }

  /** The object handed to `register`: an empty bio is sent as `undefined`. */
  function Payload(f: Form): (d: AuthContext.RegisterData)
    ensures d.name == f.name && d.email == f.email && d.password == f.password && d.role == f.role
    ensures d.bio.None? <==> f.bio == ""
    ensures d.bio.Some? ==> d.bio.value == f.bio
  {
    AuthContext.RegisterData(f.name, f.email, f.password, f.role, if f.bio == "" then None else Some(f.bio))
  }

  /**
   * One submission: whether `register` was called, with which endpoint and
   * payload, the alert shown, the context after the call, and the spinner.
   */
  datatype Submission = Submission(
    posted: Option<(AuthContext.Endpoint, AuthContext.RegisterData)>,
    alert: Option<string>,
    step: AuthContext.Step,
    isLoading: bool)

  /** `handleSubmit`; the context's rejection is swallowed by the page. */
  function HandleSubmit(s: AuthContext.Session, f: Form, isLoading: bool, reply: Api.Outcome<()>): (r: Submission)
    ensures f.password != f.confirmPassword ==>
              r == Submission(None, Some(PasswordsDiffer), AuthContext.Step(s, None, None), isLoading)
    ensures f.password == f.confirmPassword ==>
              && r.posted.Some? && r.posted.value.1 == Payload(f)
              && (r.posted.value.0 == AuthContext.RegisterStudent <==> f.role == StudentRole)
              && r.alert.None? && !r.isLoading
    ensures r.step.session.auth == s.auth
    ensures f.password == f.confirmPassword && reply.Resolved? ==> r.step.navigate == Some("/login")
  {
    if f.password != f.confirmPassword then
      Submission(None, Some(PasswordsDiffer), AuthContext.Step(s, None, None), isLoading)
    else
      var data := Payload(f);
      var (endpoint, step) := AuthContext.Register(s, data, reply);
      Submission(Some((endpoint, data)), None, step, false)
  }

  /**
   * The role the page evidently means to preselect: the query names a role
   * in whatever case, and anything else falls back to STUDENT.
   */
  function IntendedRole(query: Option<string>): (r: string)
    ensures r == StudentRole || r == InstructorRole
  {
    if Truthy(query) && Lower(query.value) == "instructor" then InstructorRole else StudentRole
  }

  /**
   * The corrected first form: the page as written, with the intended role
   * preselected instead of the verbatim query.
   */
  function IntendedInitialForm(query: Option<string>): (f: Form)
    ensures f.role == StudentRole || f.role == InstructorRole
    ensures f.(role := DefaultRole(query)) == InitialForm(query)
  {
    Form("", "", "", "", IntendedRole(query), "")
  }

  /** The query values the two login-page links and the role names themselves carry. */
  lemma RoleQueries()
    ensures Lower("student") == "student" && Lower("STUDENT") == "student"
    ensures Lower("instructor") == "instructor" && Lower("INSTRUCTOR") == "instructor"
  {
    LowerLiteral("student", "student");
    LowerLiteral("STUDENT", "student");
    LowerLiteral("instructor", "instructor");
    LowerLiteral("INSTRUCTOR", "instructor");
  }

  /**
   * With the intended preselection, each login-page link registers the role
   * it names, and a query that already spells a role name upper-case gets
   * what the page as written gives it.
   */
  lemma RegisterLinksReachTheirEndpoint(s: AuthContext.Session, f: Form, reply: Api.Outcome<()>)
    requires f.password == f.confirmPassword
    ensures HandleSubmit(s, f.(role := IntendedRole(Some("student"))), false, reply).posted.value.0 ==
              AuthContext.RegisterStudent
    ensures HandleSubmit(s, f.(role := IntendedRole(Some("instructor"))), false, reply).posted.value.0 ==
              AuthContext.RegisterInstructor
    ensures IntendedRole(Some(StudentRole)) == DefaultRole(Some(StudentRole))
    ensures IntendedRole(Some(InstructorRole)) == DefaultRole(Some(InstructorRole))
    ensures IntendedRole(None) == DefaultRole(None) == StudentRole
    ensures IntendedInitialForm(Some("student")).role == StudentRole
    ensures IntendedInitialForm(Some("instructor")).role == InstructorRole
  {
    RoleQueries();
  }

  /**
   * The login page links to `/register?role=student`; the page keeps the
   * lower-case value, which matches neither of the two role choices, and
   * the context compares with `"STUDENT"` exactly, so that link registers
   * an instructor. Only the default reaches the student endpoint.
   */
  lemma LowerCaseRoleLinkRegistersInstructor(s: AuthContext.Session, f: Form, reply: Api.Outcome<()>)
    requires f.password == f.confirmPassword
    ensures DefaultRole(Some("student")) == "student"
    ensures InitialForm(Some("student")).role != StudentRole && InitialForm(Some("student")).role != InstructorRole
    ensures HandleSubmit(s, f.(role := DefaultRole(Some("student"))), false, reply).posted.value.0 ==
              AuthContext.RegisterInstructor
    ensures HandleSubmit(s, f.(role := DefaultRole(None)), false, reply).posted.value.0 ==
              AuthContext.RegisterStudent
  {
  }
}
