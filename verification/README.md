# EduPlatform front-end: session, gates and instructor lists in Dafny

This project models the client-side session and authorisation logic of the
EduPlatform Next.js front-end, along with the small list helpers of three
instructor pages.

- **Session store.** The auth context keeps the session in `localStorage` under `jwtToken`, `jwtExpiresAt` and `demoRole`, plus a `jwtToken` cookie. It rehydrates the user on mount (`checkAuth`). Its transitions are `login`, `logout`, `register`, `updateProfile` and `demoLogin`.
- **Gates.** Three gates decide what a visitor sees:
  - the edge middleware, which redirects token-less requests for protected paths to `/login`;
  - the in-tree `ProtectedRoute` guard, which picks one of five views;
  - the instructor and student layouts, which admit exactly one role.

  The student mobile nav hides itself only from a signed-in user of another role. Unlike the student layout, it stays visible to anonymous visitors.
- **Login form.** It checks the backend's reply, writes `token`, `jwtToken`, `userRole` and the cookie, and chooses where to go. The demo buttons follow the same redirect rule.
- **Request plumbing.** The shared axios instance attaches `Authorization: Bearer <token>`. On a 401 it drops the stored token and sends the window to `/login`.
- **Registration page.** It checks that the two passwords match and picks the role the context registers. `DefaultRole` and `InitialForm` are the preselection as written. `IntendedRole` and `IntendedInitialForm` are the corrected versions (see "## Findings").
- **Instructor lists.**
  - The support page filters complaints and guards replies.
  - The assignments page builds placeholder assignments and filters them by status.
  - The students page builds a placeholder roster, the course picker and its filter.

## Modelling choices

- **Pure state.** Browser state is a value, `Client(storage, cookie)`. Storage is a `map<string,string>`, and the cookie is its value plus an expiry instant.
  - A cookie is sent while the clock has not passed its expiry (section 5.3 of RFC 6265).
  - An `expires` date keeps whole seconds only.
- **Parameters instead of effects.**
  - The clock is a `nat` parameter in milliseconds.
  - Every backend call is an oracle `Outcome` (resolved value or rejected with an optional HTTP status). Every context call runs it through the response interceptor, so a 401 has its side effects wherever it happens.
  - Navigation, alerts and error lines are recorded output values.
- **JavaScript semantics written out.**
  - `a || b` on strings uses JavaScript truthiness, so an empty string falls through.
  - `replace("Bearer ", "")` removes the first occurrence anywhere in the header, not only a prefix.
  - `trim` strips the ECMAScript white-space set.
  - `toLowerCase` is ASCII-only.
  - `Number(s)` trims white space first. A string of nothing but white space reads as 0, and an optionally signed run of digits reads as its value. Anything else is NaN, which never compares greater.
- **Roles are strings.** Role strings reach the code unchecked from storage, query strings and server replies. The three constants and `IsRole` mark where the source's types restrict callers.
- **Behaviour as the code has it.** Three places behave differently from what their surroundings suggest, and the model follows the code:
  - the login page reads a `redirect` query parameter, but the middleware redirects to a bare `/login` and never sets one;
  - the context's `login` has its session writes commented out, so it stores nothing and sets no user;
  - the login form writes no `jwtExpiresAt`.

## Model

| member | source | states |
|---|---|---|
| Middleware.PublicIff | middleware.ts:8-11 | a path is public iff it equals `/`, `/login`, `/register`, `/courses` or `/forgot-password`, or starts with `/courses/` |
| Middleware.ProtectedBySecondChar | middleware.ts:8-11 | a path whose second character starts none of the public routes is protected |
| Middleware.PublicIsExact | middleware.ts:8-11 | matching is exact apart from `/courses/`: anything appended to `/login`, `/register` or `/forgot-password` is protected, as is `/courses` followed by anything but a slash; everything under `/courses/` is public |
| Middleware.ExtractToken | middleware.ts:5 | a non-empty cookie is the token; otherwise the header with its first `Bearer ` removed, verbatim when it has none; empty when neither is present |
| Middleware.ExtractFromBearer | middleware.ts:5 | without a cookie, a `Bearer t` header yields exactly `t` |
| Middleware.CookieWins | middleware.ts:5 | a non-empty cookie is used whatever the header says |
| Middleware.Middleware | middleware.ts:4-44 | the only outcomes are pass and redirect to bare `/login`; public paths always pass; a redirect happens iff the path is protected and the token is empty |
| Middleware.TokenContentNeverMatters | middleware.ts:23-43 | any two non-empty tokens get the same pass on every path: the admin, instructor and student branches never look at a role |
| Middleware.AnonymousVisitToRoleArea | middleware.ts:8-21 | a request with no or an empty cookie and no header, for any path under `/student`, `/instructor` or `/admin`, is redirected to a bare `/login` |
| Middleware.Gate | middleware.ts:46-48 | the only outcomes are passing and a bare `/login` redirect, and a request is redirected iff the matcher applies, the path is protected and no token is found |
| Middleware.MatcherSkips | middleware.ts:47 | every path under `/api`, `/_next/static`, `/_next/image` or `/favicon?ico` passes, whatever follows and whatever the request carries |
| Middleware.MatcherExclusions | middleware.ts:47 | `/api…` (including `/apiary`), `/_next/static…` and `/favicon?ico` are excluded (the regex dot matches any character); `/student` is not |
| Api.AttachAuthorization | utils/api.ts:13-20 | the request gets `Authorization: Bearer <jwtToken>` iff a non-empty token is stored; every other header is kept and nothing else is added |
| Api.BearerRoundTrip | utils/api.ts:13-20 | the middleware's header branch reads the header built here back as the stored token, and the request passes on every path |
| Api.Intercept | utils/api.ts:27-36 | the outcome is passed on unchanged; a 401 removes the stored token and navigates to `/login`; every other outcome leaves the browser alone |
| Api.UnauthorizedKeepsTheRest | utils/api.ts:30-33 | a 401 removes `jwtToken` only: the expiry, the demo role, every other key and the cookie stay |
| AuthContext.DemoUserFields | context/auth-context.tsx:186-192 | the demo user has id `demo-user-id`, the given role, name `Demo ` + first letter + lower-cased rest, and e-mail `demo+<lower-cased role>@edu.test` |
| AuthContext.DemoStudentUser | context/auth-context.tsx:58-64 | the STUDENT demo user is `Demo Student`, `demo+student@edu.test` |
| AuthContext.DemoInstructorUser | context/auth-context.tsx:84-90 | the INSTRUCTOR demo user is `Demo Instructor`, `demo+instructor@edu.test` |
| AuthContext.DemoAdminUser | context/auth-context.tsx:186-192 | the ADMIN demo user is `Demo Admin`, `demo+admin@edu.test` |
| AuthContext.ExpiryRule | context/auth-context.tsx:73 | a numeric expiry has passed iff now is strictly later (equal is still valid); a missing, empty or non-numeric expiry never passes; a white-space-only expiry reads as 0 and has passed at every instant after 0 |
| Strings.ParseNumber | context/auth-context.tsx:73 | `Number` of a string of nothing but white space (including the empty string) is 0 |
| Strings.NumberRoundTrip | context/auth-context.tsx:178-179 | the decimal string written for an expiry instant reads back as the same number |
| AuthContext.CheckAuth | context/auth-context.tsx:49-102 | loading ends false on every path and no error escapes; the cookie is untouched; storage only loses keys, and only session keys; the user only ever changes to a present one |
| AuthContext.RehydrateWithoutToken | context/auth-context.tsx:54-70 | with no token, the demo user is restored iff a demo role is stored; nothing is written or navigated; the expiry, the clock and the backend do not matter |
| AuthContext.RehydrateExpired | context/auth-context.tsx:72-79 | a token whose expiry has passed is dropped along with the expiry and demo role; the user is not set |
| AuthContext.RehydrateDemoToken | context/auth-context.tsx:81-90 | a live `demo-` token restores the demo user for the stored role (STUDENT by default) without consulting the backend and without writing |
| AuthContext.RehydrateProfileFailure | context/auth-context.tsx:92-101 | a failed profile fetch drops the token and demo role but keeps the expiry; the user stays unset; it navigates to `/login` iff the status was 401 |
| AuthContext.RehydrateProfileSuccess | context/auth-context.tsx:91-94 | a fetched profile becomes the user; storage is untouched |
| AuthContext.DemoLogin | context/auth-context.tsx:175-206 | writes a `demo-` token, expiry now + one hour and the role, keeps every other key, sets a cookie with the same token expiring within the last second of that hour, sets the demo user and goes to the role's dashboard |
| AuthContext.DemoLoginRehydrates | context/auth-context.tsx:175-192 | a page load at any time up to the stored expiry rebuilds the identical demo user without changing the browser |
| AuthContext.DemoLoginExpires | context/auth-context.tsx:73-79 | a page load after the hour drops the demo session and stays anonymous |
| AuthContext.Logout | context/auth-context.tsx:138-149 | removes exactly the three session keys, clears the cookie and the user, and navigates to `/` |
| AuthContext.LogoutIdempotent | context/auth-context.tsx:138-149 | logging out twice gives the same result as once |
| AuthContext.LogoutKeepsFormKeys | context/auth-context.tsx:138-141 | the `token` and `userRole` keys the login form writes survive a logout |
| AuthContext.Login | context/auth-context.tsx:104-136 | never sets the user and writes nothing itself; a rejection is rethrown, and only the interceptor's 401 handling touches the browser |
| AuthContext.RegisterEndpoint | context/auth-context.tsx:153 | the student endpoint is used iff the role is exactly `STUDENT` |
| AuthContext.Register | context/auth-context.tsx:151-162 | never sets the user; navigates to `/login` on success, and also on a 401 through the response interceptor, which then drops only the stored token; any other failure is rethrown with the browser untouched |
| AuthContext.UpdateProfile | context/auth-context.tsx:164-173 | a success installs the returned user without writing storage or navigating; a 401 drops only the stored token and navigates to `/login`; any other failure is rethrown with the session untouched and no navigation |
| ProtectedRoute.Render | components/protected-route.tsx:16-156 | exactly one view per input. Loading iff the context or the local check is loading. Children iff loaded, authenticated and the allow-list is absent or contains the role. Without a fallback: access-restricted iff there is no user, permission-denied iff the role is not allowed. The fallback otherwise. |
| ProtectedRoute.AfterEffect | components/protected-route.tsx:21-25 | the local check is cleared once loading is over and left alone while loading |
| ProtectedRoute.FirstRenderIsLoading | components/protected-route.tsx:18-39 | a fresh guard shows the loading view on its first render even with a user present, and the real decision once the effect has run |
| ProtectedRoute.EmptyAllowListDeniesEveryone | components/protected-route.tsx:93 | an empty allow-list denies every signed-in user |
| ProtectedRoute.AdminOnStudentPage | components/protected-route.tsx:93-119 | an ADMIN on a STUDENT-only page sees `Required role: STUDENT`, `Your role: ADMIN` and the admin dashboard button |
| ProtectedRoute.DashboardButton | components/protected-route.tsx:122-134 | the button goes to the admin or instructor dashboard for exactly those roles and to the student dashboard for every other string |
| ProtectedRoute.RequiredLines | components/protected-route.tsx:114-116 | for every role list: a single role reads `Required role: <role>`, and each further role appends ` or <role>`; e.g. `Required role: INSTRUCTOR or ADMIN` |
| Layouts.InstructorLayout | app/instructor/layout.tsx:19-42 | spinner and no redirect while loading; the shell iff loaded and the role is exactly INSTRUCTOR; a `/login` push with an empty page iff loaded and there is no user or another role |
| Layouts.StudentLayout | app/student/layout.tsx:19-42 | the same for exactly STUDENT |
| Layouts.StaffUnderStudent | app/student/layout.tsx:33-35 | INSTRUCTOR and ADMIN users under `/student` get an empty page and a `/login` push |
| Layouts.InstructorPagesAreInstructorOnly | app/instructor/layout.tsx:19-35 | an instructor page's content shows iff loading is over and the role is exactly INSTRUCTOR; an ADMIN, whom the page's own guard admits, gets an empty page and a `/login` push |
| StudentMobileNav.Render | components/layout/student-mobile-nav.tsx:12-30 | the bar shows iff the pathname starts with `/student` and no user of another role is signed in; it has the five items in order, each active iff the pathname equals its href |
| StudentMobileNav.AtMostOneActive | components/layout/student-mobile-nav.tsx:18-30 | at most one item is active |
| StudentMobileNav.Visibility | components/layout/student-mobile-nav.tsx:13-16 | anonymous visitors see it on `/student/courses` and on look-alikes such as `/studentx`; staff never do; a missing pathname hides it |
| LoginContent.RedirectTo | components/login-content.tsx:29 | a non-empty redirect parameter verbatim, otherwise `/`; never empty |
| LoginContent.FormDashboard | components/login-content.tsx:77-90 | the three roles go to their dashboards, any other string to `/` |
| LoginContent.DashboardsAreNotLogin | components/login-content.tsx:72-90 | no dashboard path lies under `/login` |
| LoginContent.PostLoginTarget | components/login-content.tsx:70-91 | the requested page when it is not `/` and not under `/login`, else the role's dashboard, else `/`; never a path under `/login` |
| LoginContent.HandleSubmit | components/login-content.tsx:31-102 | loading ends false on every path. A thrown error shows its message. A not-OK reply shows the server message or `Login failed`, and a reply missing the jwt or role shows `Invalid response from server`; both write nothing. A good reply stores `token`, `jwtToken` and `userRole`, sets the cookie, leaves `jwtExpiresAt` and `demoRole` alone, and navigates or shows the navigation error. |
| LoginContent.FormSessionNeverExpires | components/login-content.tsx:56-68 | with no expiry stored beforehand, the session the form writes is never expired by the next page load, at any time |
| LoginContent.StaleDemoExpiryCutsFormSession | components/login-content.tsx:56-60 | the form does not clear an earlier demo session's expiry, so after that instant the next page load throws the new real token away |
| LoginContent.DemoButton | components/login-content.tsx:115-150 | a demo button performs the context's demo login, then goes to the requested page under the same rule as the form, else to its own role's dashboard; never under `/login` |
| LoginContent.ButtonsMatchForm | components/login-content.tsx:115-150 | for a known role the buttons and the form choose the same target |
| RegisterPage.DefaultRole | app/register/page.tsx:19 | the role query parameter verbatim when non-empty, else STUDENT |
| RegisterPage.Payload | app/register/page.tsx:45-51 | name, e-mail, password and role are copied; an empty bio is sent as absent, any other bio verbatim |
| RegisterPage.HandleSubmit | app/register/page.tsx:34-57 | mismatched passwords alert and call nothing; otherwise `register` is called with the payload on the endpoint the role selects, a failure is swallowed, the user is never set and loading ends false |
| RegisterPage.LowerCaseRoleLinkRegistersInstructor | app/register/page.tsx:19 | `?role=student` is kept lower-case, matches neither role choice and so reaches the instructor endpoint; only the default reaches the student one |
| RegisterPage.InitialForm | app/register/page.tsx:21-28 | the form starts with every text field empty and the role query verbatim when non-empty, else STUDENT |
| RegisterPage.IntendedRole | app/register/page.tsx:19 | corrected definition (see "## Findings"): the preselected role is always STUDENT or INSTRUCTOR, as the page's own type annotation allows |
| RegisterPage.IntendedInitialForm | app/register/page.tsx:21-28 | corrected definition (see "## Findings"): the first form differs from the page's only in the role, which is always STUDENT or INSTRUCTOR |
| RegisterPage.RegisterLinksReachTheirEndpoint | components/login-content.tsx:219-222 | with the intended preselection, each login-page link registers the role it names; upper-case and missing queries get what the page as written gives them |
| Search.Normalize | app/instructor/support/page.tsx:54 | the normalised query is empty iff the box holds only white space |
| Search.BlankQueryMatchesAll | app/instructor/support/page.tsx:56-60 | a blank query matches every record |
| SupportPage.EffectiveStatus | app/instructor/support/page.tsx:61 | a missing status reads as PENDING; the shown status is never empty |
| SupportPage.FilteredComplaints | app/instructor/support/page.tsx:53-64 | an order-preserving subsequence; it keeps a complaint iff the query matches its subject, description or student name and the status test passes; every kept complaint appears exactly as often as in the input |
| SupportPage.BlankSearchShowsAll | app/instructor/support/page.tsx:54-61 | a blank query with `ALL` lists every complaint in order |
| SupportPage.StatusNarrowsAll | app/instructor/support/page.tsx:61-62 | a status tab is the `ALL` list filtered by status |
| SupportPage.StatusTabsPartition | app/instructor/support/page.tsx:61 | when every status reads PENDING or RESOLVED, the two tabs split the `ALL` list |
| SupportPage.ReplyOfferedIffNotResolved | app/instructor/support/page.tsx:157-169 | the Reply button shows iff the badge does not read RESOLVED, including for a missing status |
| SupportPage.ReplyOfferedByTab | app/instructor/support/page.tsx:169 | every complaint under PENDING can be answered and none under RESOLVED |
| SupportPage.ToggleReply | app/instructor/support/page.tsx:170 | the button opens its complaint's reply box iff it was not open, and otherwise closes it |
| SupportPage.SendReply | app/instructor/support/page.tsx:66-76 | a blank reply sends nothing. Otherwise it sends the trimmed, non-empty text with status RESOLVED through the interceptor. A success clears the box and refetches; a failure is swallowed and the box stays. |
| AssignmentsPage.SyntheticEntry | app/instructor/assignments/page.tsx:42-49 | entry `idx` has id `a-<id>-<idx>`, title `Assignment <idx+1>`, the course title or `Course <idx+1>`, 10·(idx+1) submissions and 3·(idx+1) pending |
| AssignmentsPage.Synthetic | app/instructor/assignments/page.tsx:39-51 | one entry per course for the first min(3, n) courses, empty without courses, each with work pending |
| AssignmentsPage.SyntheticIdsDistinct | app/instructor/assignments/page.tsx:43 | the placeholder ids are pairwise distinct whatever the course ids |
| AssignmentsPage.Filtered | app/instructor/assignments/page.tsx:59-73 | an order-preserving subsequence; it keeps an entry iff the query matches its title or course title and the status test passes; every kept entry appears exactly as often as in the input |
| AssignmentsPage.BlankSearchShowsAll | app/instructor/assignments/page.tsx:60-66 | a blank query with `ALL` lists everything |
| AssignmentsPage.StatusTabsPartition | app/instructor/assignments/page.tsx:65-70 | with no negative pending counts, PENDING and GRADED split the `ALL` list |
| AssignmentsPage.NegativePendingFallsBetweenTabs | app/instructor/assignments/page.tsx:65-70 | a negative pending count is listed under `ALL` but under neither tab |
| AssignmentsPage.SyntheticAllPending | app/instructor/assignments/page.tsx:48-70 | every placeholder appears under PENDING and none under GRADED |
| StudentsPage.RowCountClosedForm | app/instructor/students/page.tsx:39-49 | courses contribute 2, 3, 4 and then 5 rows each: 2n + n(n−1)/2 rows for n ≤ 3, and 9 + 5(n−3) from there on |
| StudentsPage.Progress | app/instructor/students/page.tsx:45 | the progress percentage is at least 0 and below 100 |
| StudentsPage.RowFor | app/instructor/students/page.tsx:40-47 | row `sIdx` of course `idx` has id `<course id or idx>-s-<sIdx>`, name `Student <idx+1>-<sIdx+1>`, e-mail `student<idx+1><sIdx+1>@edu.test` and the course title or `Course <idx+1>` |
| StudentsPage.Slots | app/instructor/students/page.tsx:39-40 | the rows are produced course by course and, within a course, student by student |
| StudentsPage.SlotsComplete | app/instructor/students/page.tsx:39-40 | every student index of every course is produced |
| StudentsPage.Synthetic | app/instructor/students/page.tsx:39-49 | the flattened roster has exactly as many rows as the per-course counts add up to |
| StudentsPage.SyntheticBySlot | app/instructor/students/page.tsx:39-49 | row k of the roster is the row of the course and student index at the k-th (course, student) position |
| StudentsPage.RosterComplete | app/instructor/students/page.tsx:39-49 | every course's whole block of rows is in the roster |
| StudentsPage.ProgressBelowHundred | app/instructor/students/page.tsx:45 | no synthetic student shows full progress |
| StudentsPage.EmailIsKey | app/instructor/students/page.tsx:43 | the two run-together numbers in an address read as one decimal number, 10·(idx+1) + sIdx + 1 |
| StudentsPage.EmailsDistinct | app/instructor/students/page.tsx:43 | no two synthetic students share an e-mail address |
| StudentsPage.CourseOptions | app/instructor/students/page.tsx:58-61 | `ALL` first, then every row's course exactly once, in order of first appearance |
| StudentsPage.CourseOptionsDistinctIff | app/instructor/students/page.tsx:58-61 | the options are duplicate-free iff no course is itself named `ALL` |
| StudentsPage.Filtered | app/instructor/students/page.tsx:63-70 | an order-preserving subsequence; it keeps a row iff the query matches its name or e-mail and the course test passes; every kept row appears exactly as often as in the input |
| StudentsPage.BlankSearchShowsAll | app/instructor/students/page.tsx:64-67 | a blank query with `ALL` lists every row |
| StudentsPage.CourseNarrowsAll | app/instructor/students/page.tsx:67 | picking a course narrows the `ALL` list to rows of exactly that course, in order |
| Guards.DemoCookieOpensTheMiddleware | context/auth-context.tsx:181-185 | while the demo cookie lives every path passes the middleware; after the hour protected paths bounce to `/login` |
| Guards.CookieGoesBeforeTheStoredExpiry | context/auth-context.tsx:178-184 | a demo login off a whole second leaves a last sub-second stretch. In it the middleware already bounces protected pages while a page load would still restore the demo user. |
| Guards.LogoutClosesTheMiddleware | context/auth-context.tsx:138-145 | after logout neither the cookie nor the request interceptor carries a token, so protected paths bounce to `/login` |
| Guards.DemoSurvivesUnauthorized | utils/api.ts:30-33 | a 401 on a demo session drops the stored token but keeps the cookie and demo role. The middleware still passes and the next page load rebuilds the same demo user. |
| Guards.DemoAdminAcrossGuards | components/protected-route.tsx:93 | a demo ADMIN sees an ADMIN-only page's content and the denial view on a STUDENT-only page |
| Guards.DemoAdminBouncedFromInstructorArea | app/instructor/layout.tsx:19-35 | a demo ADMIN passes the middleware under `/instructor` but the layout renders nothing and pushes `/login` |

## Left out

- Toasts, `console` output and `alert` texts other than the password mismatch are side effects with no bearing on state.
- Concurrency is out: racing `login` calls, requests still in flight on unmount, and the 100 ms `setTimeout` before a demo button navigates. The button is modelled as navigating after the demo login.
- `demoLogin` reads the clock twice, once for the token and once for the expiry. The model uses one instant for both.
- `Number()` is modelled for white-space-only strings and for trimmed, optionally signed decimal digit strings. Fractions, exponents, hexadecimal and `Infinity` are read as NaN.
- `toLowerCase` is ASCII-only; `trim` uses the fixed ECMAScript white-space set.
- AuthContext.UpdateProfile: sending the patch object is not modelled, only how the reply updates the user.
- LoginContent.HandleSubmit: a failed `fetch` and a body that cannot be parsed appear together as one thrown error carrying a message. The `secure` and `sameSite` cookie attributes are not modelled.
- StudentsPage.Progress: computed on integers as `100·(sIdx+1) div (5+idx)`. The source uses floating point, whose rounding is not modelled.
- Dates derived from the clock (assignment due dates, enrolment dates) and their formatting are not modelled.
- The page-loading handlers that fetch the lists (`fetchComplaints`, the error text of a failed fetch, the spinner) are request glue and are not modelled. `fetchAssignments` and `fetchStudents` are modelled from the course list they receive.
- The endpoint table in `utils/api.ts` beyond the two interceptors is a list of thin calls. Each reply is an oracle outcome.
- The admin layout has its role check commented out, so admin pages are guarded only by the middleware, which is modelled.
- Next.js matching subtleties beyond the matcher's regular expression (locale prefixes, `basePath`, trailing-slash rewriting) are not modelled.
- The mock dashboards, static pages, sidebars and the build configuration render fixed data and are not modelled.

## Findings

| source | as written | input that shows it | evidently intended | confidence | as-written member | corrected member |
|---|---|---|---|---|---|---|
| app/register/page.tsx:19 | the `role` query parameter becomes the form's role verbatim, while the login page links use lower-case values and `register` compares with `"STUDENT"` exactly | `/register?role=student`, then submit without touching the role choice: the instructor endpoint is called | the query names one of the two upper-case roles, case ignored, defaulting to STUDENT, so the form starts on one of its two role choices | not executed; high, the cast to `"STUDENT" \| "INSTRUCTOR"` states the intent | RegisterPage.LowerCaseRoleLinkRegistersInstructor | RegisterPage.IntendedRole, RegisterPage.IntendedInitialForm, RegisterPage.RegisterLinksReachTheirEndpoint |
