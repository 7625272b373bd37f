/**
 * The edge middleware that runs before a page: it lets public paths through
 * and otherwise only checks that SOME token is present.
 */
module Middleware {
  import opened Base
  import opened Strings

  /** What the middleware sees of a request: path, `jwtToken` cookie, `authorization` header. */
  datatype Request = Request(path: string, cookie: Option<string>, authorization: Option<string>)

  datatype Decision = Next | Redirect(location: string)

  const LoginPath: string := "/login"
  const BearerPrefix: string := "Bearer "
  const CoursesPrefix: string := "/courses/"
  const PublicRoutes: seq<string> := ["/", "/login", "/register", "/courses", "/forgot-password"]

  /** `routes.some(route => path === route || path.startsWith("/courses/"))`. */
  function AnyRoute(routes: seq<string>, path: string): bool
    decreases |routes|
  {
    |routes| > 0 && (path == routes[0] || StartsWith(path, CoursesPrefix) || AnyRoute(routes[1..], path))
  }

  predicate IsPublic(path: string) {
    AnyRoute(PublicRoutes, path)
  }

  /** The public paths are exactly the five listed routes and everything under `/courses/`. */
  lemma PublicIff(path: string)
    ensures IsPublic(path) <==>
              || path == "/" || path == "/login" || path == "/register"
              || path == "/courses" || path == "/forgot-password"
              || StartsWith(path, "/courses/")
  {
    var r := PublicRoutes;
    assert r[1..] == ["/login", "/register", "/courses", "/forgot-password"];
    assert r[1..][1..] == ["/register", "/courses", "/forgot-password"];
    assert r[1..][1..][1..] == ["/courses", "/forgot-password"];
    assert r[1..][1..][1..][1..] == ["/forgot-password"];
    assert r[1..][1..][1..][1..][1..] == [];
  }

  /**
   * A path whose second character is none of the first letters of the
   * public routes is protected.
   */
  lemma ProtectedBySecondChar(path: string)
    requires |path| >= 2 && path[1] != 'l' && path[1] != 'r' && path[1] != 'c' && path[1] != 'f'
    ensures !IsPublic(path)
  {
    PublicIff(path);
    assert path != "/login" by { assert "/login"[1] == 'l'; }
    assert path != "/register" by { assert "/register"[1] == 'r'; }
    assert path != "/courses" by { assert "/courses"[1] == 'c'; }
    assert path != "/forgot-password" by { assert "/forgot-password"[1] == 'f'; }
    assert !StartsWith(path, "/courses/") by {
      if |path| >= 9 { assert path[..9][1] == path[1]; }
    }
  }

  /**
   * Public matching is exact except under `/courses/`: whatever is appended
   * to `/login`, `/register` or `/forgot-password` is protected, and so is
   * `/courses` followed by anything but a slash.
   */
  lemma PublicIsExact(rest: string)
    requires rest != ""
    ensures !IsPublic("/login" + rest) && !IsPublic("/register" + rest) && !IsPublic("/forgot-password" + rest)
    ensures rest[0] != '/' ==> !IsPublic("/courses" + rest)
    ensures IsPublic("/courses/" + rest) && IsPublic("/courses")
  {
    assert !IsPublic("/login" + rest) by {
      var path := "/login" + rest;
      PublicIff(path);
      assert path[1] == 'l' && path[..6] == "/login";
    }
    assert !IsPublic("/register" + rest) by {
      var path := "/register" + rest;
      PublicIff(path);
      assert path[1] == 'r' && path[..9] == "/register";
    }
    assert !IsPublic("/forgot-password" + rest) by {
      var path := "/forgot-password" + rest;
      PublicIff(path);
      assert path[1] == 'f' && path[..16] == "/forgot-password";
    }
    if rest[0] != '/' {
      var path := "/courses" + rest;
      PublicIff(path);
      assert path[1] == 'c' && path[..8] == "/courses";
      if |path| >= 9 { assert path[..9][8] == rest[0]; }
    }
    assert IsPublic("/courses/" + rest) by {
      PublicIff("/courses/" + rest);
      assert ("/courses/" + rest)[..9] == "/courses/";
    }
    PublicIff("/courses");
  }

  /**
   * `cookies.get("jwtToken")?.value || headers.get("authorization")?.replace("Bearer ", "")`,
   * with every falsy outcome written as the empty string.
   */
  function ExtractToken(req: Request): (t: string)
    ensures Truthy(req.cookie) ==> t == req.cookie.value
    ensures !Truthy(req.cookie) && req.authorization.None? ==> t == ""
    ensures !Truthy(req.cookie) && req.authorization.Some? && !Contains(req.authorization.value, BearerPrefix) ==>
              t == req.authorization.value
    ensures !Truthy(req.cookie) && req.authorization.Some? && IndexOf(req.authorization.value, BearerPrefix).Some? ==>
              var h, i := req.authorization.value, IndexOf(req.authorization.value, BearerPrefix).value;
              i + |BearerPrefix| <= |h| && t == h[..i] + h[i + |BearerPrefix|..]
  {
    if Truthy(req.cookie) then req.cookie.value
    else if req.authorization.Some? then ReplaceFirst(req.authorization.value, BearerPrefix, "")
    else ""
  }

  /** A header that carries `Bearer <t>` yields `t` when no cookie is set. */
  lemma ExtractFromBearer(path: string, cookie: Option<string>, t: string)
    requires !Truthy(cookie)
    ensures ExtractToken(Request(path, cookie, Some(BearerPrefix + t))) == t
  {
    ReplaceLeadingPattern(BearerPrefix, t);
  }

  /** The cookie wins over the header whenever it is non-empty. */
  lemma CookieWins(path: string, c: string, header: Option<string>)
    requires c != ""
    ensures ExtractToken(Request(path, Some(c), header)) == c
  {
  }

  /** The `middleware` function itself. */
  function Middleware(req: Request): (d: Decision)
    ensures d == Next || d == Redirect(LoginPath)
    ensures IsPublic(req.path) ==> d == Next
    ensures d.Redirect? <==> !IsPublic(req.path) && ExtractToken(req) == ""
  {
    var token := ExtractToken(req);
    if IsPublic(req.path) then Next
    else if token == "" then Redirect(LoginPath)
    else if StartsWith(req.path, "/admin") then Next
    else if StartsWith(req.path, "/instructor") then Next
    else if StartsWith(req.path, "/student") then Next
    else Next
  }

  /**
   * The middleware never looks at what a token says: any two non-empty
   * tokens get the same decision on the same path, and it is `Next`.
   */
  lemma TokenContentNeverMatters(r1: Request, r2: Request)
    requires r1.path == r2.path
    requires ExtractToken(r1) != "" && ExtractToken(r2) != ""
    ensures Middleware(r1) == Middleware(r2) == Next
  {
  }

  /**
   * An anonymous visit to any page under `/student`, `/instructor` or
   * `/admin` goes to a bare `/login`, with no return path, also when the
   * cookie is present but empty.
   */
  lemma AnonymousVisitToRoleArea(path: string, cookie: Option<string>)
    requires StartsWith(path, "/student") || StartsWith(path, "/instructor") || StartsWith(path, "/admin")
    requires !Truthy(cookie)
    ensures Middleware(Request(path, cookie, None)) == Redirect(LoginPath)
  {
    if StartsWith(path, "/student") {
      assert path[1] == "/student"[1];
    } else if StartsWith(path, "/instructor") {
      assert path[1] == "/instructor"[1];
    } else {
      assert path[1] == "/admin"[1];
    }
    ProtectedBySecondChar(path);
  }

  /**
   * `config.matcher`, the pattern `/((?!api|_next/static|_next/image|favicon.ico).*)`:
   * a path is handled unless what follows its leading slash starts with one
   * of the four alternatives. The dot in `favicon.ico` is a regular
   * expression wildcard, so any character may stand between `favicon` and `ico`.
   */
  predicate Excluded(rest: string) {
    || StartsWith(rest, "api")
    || StartsWith(rest, "_next/static")
    || StartsWith(rest, "_next/image")
    || (|rest| >= 11 && rest[..7] == "favicon" && rest[8..11] == "ico")
  }

  predicate Applies(path: string) {
    |path| >= 1 && path[0] == '/' && !Excluded(path[1..])
  }

  /** What a request meets at the edge: the middleware where the matcher applies, otherwise nothing. */
  function Gate(req: Request): (d: Decision)
    ensures d == Next || d == Redirect(LoginPath)
    ensures d.Redirect? <==> Applies(req.path) && !IsPublic(req.path) && ExtractToken(req) == ""
  {
    if Applies(req.path) then Middleware(req) else Next
  }

  /**
   * The matcher lets every request under `/api`, `/_next/static`,
   * `/_next/image` and `/favicon?ico` through untouched, whatever follows and
   * whatever the request carries; the `?` is any one character.
   */
  lemma MatcherSkips(rest: string, c: char, cookie: Option<string>, authorization: Option<string>)
    ensures Gate(Request("/api" + rest, cookie, authorization)) == Next
    ensures Gate(Request("/_next/static" + rest, cookie, authorization)) == Next
    ensures Gate(Request("/_next/image" + rest, cookie, authorization)) == Next
    ensures Gate(Request("/favicon" + [c] + "ico" + rest, cookie, authorization)) == Next
  {
    AfterTheSlash("/api", rest);
    assert "/api"[1..] == "api";
    AfterTheSlash("/_next/static", rest);
    assert "/_next/static"[1..] == "_next/static";
    AfterTheSlash("/_next/image", rest);
    assert "/_next/image"[1..] == "_next/image";
    var head := "/favicon" + [c];
    var favicon := head + "ico";
    AfterTheSlash(favicon, rest);
    assert |head| == 9 && head[1..8] == "favicon";
    assert favicon[1..][..7] == head[1..8];
    assert favicon[1..][8..11] == favicon[|head|..] == "ico";
  }

  /** What the matcher inspects of `p + rest` begins with `p` past its slash. */
  lemma AfterTheSlash(p: string, rest: string)
    requires |p| >= 1
    ensures (p + rest)[1..][..|p| - 1] == p[1..]
  {
  }

  /**
   * Sample paths: look-alikes such as `/apiary` and `/favicon-ico` are
   * skipped too, while `/student` is handled.
   */
  lemma MatcherExclusions()
    ensures Gate(Request("/api/users", None, None)) == Next
    ensures Gate(Request("/apiary", None, None)) == Next
    ensures Gate(Request("/_next/static/app.js", None, None)) == Next
    ensures Gate(Request("/favicon.ico", None, None)) == Next
    ensures Gate(Request("/favicon-ico", None, None)) == Next
    ensures Gate(Request("/student", None, None)) == Redirect("/login")
  {
    assert !Applies("/api/users") by { assert "/api/users"[1..][..3] == "api"; }
    assert !Applies("/apiary") by { assert "/apiary"[1..][..3] == "api"; }
    assert !Applies("/_next/static/app.js") by {
      assert "/_next/static/app.js"[1..][..12] == "_next/static";
    }
    assert !Applies("/favicon.ico") by {
      var rest := "/favicon.ico"[1..];
      assert rest[..7] == "favicon" && rest[8..11] == "ico";
    }
    assert !Applies("/favicon-ico") by {
      var rest := "/favicon-ico"[1..];
      assert rest[..7] == "favicon" && rest[8..11] == "ico";
    }
    assert Applies("/student") by {
      assert "/student"[1..] == "student" && "student"[..3][0] != "api"[0];
    }
    assert !IsPublic("/student") by { PublicIff("/student"); }
  }
}
