/**
 * The request middleware (middleware.ts): public routes pass straight through;
 * other paths need a signed-in user, then a role that may enter the path's
 * area; requests that pass every check continue with three security headers.
 * The session lookup is a parameter.
 */
module Middleware {
  import opened Wrappers
  import Js
  import Text
  import PathMatch
  import UrlParams

  /** The signed-in user as the session presents it; the role may be missing. */
  datatype User = User(role: Option<string>, email: Option<string>)

  /** A URL inside the application: path and query parameters. */
  datatype Location = Location(pathname: string, query: seq<UrlParams.Param>)

  datatype Header = Header(name: string, value: string)

  datatype Response =
    | Continue(headers: seq<Header>)
    | Redirect(to: Location)

  const PublicRoutes: seq<string> :=
    ["/", "/login", "/sign-up", "/stores", "/marketplace", "/about", "/contact", "/help", "/terms", "/privacy"]

  const SecurityHeaders: seq<Header> := [
    Header("X-Frame-Options", "DENY"),
    Header("X-Content-Type-Options", "nosniff"),
    Header("Referrer-Policy", "strict-origin-when-cross-origin")
  ]

  /** `publicRoutes.some(route => pathname === route || pathname.startsWith(route + '/'))` */
  predicate IsPublic(pathname: string) {
    exists i :: 0 <= i < |PublicRoutes| && PathMatch.IsAtOrUnder(pathname, PublicRoutes[i])
  }

  /** `role || 'customer'` */
  function EffectiveRole(u: User): (r: string)
    ensures Js.Truthy(u.role) ==> r == u.role.value
    ensures !Js.Truthy(u.role) ==> r == "customer"
  {
    Js.Or(u.role, "customer")
  }

  predicate IsVendorOrAdmin(role: string) {
    role == "vendor" || role == "admin"
  }

  /**
   * Reference rule: a signed-in user with this role may enter the path when every
   * area the path falls in admits the role (areas are plain string prefixes).
   */
  predicate RoleMayEnter(role: string, pathname: string) {
    (Text.StartsWith(pathname, "/admin") ==> role == "admin")
    && (Text.StartsWith(pathname, "/dashboard") ==> IsVendorOrAdmin(role))
    && (Text.StartsWith(pathname, "/editor") ==> IsVendorOrAdmin(role))
  }

  /** The login page with the original query and `callbackUrl` set to the requested path. */
  function LoginRedirect(request: Location): (r: Location)
    ensures r.pathname == "/login"
    ensures UrlParams.Get(r.query, "callbackUrl") == Some(request.pathname)
    ensures UrlParams.Without(r.query, "callbackUrl") == UrlParams.Without(request.query, "callbackUrl")
  {
    Location("/login", UrlParams.Set(request.query, "callbackUrl", request.pathname))
  }

  /** middleware: the response for a request and the current session's user. */
  function Decide(user: Option<User>, request: Location): (r: Response)
    ensures IsPublic(request.pathname) ==> r == Continue([])
    ensures !IsPublic(request.pathname) && user.None? ==> r == Redirect(LoginRedirect(request))
    ensures r.Continue? <==>
      IsPublic(request.pathname) || (user.Some? && RoleMayEnter(EffectiveRole(user.value), request.pathname))
    ensures r.Continue? && !IsPublic(request.pathname) ==> r.headers == SecurityHeaders
    ensures r.Redirect? && user.Some? ==> r.to == Location(
      if Text.StartsWith(request.pathname, "/admin") && EffectiveRole(user.value) != "admin" then "/dashboard"
      else if Text.StartsWith(request.pathname, "/dashboard") then "/"
      else "/dashboard", [])
  {
    var pathname := request.pathname;
    if IsPublic(pathname) then Continue([])
    else if user.None? then Redirect(LoginRedirect(request))
    else
      var role := EffectiveRole(user.value);
      if Text.StartsWith(pathname, "/admin") && role != "admin" then Redirect(Location("/dashboard", []))
      else if Text.StartsWith(pathname, "/dashboard") && !IsVendorOrAdmin(role) then Redirect(Location("/", []))
      else if Text.StartsWith(pathname, "/editor") && !IsVendorOrAdmin(role) then Redirect(Location("/dashboard", []))
      else Continue(SecurityHeaders)
  }

  /** "/" is listed, but it makes public only "/" itself and paths starting with "//". */
  lemma RootRouteIsNotACatchAll()
    ensures !IsPublic("/dashboard") && !IsPublic("/admin") && !IsPublic("/editor")
    ensures IsPublic("/") && IsPublic("/login/reset") && !IsPublic("/loginx")
  {
    assert PathMatch.IsAtOrUnder("/", PublicRoutes[0]);
    assert PathMatch.IsAtOrUnder("/login/reset", PublicRoutes[1]) by {
      assert "/login/reset"[..7] == "/login/";
    }
    NotPublic("/dashboard");
    NotPublic("/admin");
    NotPublic("/editor");
    forall i | 0 <= i < |PublicRoutes| ensures !PathMatch.IsAtOrUnder("/loginx", PublicRoutes[i]) {
      if i == 0 {
        PathMatch.RootMatchesOnlyRoot("/loginx");
      } else if i == 1 {
        PathMatch.SiblingDoesNotMatch("/loginx", "/login");
      } else {
        NotUnder("/loginx", PublicRoutes[i]);
      }
    }
  }

  /** Helper: a path whose second or third character differs from the route's is not under it. */
  lemma NotUnder(p: string, r: string)
    requires |p| >= 3 && |r| >= 3 && (p[1] != r[1] || p[2] != r[2])
    ensures !PathMatch.IsAtOrUnder(p, r)
  {
    PathMatch.AtOrUnderIsSegmentPrefix(p, r);
  }

  /** Helper: a path that differs early from every listed route except "/" is not public. */
  lemma NotPublic(p: string)
    requires |p| >= 3 && p[0] == '/' && p[1] != '/'
    requires forall i :: 1 <= i < |PublicRoutes| ==> p[1] != PublicRoutes[i][1] || p[2] != PublicRoutes[i][2]
    ensures !IsPublic(p)
  {
    PathMatch.RootMatchesOnlyRoot(p);
    forall i | 1 <= i < |PublicRoutes| ensures !PathMatch.IsAtOrUnder(p, PublicRoutes[i]) {
      NotUnder(p, PublicRoutes[i]);
    }
  }

  /** The "/admin" check has no '/' boundary: "/administrator" is admin-only too. */
  lemma AdministratorIsAdminOnly(u: User)
    requires EffectiveRole(u) != "admin"
    ensures Decide(Some(u), Location("/administrator", [])) == Redirect(Location("/dashboard", []))
  {
    NotPublic("/administrator");
    assert Text.StartsWith("/administrator", "/admin");
  }

  /** A user without a role (or with an empty one) is a customer and is sent from the dashboard to "/". */
  lemma MissingRoleIsCustomer(email: Option<string>, pathname: string)
    requires Text.StartsWith(pathname, "/dashboard")
    ensures Decide(Some(User(None, email)), Location(pathname, [])) == Redirect(Location("/", []))
    ensures Decide(Some(User(Some(""), email)), Location(pathname, [])) == Redirect(Location("/", []))
  {
    DashboardIsNotPublic(pathname);
    assert !Text.StartsWith(pathname, "/admin") by {
      assert pathname[1] == 'd';
    }
  }

  /** Helper: paths under "/dashboard" are not public. */
  lemma DashboardIsNotPublic(pathname: string)
    requires Text.StartsWith(pathname, "/dashboard")
    ensures !IsPublic(pathname)
  {
    assert pathname[..10] == "/dashboard";
    assert pathname[1] == 'd' && pathname[2] == 'a';
    NotPublic(pathname);
  }

  /** An admin is never redirected once signed in. */
  lemma AdminEntersEverywhere(u: User, request: Location)
    requires EffectiveRole(u) == "admin"
    ensures Decide(Some(u), request).Continue?
  {
  }

  /**
   * A signed-in user is never sent round in circles: the page a role redirect
   * points to either admits the user or redirects once more, to "/", which is public.
   */
  lemma RoleRedirectsSettle(u: User, request: Location)
    requires Decide(Some(u), request).Redirect?
    ensures var first := Decide(Some(u), request).to;
      Decide(Some(u), first).Continue?
      || (Decide(Some(u), first) == Redirect(Location("/", [])) && Decide(Some(u), Location("/", [])).Continue?)
  {
    assert PathMatch.IsAtOrUnder("/", PublicRoutes[0]);
    DashboardIsNotPublic("/dashboard");
    assert Text.StartsWith("/dashboard", "/dashboard");
    assert !Text.StartsWith("/dashboard", "/admin") && !Text.StartsWith("/dashboard", "/editor");
  }
}
