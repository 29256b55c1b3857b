/**
 * The path rule used for public routes in the middleware and for the
 * "active" highlight in the sidebar and the mobile navigation:
 * a path matches a route when it equals the route or starts with the route
 * followed by '/'.
 */
module PathMatch {
  import Text

  /** `path === route || path.startsWith(route + '/')` */
  predicate IsAtOrUnder(path: string, route: string) {
    path == route || Text.StartsWith(path, route + "/")
  }

  /**
   * The rule is a segment-boundary prefix test: a longer path matches exactly
   * when it extends the route and the next character is '/'.
   */
  lemma AtOrUnderIsSegmentPrefix(path: string, route: string)
    ensures IsAtOrUnder(path, route) <==>
      path == route || (|path| > |route| && path[..|route|] == route && path[|route|] == '/')
  {
    if |path| > |route| && path[..|route|] == route && path[|route|] == '/' {
      assert path[..|route| + 1] == route + "/";
    }
    if Text.StartsWith(path, route + "/") {
      assert path[..|route|] == (route + "/")[..|route|];
    }
  }

  /** A path that shares only a string prefix with the route does not match. */
  lemma SiblingDoesNotMatch(path: string, route: string)
    requires |path| > |route| && path[..|route|] == route && path[|route|] != '/'
    ensures !IsAtOrUnder(path, route)
  {
    AtOrUnderIsSegmentPrefix(path, route);
  }

  /** Matching is transitive: below a sub-route is below the route. */
  lemma AtOrUnderTransitive(a: string, b: string, c: string)
    requires IsAtOrUnder(a, b) && IsAtOrUnder(b, c)
    ensures IsAtOrUnder(a, c)
  {
    AtOrUnderIsSegmentPrefix(a, b);
    AtOrUnderIsSegmentPrefix(b, c);
    AtOrUnderIsSegmentPrefix(a, c);
    if a != b && b != c {
      assert a[..|c|] == a[..|b|][..|c|];
      assert a[|c|] == a[..|b|][|c|];
    }
  }

  /** The route "/" matches only "/" itself and paths beginning with "//". */
  lemma RootMatchesOnlyRoot(path: string)
    ensures IsAtOrUnder(path, "/") <==> path == "/" || Text.StartsWith(path, "//")
  {
  }

  lemma DashboardProducts2IsNotUnderProducts()
    ensures !IsAtOrUnder("/dashboard/products2", "/dashboard/products")
  {
    SiblingDoesNotMatch("/dashboard/products2", "/dashboard/products");
  }
}
