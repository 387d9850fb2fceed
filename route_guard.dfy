/** The request middleware of frontend/src/middleware.ts: paths under a
    protected prefix need a `token` cookie, and requests without one are
    redirected to the sign-in page. */
module RouteGuard {
  import opened Wrappers

  /** What the middleware answers: let the request through, or redirect it
      to `location` (a path resolved against the request's own URL). */
  datatype Decision = Continue | Redirect(location: string)

  /** A cookie as the request's cookie store returns it. */
  datatype Cookie = Cookie(name: string, value: string)

  const ProtectedRoutes: seq<string> := ["/dashboard"]
  const SignInPath := "/signin"

  /** `routes.some(route => path.startsWith(route))`. */
  function AnyPrefix(routes: seq<string>, path: string): (b: bool)
    ensures b <==> exists i :: 0 <= i < |routes| && routes[i] <= path
  {
    if routes == [] then false
    else routes[0] <= path || AnyPrefix(routes[1..], path)
  }

  predicate IsProtected(path: string) {
    AnyPrefix(ProtectedRoutes, path)
  }

  /** The middleware for a request to `path` carrying the `token` cookie
      (or not). A cookie object is truthy whatever its value, so only its
      absence counts; the `try` block after the absence check always lets
      the request through. */
  function Middleware(path: string, token: Option<Cookie>): (d: Decision)
    ensures d.Redirect? <==> IsProtected(path) && token.None?
    ensures d.Redirect? ==> d.location == SignInPath
  {
    if IsProtected(path) then
      if token.None? then Redirect(SignInPath)
      else
        // the verification block: its `else` branch, which throws and
        // redirects, is not reachable with a cookie present
        if token.Some? then Continue else Redirect(SignInPath)
    else Continue
  }

  /** The protected paths are exactly those that begin with `/dashboard`,
      including ones such as `/dashboard-old` that are not below it. */
  lemma ProtectedMeansDashboardPrefix(path: string)
    ensures IsProtected(path) <==> "/dashboard" <= path
  {
    assert ProtectedRoutes[0] == "/dashboard";
  }

  /** The sign-in page is not protected, so a redirect never loops. */
  lemma SignInReachable(token: Option<Cookie>)
    ensures Middleware(SignInPath, token) == Continue
  {
    assert SignInPath[1] != "/dashboard"[1];
    ProtectedMeansDashboardPrefix(SignInPath);
  }

  /** Only the presence of the cookie matters: any value, even an empty
      one, lets the request through. */
  lemma TokenValueIgnored(path: string, c: Cookie)
    ensures Middleware(path, Some(c)) == Continue
  {
  }
}
