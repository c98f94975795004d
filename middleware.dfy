/**
 * The route guard run before every page request: pages that need a session send a visitor without
 * one to the login page, and the login and registration pages send a signed-in user home.
 */
module Middleware {
  import opened Text

  const ProtectedRoutes: seq<string> := ["/projects", "/create"]

  const AuthRoutes: seq<string> := ["/login", "/register"]

  /** `routes.some(r => pathname.startsWith(r))`. */
  predicate StartsWithAny(pathname: string, routes: seq<string>)
    decreases |routes|
  {
    routes != [] && (StartsWith(pathname, routes[0]) || StartsWithAny(pathname, routes[1..]))
  }

  predicate IsProtected(pathname: string) {
    StartsWithAny(pathname, ProtectedRoutes)
  }

  predicate IsAuth(pathname: string) {
    StartsWithAny(pathname, AuthRoutes)
  }

  /** What the guard does with a request. */
  datatype Decision =
    | RedirectLogin(redirect: string)  // to `/login?redirect=<pathname>`
    | RedirectHome                     // to `/`
    | PassThrough                      // the refreshed-session response

  function Decide(pathname: string, hasSession: bool): Decision {
    if IsProtected(pathname) && !hasSession then RedirectLogin(pathname)
    else if IsAuth(pathname) && hasSession then RedirectHome
    else PassThrough
  }

  /** Protection is by prefix: a path is protected exactly when it starts with one of the two routes. */
  lemma ProtectedByPrefix(pathname: string)
    ensures IsProtected(pathname) <==> StartsWith(pathname, "/projects") || StartsWith(pathname, "/create")
    ensures IsAuth(pathname) <==> StartsWith(pathname, "/login") || StartsWith(pathname, "/register")
  {
    assert ProtectedRoutes[1..][1..] == [] && AuthRoutes[1..][1..] == [];
  }

  /** A prefix match is not a path-segment match: `/projectsX` is guarded like `/projects/1`. */
  lemma PrefixNotSegment()
    ensures IsProtected("/projectsX") && IsProtected("/projects/1") && IsProtected("/created")
    ensures !IsProtected("/") && !IsProtected("/login")
  {
    ProtectedByPrefix("/projectsX");
    ProtectedByPrefix("/projects/1");
    ProtectedByPrefix("/created");
    ProtectedByPrefix("/");
    ProtectedByPrefix("/login");
    assert "/projectsX"[..9] == "/projects";
    assert "/projects/1"[..9] == "/projects";
    assert "/created"[..7] == "/create";
    assert |"/login"| < |"/create"| < |"/projects"|;
  }

  /**
   * Without a session a protected page goes to the login page carrying the path back; with one,
   * the login and registration pages go home; every other request passes through.
   */
  lemma DecideCases(pathname: string, hasSession: bool)
    ensures IsProtected(pathname) && !hasSession <==> Decide(pathname, hasSession) == RedirectLogin(pathname)
    ensures IsAuth(pathname) && hasSession <==> Decide(pathname, hasSession) == RedirectHome
    ensures Decide(pathname, hasSession) == PassThrough <==>
      !(IsProtected(pathname) && !hasSession) && !(IsAuth(pathname) && hasSession)
    ensures Decide(pathname, hasSession).RedirectLogin? ==> !hasSession
    ensures Decide(pathname, hasSession).RedirectHome? ==> hasSession
  {
    if IsAuth(pathname) && hasSession {
      assert !(IsProtected(pathname) && !hasSession);
    }
  }

  /** Neither redirect loops: the login page lets a visitor without a session in, and home lets a signed-in user in. */
  lemma RedirectsSettle()
    ensures Decide("/login", false) == PassThrough
    ensures Decide("/", true) == PassThrough
  {
    PrefixNotSegment();
    ProtectedByPrefix("/");
    assert |"/"| < |"/login"| && |"/"| < |"/register"|;
  }
}
