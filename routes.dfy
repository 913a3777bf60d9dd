/** The route guards and the route table. A guard decides, from the session
    flags, whether to wait, render its children or send the visitor elsewhere. */
module Routes {

  /** What a guard or a route renders. */
  datatype Element =
    | Loader
    | Children
    | Navigate(to: string, replace: bool)
    | LoadingSession
    | HomePage
    | LoginPage
    | RegisterPage

  /** `PrivateRoute`: wait until the session is known and settled, then render
      the children for a signed-in visitor and send anyone else to `/login`. */
  function PrivateRoute(initialized: bool, loading: bool, isAuthenticated: bool): (r: Element)
    ensures !initialized ==> r == Loader
    ensures initialized && loading ==> r == Loader
    ensures initialized && !loading && isAuthenticated ==> r == Children
    ensures initialized && !loading && !isAuthenticated ==> r == Navigate("/login", true)
  {
    if !initialized then Loader
    else if loading then Loader
    else if isAuthenticated then Children else Navigate("/login", true)
  }

  /** `PublicRoute`: wait the same way, then send a signed-in visitor home and
      render the children for anyone else. */
  function PublicRoute(initialized: bool, loading: bool, isAuthenticated: bool): (r: Element)
    ensures !initialized ==> r == Loader
    ensures initialized && loading ==> r == Loader
    ensures initialized && !loading && isAuthenticated ==> r == Navigate("/", true)
    ensures initialized && !loading && !isAuthenticated ==> r == Children
  {
    if !initialized then Loader
    else if loading then Loader
    else if isAuthenticated then Navigate("/", true) else Children
  }

  /** The guard defined inside the route table: it shows a placeholder until
      the session is known and never looks at `loading`. */
  function InlineGuard(initialized: bool, isAuthenticated: bool): (r: Element)
    ensures !initialized ==> r == LoadingSession
    ensures initialized && isAuthenticated ==> r == Children
    ensures initialized && !isAuthenticated ==> r == Navigate("/login", true)
  {
    if !initialized then LoadingSession
    else if isAuthenticated then Children else Navigate("/login", true)
  }

  /** Both guards wait exactly while the session is unknown or loading. */
  lemma GuardsWaitTogether(initialized: bool, loading: bool, isAuthenticated: bool)
    ensures PrivateRoute(initialized, loading, isAuthenticated) == Loader
      <==> !initialized || loading
    ensures PublicRoute(initialized, loading, isAuthenticated) == Loader
      <==> !initialized || loading
  {
  }

  /** Once the session is settled, exactly one of the two guards renders its
      children, and the other redirects. */
  lemma GuardsComplementary(loading: bool, isAuthenticated: bool)
    requires !loading
    ensures (PrivateRoute(true, loading, isAuthenticated) == Children)
      != (PublicRoute(true, loading, isAuthenticated) == Children)
    ensures PrivateRoute(true, loading, isAuthenticated).Navigate?
      != PublicRoute(true, loading, isAuthenticated).Navigate?
  {
  }

  /** The inline guard agrees with `PrivateRoute` on the children it lets
      through, except that it renders them even while a request is loading. */
  lemma InlineGuardIgnoresLoading(initialized: bool, loading: bool, isAuthenticated: bool)
    ensures initialized && !loading ==>
      InlineGuard(initialized, isAuthenticated) == PrivateRoute(initialized, loading, isAuthenticated)
    ensures (InlineGuard(initialized, isAuthenticated) == Children)
      <==> (PrivateRoute(initialized, loading, isAuthenticated) == Children || (initialized && loading && isAuthenticated))
  {
  }

  /** The path with its trailing slashes removed (the root stays `/`). */
  function TrimTrailingSlashes(path: string): (r: string)
    ensures |r| <= |path| && r == path[..|r|]
    ensures |r| > 1 ==> r[|r| - 1] != '/'
    ensures forall i :: |r| <= i < |path| ==> path[i] == '/'
    decreases |path|
  {
    if |path| > 1 && path[|path| - 1] == '/' then TrimTrailingSlashes(path[..|path| - 1]) else path
  }

  /** `<Routes>`: the three public pages, and every other path redirected home.
      A trailing slash does not change the match. */
  function AppRoutes(path: string): (r: Element)
  {
    var p := TrimTrailingSlashes(path);
    if p == "/" then HomePage
    else if p == "/login" then LoginPage
    else if p == "/register" then RegisterPage
    else Navigate("/", true)
  }

  /** The table: the three pages are reachable unguarded, every other path
      lands on a redirect to `/`, and that redirect reaches the home page in one hop. */
  lemma AppRoutesTable(path: string)
    ensures AppRoutes("/") == HomePage && AppRoutes("/login") == LoginPage && AppRoutes("/register") == RegisterPage
    ensures AppRoutes("/login/") == LoginPage
    ensures path !in {"/", "/login", "/register"} && (path == [] || path[|path| - 1] != '/') ==>
      AppRoutes(path) == Navigate("/", true)
    ensures AppRoutes(path).Navigate? ==> AppRoutes(AppRoutes(path).to) == HomePage
  {
    assert TrimTrailingSlashes("/login/") == "/login" by {
      assert "/login/"[..6] == "/login";
    }
  }

  /** No live route renders through a guard: every path yields a page or the redirect home. */
  lemma NoRouteIsGuarded(path: string)
    ensures AppRoutes(path) in {HomePage, LoginPage, RegisterPage, Navigate("/", true)}
    ensures AppRoutes(path) != Children && AppRoutes(path) != Loader && AppRoutes(path) != LoadingSession
  {
  }
}
