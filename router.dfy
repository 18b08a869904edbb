/**
 * The router's navigation rules (src/router/index.ts): the route table, the `beforeEach`
 * authentication guard and the `afterEach` page title.
 */
module Router {
  import opened Common
  import Text

  /** An entry of the route table: path, name, `meta.title` and `meta.hideNavBar`. */
  datatype RouteRecord = RouteRecord(path: string, name: string, title: string, hideNavBar: bool)

  const Routes: seq<RouteRecord> := [
    RouteRecord("/", "home", "Lists", false),
    RouteRecord("/login", "login", "Login", true),
    RouteRecord("/register", "register", "Register", true),
    RouteRecord("/verify", "verify", "Verify Account", true),
    RouteRecord("/forgot-password", "forgot-password", "Forgot Password", true),
    RouteRecord("/reset-password", "reset-password", "Reset Password", true),
    RouteRecord("/list/:id", "list", "List", false),
    RouteRecord("/products", "products", "Products", false)]

  /** The paths reachable without a session. */
  const PublicRoutes: set<string> := {"/login", "/register", "/verify", "/forgot-password", "/reset-password"}

  /** The target of a navigation: its path, its full path (with query and hash) and `meta.title`. */
  datatype Location = Location(path: string, fullPath: string, title: Option<string>)

  /** What the guard returns instead of `undefined`. */
  datatype Redirect =
    | ToNamed(name: string, redirect: string)   // `{ name, query: { redirect } }`
    | ToPath(path: string)                      // `{ path }`

  /**
   * `beforeEach`: a private path without a session goes to `login` remembering where it was
   * going; a public path with a session goes home; anything else proceeds (`None`).
   */
  function BeforeEach(to: Location, isAuthenticated: bool): (r: Option<Redirect>)
    ensures r == Some(ToNamed("login", to.fullPath)) <==> to.path !in PublicRoutes && !isAuthenticated
    ensures r == Some(ToPath("/")) <==> to.path in PublicRoutes && isAuthenticated
    ensures r.None? <==> (to.path in PublicRoutes <==> !isAuthenticated)
  {
    if to.path !in PublicRoutes && !isAuthenticated then Some(ToNamed("login", to.fullPath))
    else if to.path in PublicRoutes && isAuthenticated then Some(ToPath("/"))
    else None
  }

  /** The path of the first route with a given name, if any. */
  function PathOfName(name: string): Option<string>
  {
    PathOfNameIn(Routes, name)
  }

  function PathOfNameIn(rs: seq<RouteRecord>, name: string): Option<string>
  {
    if rs == [] then None
    else if rs[0].name == name then Some(rs[0].path)
    else PathOfNameIn(rs[1..], name)
  }

  /** Where a redirect lands. */
  function RedirectPath(r: Redirect): Option<string>
  {
    match r
    case ToNamed(name, _) => PathOfName(name)
    case ToPath(p) => Some(p)
  }

  /**
   * The guard never redirects in a loop: the place it sends a navigation to is let through
   * with the same session state.
   */
  lemma RedirectTargetIsAllowed(to: Location, isAuthenticated: bool, fullPath: string, title: Option<string>)
    requires BeforeEach(to, isAuthenticated).Some?
    ensures var target := RedirectPath(BeforeEach(to, isAuthenticated).value);
      && target.Some?
      && BeforeEach(Location(target.value, fullPath, title), isAuthenticated).None?
  {
    assert Routes[1].name == "login";
    assert PathOfNameIn(Routes, "login") == Some("/login");
  }

  /** The public paths are exactly the routes that hide the navigation bar. */
  lemma PublicIffHidesNavBar()
    ensures forall i :: 0 <= i < |Routes| ==> (Routes[i].path in PublicRoutes <==> Routes[i].hideNavBar)
    ensures forall p | p in PublicRoutes :: exists i :: 0 <= i < |Routes| && Routes[i].path == p
  {
    assert Routes[1].path == "/login" && Routes[2].path == "/register" && Routes[3].path == "/verify";
    assert Routes[4].path == "/forgot-password" && Routes[5].path == "/reset-password";
  }

  const BaseTitle: string := "Listita"

  /** `afterEach`: `Listita - <title>` for a truthy page title, otherwise `Listita`. */
  function AfterEach(title: Option<string>): (r: string)
    ensures TextTruthy(title) ==> r == BaseTitle + " - " + title.value
    ensures !TextTruthy(title) ==> r == BaseTitle
  {
    if TextTruthy(title) then BaseTitle + " - " + title.value else BaseTitle
  }

  /** The document title determines the page title: distinct page titles never share a document title. */
  lemma AfterEachInjective(a: Option<string>, b: Option<string>)
    requires AfterEach(a) == AfterEach(b)
    ensures TextTruthy(a) <==> TextTruthy(b)
    ensures TextTruthy(a) ==> a == b
  {
    if TextTruthy(a) && TextTruthy(b) {
      assert a.value == AfterEach(a)[10..];
      assert b.value == AfterEach(b)[10..];
    }
  }
}
