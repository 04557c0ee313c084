/** The application's route guards and route table: which screen a path
    shows for a given auth state. */
module Routes {
  import opened Js
  import Auth

  /** What a guard renders: the loading placeholder, its children, or a
      `<Navigate>` to another path. */
  datatype Guarded = Placeholder | Children | Redirect(to: string)

  /** `ProtectedRoute`: children only for a signed-in user. */
  function ProtectedRoute(auth: Auth.AuthState): (r: Guarded)
    ensures auth.loading ==> r == Placeholder
    ensures !auth.loading ==> (r == Children <==> auth.user.Some?)
    ensures !auth.loading && auth.user.None? ==> r == Redirect("/login")
  {
    if auth.loading then Placeholder
    else if auth.user.Some? then Children
    else Redirect("/login")
  }

  /** `PublicRoute`: children only while nobody is signed in. */
  function PublicRoute(auth: Auth.AuthState): (r: Guarded)
    ensures auth.loading ==> r == Placeholder
    ensures !auth.loading ==> (r == Redirect("/dashboard") <==> auth.user.Some?)
    ensures !auth.loading && auth.user.None? ==> r == Children
  {
    if auth.loading then Placeholder
    else if auth.user.Some? then Redirect("/dashboard")
    else Children
  }

  /** Once loading is over, exactly one of the two guards shows its
      children; while loading, neither does and neither redirects. */
  lemma GuardsComplementary(auth: Auth.AuthState)
    ensures auth.loading ==> ProtectedRoute(auth) == PublicRoute(auth) == Placeholder
    ensures !auth.loading ==> (ProtectedRoute(auth) == Children <==> PublicRoute(auth) != Children)
  {
  }

  /** The screens the routes lead to. */
  datatype Page = LoginPage | DashboardPage | ResidentsPage | VehiclesPage
                | VisitorsPage | InfractionsPage | CamerasPage | VisionPage

  /** A route's element: a page behind one of the guards, or a redirect. */
  datatype Element = Public(page: Page) | Protected(page: Page) | Navigate(to: string)

  datatype Route = Route(path: string, element: Element)

  /** The route table of `App`. */
  const Table: seq<Route> := [
    Route("/login", Public(LoginPage)),
    Route("/dashboard", Protected(DashboardPage)),
    Route("/residentes", Protected(ResidentsPage)),
    Route("/vehiculos", Protected(VehiclesPage)),
    Route("/visitantes", Protected(VisitorsPage)),
    Route("/infracciones", Protected(InfractionsPage)),
    Route("/camaras", Protected(CamerasPage)),
    Route("/vision", Protected(VisionPage)),
    Route("/", Navigate("/dashboard"))
  ]

  /** The element the table gives a path. */
  function Lookup(routes: seq<Route>, path: string): (r: Option<Element>)
    ensures r.Some? ==> Route(path, r.value) in routes
    ensures r.None? ==> forall i :: 0 <= i < |routes| ==> routes[i].path != path
    decreases |routes|
  {
    if routes == [] then None
    else if routes[0].path == path then Some(routes[0].element)
    else Lookup(routes[1..], path)
  }

  predicate DistinctPaths(routes: seq<Route>)
  {
    forall i, j :: 0 <= i < j < |routes| ==> routes[i].path != routes[j].path
  }

  /** When no path occurs twice, a route's own path finds that route. */
  lemma {:induction false} LookupFindsRoute(routes: seq<Route>, i: nat)
    requires DistinctPaths(routes) && i < |routes|
    ensures Lookup(routes, routes[i].path) == Some(routes[i].element)
    decreases |routes|
  {
    if i > 0 {
      assert routes[0].path != routes[i].path;
      assert routes[1..][i - 1] == routes[i];
      LookupFindsRoute(routes[1..], i - 1);
    }
  }

  // ---------------------------------------------------------------------
  // Path matching

  /** ASCII lower case, as a case-insensitive JavaScript regular expression
      without the Unicode flag compares letters of these patterns. */
  function LowerChar(c: char): char
  {
    if 'A' <= c <= 'Z' then (c as int + 32) as char else c
  }

  /** React Router's match of a route pattern without parameters: the path
      spells the pattern up to letter case, followed by any number of
      slashes (route paths are case-insensitive unless marked otherwise,
      and trailing slashes are ignored). */
  predicate PathMatches(pattern: string, path: string)
  {
    |pattern| <= |path| &&
    (forall k :: 0 <= k < |pattern| ==> LowerChar(path[k]) == LowerChar(pattern[k])) &&
    (forall k :: |pattern| <= k < |path| ==> path[k] == '/')
  }

  /** A pattern in canonical spelling: non-empty, lower case, and without
      a trailing slash unless it is a single character. */
  predicate CanonicalPattern(p: string)
  {
    |p| >= 1 &&
    (forall k :: 0 <= k < |p| ==> LowerChar(p[k]) == p[k]) &&
    (|p| == 1 || p[|p| - 1] != '/')
  }

  function Lower(s: string): (r: string)
  {
    seq(|s|, k requires 0 <= k < |s| => LowerChar(s[k]))
  }

  /** Trailing slashes removed, down to a single character. */
  function TrimSlashes(s: string): (r: string)
    ensures r <= s
    ensures |s| >= 1 ==> |r| >= 1
    ensures forall k :: |r| <= k < |s| ==> s[k] == '/'
    ensures |r| > 1 ==> r[|r| - 1] != '/'
    decreases |s|
  {
    if |s| > 1 && s[|s| - 1] == '/' then TrimSlashes(s[..|s| - 1]) else s
  }

  /** The spelling of a path that the table is searched for. */
  function Canonical(path: string): string
  {
    TrimSlashes(Lower(path))
  }

  /** Trimming stops at the first character that is not a trailing slash. */
  lemma {:induction false} TrimSlashesAt(s: string, n: nat)
    requires 1 <= n <= |s|
    requires forall k :: n <= k < |s| ==> s[k] == '/'
    requires n == 1 || s[n - 1] != '/'
    ensures TrimSlashes(s) == s[..n]
    decreases |s|
  {
    if n < |s| {
      var s' := s[..|s| - 1];
      assert s'[..n] == s[..n];
      TrimSlashesAt(s', n);
    }
  }

  /** For a canonical pattern, React Router's match is equality of the
      canonical spelling. */
  lemma CanonicalMatches(p: string, path: string)
    requires CanonicalPattern(p)
    ensures PathMatches(p, path) <==> Canonical(path) == p
  {
    var low := Lower(path);
    assert |low| == |path| && forall k :: 0 <= k < |path| ==> low[k] == LowerChar(path[k]);
    if PathMatches(p, path) {
      TrimSlashesAt(low, |p|);
      assert low[..|p|] == p;
    }
    if Canonical(path) == p {
      var t := TrimSlashes(low);
      assert forall k :: 0 <= k < |p| ==> low[k] == p[k];
      assert forall k :: |p| <= k < |path| ==> LowerChar(path[k]) == '/';
    }
  }

  /** Every route path of the table is in canonical spelling. */
  lemma TablePatterns()
    ensures forall i :: 0 <= i < |Table| ==> CanonicalPattern(Table[i].path)
  {
  }

  /** Each route path is its own canonical spelling. */
  lemma TableCanonical(i: nat)
    requires i < |Table|
    ensures Canonical(Table[i].path) == Table[i].path
  {
    TablePatterns();
    CanonicalMatches(Table[i].path, Table[i].path);
  }

  /** What the app shows at a path. */
  datatype Screen = Loading | Show(page: Page) | GoTo(path: string)

  function Guard(g: Guarded, page: Page): Screen
  {
    match g
    case Placeholder => Loading
    case Children => Show(page)
    case Redirect(to) => GoTo(to)
  }

  /** The screen a route's element shows. */
  function ScreenOf(e: Element, auth: Auth.AuthState): Screen
  {
    match e
    case Public(page) => Guard(PublicRoute(auth), page)
    case Protected(page) => Guard(ProtectedRoute(auth), page)
    case Navigate(to) => GoTo(to)
  }

  /** The screen at a path: the table is searched for the path's canonical
      spelling; `None` when no route matches. */
  function Render(path: string, auth: Auth.AuthState): Option<Screen>
  {
    match Lookup(Table, Canonical(path))
    case None => None
    case Some(e) => Some(ScreenOf(e, auth))
  }

  /** Following the redirects from a screen, at most `hops` of them. */
  function FollowFrom(s: Option<Screen>, auth: Auth.AuthState, hops: nat): Option<Screen>
    decreases hops
  {
    if hops > 0 && s.Some? && s.value.GoTo? then FollowFrom(Render(s.value.path, auth), auth, hops - 1) else s
  }

  /** Following the redirects from a path, at most `hops` of them. */
  function Follow(path: string, auth: Auth.AuthState, hops: nat): Option<Screen>
  {
    FollowFrom(Render(path, auth), auth, hops)
  }

  /** The paths of the table, each once. */
  lemma TablePathsDistinct()
    ensures DistinctPaths(Table)
  {
  }

  /** `/login` is the only public route, the seven routes after it are the
      protected ones, and the root path is the only redirect. */
  lemma OnlyLoginIsPublic()
    ensures |Table| == 9
    ensures forall i :: 0 <= i < |Table| ==> (Table[i].element.Public? <==> Table[i].path == "/login")
    ensures forall i :: 0 <= i < |Table| ==> (Table[i].element.Protected? <==> 1 <= i <= 7)
    ensures forall i :: 0 <= i < |Table| ==> (Table[i].element.Navigate? <==> Table[i].path == "/")
  {
    TablePathsDistinct();
  }

  /** The root path redirects to the dashboard whatever the auth state. */
  lemma RootRedirects(auth: Auth.AuthState)
    ensures Render("/", auth) == Some(GoTo("/dashboard"))
  {
    RenderRoute(8, auth);
  }

  /** The login page sits behind the public guard, every other page behind
      the protected one. */
  lemma PagesOfTable(r: Route)
    requires r in Table
    ensures r.element.Public? ==> r.element == Public(LoginPage)
    ensures r.element.Protected? ==> r.element.page != LoginPage
    ensures r.element.Navigate? ==> r.element == Navigate("/dashboard")
  {
  }

  /** A page other than the login screen is shown only to a signed-in user
      once loading is over, and the login screen only to nobody signed in. */
  lemma PagesNeedUser(path: string, auth: Auth.AuthState, page: Page)
    requires Render(path, auth) == Some(Show(page))
    ensures !auth.loading
    ensures page != LoginPage ==> auth.user.Some?
    ensures page == LoginPage ==> auth.user.None?
  {
    var c := Canonical(path);
    var e := Lookup(Table, c).value;
    assert Route(c, e) in Table;
    PagesOfTable(Route(c, e));
    ElementShows(e, auth, page);
  }

  /** What an element of the table's kinds shows, and to whom. */
  lemma ElementShows(e: Element, auth: Auth.AuthState, page: Page)
    requires e == Public(LoginPage) || (e.Protected? && e.page != LoginPage) || e.Navigate?
    requires ScreenOf(e, auth) == Show(page)
    ensures !auth.loading
    ensures page != LoginPage ==> auth.user.Some?
    ensures page == LoginPage ==> auth.user.None?
  {
  }

  /** The screen the table gives its i-th route. */
  lemma RenderRoute(i: nat, auth: Auth.AuthState)
    requires i < |Table|
    ensures Render(Table[i].path, auth) == Some(ScreenOf(Table[i].element, auth))
  {
    TablePathsDistinct();
    TableCanonical(i);
    LookupFindsRoute(Table, i);
  }

  /** Where the two redirect targets lead. */
  lemma RedirectTargets(auth: Auth.AuthState)
    ensures Render("/login", auth) == Some(Guard(PublicRoute(auth), LoginPage))
    ensures Render("/dashboard", auth) == Some(Guard(ProtectedRoute(auth), DashboardPage))
  {
    RenderRoute(0, auth);
    RenderRoute(1, auth);
  }

  /** Where a path is meant to land: the placeholder while loading, the
      login page for nobody signed in, and otherwise the given page. */
  function Landing(auth: Auth.AuthState, own: Page): Screen
  {
    if auth.loading then Loading
    else if auth.user.None? then Show(LoginPage)
    else Show(own)
  }

  /** Redirecting to `/login` shows, one hop later, the login route's guard. */
  lemma StepToLogin(auth: Auth.AuthState, hops: nat)
    requires hops >= 1
    ensures FollowFrom(Some(GoTo("/login")), auth, hops) ==
              FollowFrom(Some(Guard(PublicRoute(auth), LoginPage)), auth, hops - 1)
  {
    RedirectTargets(auth);
  }

  /** Redirecting to `/dashboard` shows, one hop later, the dashboard route's guard. */
  lemma StepToDashboard(auth: Auth.AuthState, hops: nat)
    requires hops >= 1
    ensures FollowFrom(Some(GoTo("/dashboard")), auth, hops) ==
              FollowFrom(Some(Guard(ProtectedRoute(auth), DashboardPage)), auth, hops - 1)
  {
    RedirectTargets(auth);
  }

  /** The dashboard route's screen settles within one redirect. */
  lemma DashboardScreenSettles(auth: Auth.AuthState, hops: nat)
    requires hops >= 1
    ensures FollowFrom(Some(Guard(ProtectedRoute(auth), DashboardPage)), auth, hops) ==
              Some(Landing(auth, DashboardPage))
  {
    if !auth.loading && auth.user.None? {
      StepToLogin(auth, hops);
    }
  }

  /** The login route's screen settles within one redirect. */
  lemma LoginScreenSettles(auth: Auth.AuthState, hops: nat)
    requires hops >= 1
    ensures FollowFrom(Some(Guard(PublicRoute(auth), LoginPage)), auth, hops) ==
              Some(Landing(auth, DashboardPage))
  {
    if !auth.loading && auth.user.Some? {
      StepToDashboard(auth, hops);
    }
  }

  /** The dashboard settles within one redirect. */
  lemma FollowDashboard(auth: Auth.AuthState, hops: nat)
    requires hops >= 1
    ensures Follow("/dashboard", auth, hops) == Some(Landing(auth, DashboardPage))
  {
    RedirectTargets(auth);
    DashboardScreenSettles(auth, hops);
  }

  /** The login path settles within one redirect. */
  lemma FollowLogin(auth: Auth.AuthState, hops: nat)
    requires hops >= 1
    ensures Follow("/login", auth, hops) == Some(Landing(auth, DashboardPage))
  {
    RedirectTargets(auth);
    LoginScreenSettles(auth, hops);
  }

  /** The element of every route settles within two redirects. */
  lemma SettleFrom(e: Element, auth: Auth.AuthState, hops: nat)
    requires e == Public(LoginPage) || e.Protected? || e == Navigate("/dashboard")
    requires hops >= 2
    ensures FollowFrom(Some(ScreenOf(e, auth)), auth, hops) ==
              Some(Landing(auth, if e.Protected? then e.page else DashboardPage))
  {
    match e {
      case Public(page) =>
        LoginScreenSettles(auth, hops);
      case Protected(page) =>
        if !auth.loading && auth.user.None? {
          StepToLogin(auth, hops);
        }
      case Navigate(to) =>
        StepToDashboard(auth, hops);
        DashboardScreenSettles(auth, hops - 1);
    }
  }

  /** From every path of the table, at most two redirects lead to a screen
      that is not a redirect: the placeholder while loading, the login page
      for nobody signed in, and otherwise the path's own page (the dashboard
      for `/login` and `/`). */
  lemma RedirectsSettle(i: nat, auth: Auth.AuthState, hops: nat)
    requires i < |Table| && hops >= 2
    ensures Follow(Table[i].path, auth, hops) ==
              Some(Landing(auth, if Table[i].element.Protected? then Table[i].element.page else DashboardPage))
  {
    var r := Table[i];
    RenderRoute(i, auth);
    PagesOfTable(r);
    assert r.element == Public(LoginPage) || r.element.Protected? || r.element == Navigate("/dashboard");
    SettleFrom(r.element, auth, hops);
    assert Follow(r.path, auth, hops) == FollowFrom(Some(ScreenOf(r.element, auth)), auth, hops);
  }

  /** Two redirects are needed: for nobody signed in, the root path is still
      a redirect after one. */
  lemma RootNeedsTwoHops(auth: Auth.AuthState)
    requires !auth.loading && auth.user.None?
    ensures Follow("/", auth, 1) == Some(GoTo("/login"))
  {
    RootRedirects(auth);
    StepToDashboard(auth, 1);
  }

  // ---------------------------------------------------------------------
  // Rendering against React Router's match

  /** A path renders exactly when some route matches it in React Router's
      sense, and then it renders that route's element. */
  lemma RenderMatchesRoute(path: string, auth: Auth.AuthState)
    ensures Render(path, auth).None? <==>
              forall i :: 0 <= i < |Table| ==> !PathMatches(Table[i].path, path)
    ensures forall i :: 0 <= i < |Table| && PathMatches(Table[i].path, path) ==>
              Render(path, auth) == Some(ScreenOf(Table[i].element, auth))
  {
    TablePatterns();
    TablePathsDistinct();
    forall i | 0 <= i < |Table|
      ensures PathMatches(Table[i].path, path) <==> Canonical(path) == Table[i].path
    {
      CanonicalMatches(Table[i].path, path);
    }
    forall i | 0 <= i < |Table| && PathMatches(Table[i].path, path)
      ensures Render(path, auth) == Some(ScreenOf(Table[i].element, auth))
    {
      LookupFindsRoute(Table, i);
    }
  }

  /** No path matches two routes of the table, so taking the first match
      agrees with React Router's ranking. */
  lemma AtMostOneRouteMatches(path: string, i: nat, j: nat)
    requires i < |Table| && j < |Table|
    requires PathMatches(Table[i].path, path) && PathMatches(Table[j].path, path)
    ensures i == j
  {
    TablePatterns();
    TablePathsDistinct();
    CanonicalMatches(Table[i].path, path);
    CanonicalMatches(Table[j].path, path);
  }

  /** One more trailing slash does not change the screen. */
  lemma TrailingSlashIgnored(path: string, auth: Auth.AuthState)
    requires path != []
    ensures Render(path + "/", auth) == Render(path, auth)
  {
    var low := Lower(path);
    assert Lower(path + "/") == low + "/";
    assert (low + "/")[..|low + "/"| - 1] == low;
  }

  /** Letter case does not change the screen. */
  lemma CaseIgnored(path: string, auth: Auth.AuthState)
    ensures Render(Lower(path), auth) == Render(path, auth)
  {
    assert Lower(Lower(path)) == Lower(path);
  }
}
