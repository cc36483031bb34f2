/** The router: the two guards that wrap pages on the auth context's `isLoading` and
    `isAuthenticated`, and the route table that puts each path under one of them. */
module AppRoutes {
  import opened Common

  /** What a guard renders. */
  datatype GuardView = LoadingScreen | RedirectTo(path: string) | Children

  /** `ProtectedRoute`: loading first, then a redirect to the login page for a visitor. */
  function ProtectedRoute(isLoading: bool, isAuthenticated: bool): (v: GuardView)
    ensures v == LoadingScreen <==> isLoading
    ensures v == RedirectTo("/login") <==> !isLoading && !isAuthenticated
    ensures v == Children <==> !isLoading && isAuthenticated
  {
    if isLoading then LoadingScreen
    else if !isAuthenticated then RedirectTo("/login")
    else Children
  }

  /** `PublicRoute`: loading first, then a redirect to the dashboard for a signed-in user. */
  function PublicRoute(isLoading: bool, isAuthenticated: bool): (v: GuardView)
    ensures v == LoadingScreen <==> isLoading
    ensures v == RedirectTo("/dashboard") <==> !isLoading && isAuthenticated
    ensures v == Children <==> !isLoading && !isAuthenticated
  {
    if isLoading then LoadingScreen
    else if isAuthenticated then RedirectTo("/dashboard")
    else Children
  }

  /** Once loading is over, exactly one of the two guards renders its page, and the other
      redirects to a page the first one guards. */
  lemma GuardsAreComplementary(isAuthenticated: bool)
    ensures (ProtectedRoute(false, isAuthenticated) == Children) != (PublicRoute(false, isAuthenticated) == Children)
    ensures ProtectedRoute(false, isAuthenticated).RedirectTo? ==> PublicRoute(false, isAuthenticated) == Children
    ensures PublicRoute(false, isAuthenticated).RedirectTo? ==> ProtectedRoute(false, isAuthenticated) == Children
  {
  }

  datatype Page = GetStartedPage | LoginPage | RegisterPage | DashboardHome | WorkoutPlansPage
                | WorkoutHistoryPage | CalorieCounterPage | BmiCalculatorPage | NotFoundPage

  datatype Guard = PublicGuard | ProtectedGuard | NoGuard

  datatype Route = Route(guard: Guard, page: Page)

  /** The routes wrapped in `PublicRoute`. */
  const PublicRoutes: seq<(string, Page)> := [("/", GetStartedPage), ("/login", LoginPage), ("/register", RegisterPage)]

  /** `/dashboard`, wrapped in `ProtectedRoute`, with its index page and its four children, the
      nested paths written out in full. */
  const ProtectedRoutes: seq<(string, Page)> := [
    ("/dashboard", DashboardHome),
    ("/dashboard/workout-plans", WorkoutPlansPage),
    ("/dashboard/workout-history", WorkoutHistoryPage),
    ("/dashboard/calorie-counter", CalorieCounterPage),
    ("/dashboard/bmi-calculator", BmiCalculatorPage)
  ]

  /** The page a table gives a path, if any. */
  function Lookup(path: string, table: seq<(string, Page)>): (p: Option<Page>)
    ensures p.Some? <==> exists i :: 0 <= i < |table| && table[i].0 == path
    ensures p.Some? ==> (path, p.value) in table
  {
    if table == [] then None
    else if table[0].0 == path then Some(table[0].1)
    else Lookup(path, table[1..])
  }

  /** No table entry leads to NotFound. */
  lemma TablesHoldPages(path: string, p: Page)
    requires (path, p) in PublicRoutes + ProtectedRoutes
    ensures p != NotFoundPage
  {
  }

  /** Which route matches a path: a public page, a protected page, or NotFound (`*`). */
  function Resolve(path: string): (r: Route)
    ensures r.guard == PublicGuard <==> exists i :: 0 <= i < |PublicRoutes| && PublicRoutes[i].0 == path
    ensures r.guard == ProtectedGuard <==>
              (exists i :: 0 <= i < |ProtectedRoutes| && ProtectedRoutes[i].0 == path)
              && !(exists i :: 0 <= i < |PublicRoutes| && PublicRoutes[i].0 == path)
    ensures r.guard == PublicGuard ==> (path, r.page) in PublicRoutes
    ensures r.guard == ProtectedGuard ==> (path, r.page) in ProtectedRoutes
    ensures r.guard == NoGuard <==> r.page == NotFoundPage
  {
    var public := Lookup(path, PublicRoutes);
    var protected := Lookup(path, ProtectedRoutes);
    if public.Some? then
      TablesHoldPages(path, public.value);
      Route(PublicGuard, public.value)
    else if protected.Some? then
      TablesHoldPages(path, protected.value);
      Route(ProtectedGuard, protected.value)
    else Route(NoGuard, NotFoundPage)
  }

  /** No path is in both tables, so the order of the route elements does not matter. */
  lemma {:induction false} TablesDisjoint(i: nat, j: nat)
    requires i < |PublicRoutes| && j < |ProtectedRoutes|
    ensures PublicRoutes[i].0 != ProtectedRoutes[j].0
  {
    assert |PublicRoutes[i].0| < |ProtectedRoutes[j].0|;
  }

  /** The page that opens after "Create Workout" has no route: it reaches NotFound, unguarded. */
  lemma CreateWorkoutIsNotRouted()
    ensures Resolve("/dashboard/create-workout") == Route(NoGuard, NotFoundPage)
  {
    var path := "/dashboard/create-workout";
    forall i | 0 <= i < |ProtectedRoutes| ensures ProtectedRoutes[i].0 != path {
      assert |ProtectedRoutes[i].0| != |path| || ProtectedRoutes[i].0[11] != path[11];
    }
    forall i | 0 <= i < |PublicRoutes| ensures PublicRoutes[i].0 != path {
      assert |PublicRoutes[i].0| != |path|;
    }
  }
}
