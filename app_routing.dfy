/** The application shell (App.tsx): the route held in the URL fragment, the
    signed-in flag, and the choice of screen, which keeps the dashboard
    behind the sign-in. `window.location.hash` is a field of the model. */
module AppRouting {
  import opened Text
  import DashboardLayout

  const DashboardPrefix: string := "/dashboard"
  const OverviewPath: string := "/dashboard/overview"

  /** The route read at start-up: the fragment without its '#', or "/" when
      that is empty. `hash` is `window.location.hash`, "" or starting with
      '#'. */
  function InitialRoute(hash: string): (route: string)
    ensures route != ""
  {
    var fragment := if |hash| >= 1 then hash[1..] else "";
    if fragment == "" then "/" else fragment
  }

  /** The screens the shell can show; the dashboard gets the route as its
      current path. */
  datatype Screen = Home | Login | Dashboard(path: string)

  /** The routing `if`: a dashboard route shows the dashboard only when
      signed in and the sign-in page otherwise; "/login" shows the sign-in
      page; anything else the home page. */
  function ScreenOf(route: string, isAuthenticated: bool): Screen {
    if StartsWith(route, DashboardPrefix) then
      if isAuthenticated then Dashboard(route) else Login
    else if route == "/login" then Login
    else Home
  }

  /** The guard: the dashboard is shown exactly for a dashboard route while
      signed in, and then with that route. */
  lemma RouteGuard(route: string, isAuthenticated: bool)
    ensures ScreenOf(route, isAuthenticated).Dashboard? <==> StartsWith(route, DashboardPrefix) && isAuthenticated
    ensures ScreenOf(route, isAuthenticated).Dashboard? ==> ScreenOf(route, isAuthenticated).path == route
    ensures ScreenOf(route, isAuthenticated) == Login <==>
      (StartsWith(route, DashboardPrefix) && !isAuthenticated) || route == "/login"
  {
    if route == "/login" {
      assert route[1] == 'l' && DashboardPrefix[1] == 'd';
      assert !StartsWith(route, DashboardPrefix);
    }
  }

  /** What `navigate` writes into the fragment reads back as the same route
      when the page is loaded again. */
  lemma ReloadKeepsRoute(path: string)
    requires path != ""
    ensures InitialRoute("#" + path) == path
  {
    assert ("#" + path)[1..] == path;
  }

  /** Signing in lands on the overview page of the dashboard. */
  lemma LoginShowsOverview()
    ensures ScreenOf(OverviewPath, true) == Dashboard(OverviewPath)
    ensures DashboardLayout.PageOf(OverviewPath) == DashboardLayout.Overview
  {
    assert OverviewPath[..|DashboardPrefix|] == DashboardPrefix;
    assert OverviewPath[11] == 'o';
  }

  class App {
    var route: string
    var isAuthenticated: bool
    /** `window.location.hash`, as last assigned. */
    var hash: string

    constructor (initialHash: string)
      ensures route == InitialRoute(initialHash) && !isAuthenticated && hash == initialHash
    {
      route := InitialRoute(initialHash);
      isAuthenticated := false;
      hash := initialHash;
    }

    /** `navigate`: the route and the fragment both become `path`. */
    method Navigate(path: string)
      modifies this
      ensures route == path && hash == "#" + path && isAuthenticated == old(isAuthenticated)
    {
      route := path;
      hash := "#" + path;
    }

    method HandleLogin()
      modifies this
      ensures isAuthenticated && route == OverviewPath && hash == "#" + OverviewPath
      ensures ScreenOf(route, isAuthenticated) == Dashboard(OverviewPath)
    {
      isAuthenticated := true;
      Navigate(OverviewPath);
      LoginShowsOverview();
    }

    method HandleLogout()
      modifies this
      ensures !isAuthenticated && route == "/" && hash == "#/"
      ensures ScreenOf(route, isAuthenticated) == Home
    {
      isAuthenticated := false;
      Navigate("/");
    }
  }
}
