/** The top-level navigation: the splash delay, then the sign-in screen until the
    user signs in, then the dashboard or the live order screen. */
module AppNav {

  datatype Screen = DashboardScreen | LiveOrdersScreen

  /** `isSplash`, `isLoggedIn` and `screen`. */
  datatype Nav = Nav(splash: bool, loggedIn: bool, screen: Screen)

  /** What is on screen. */
  datatype View = SplashView | LoginView | DashboardView | LiveOrdersView

  /** How long the splash shows, in milliseconds. */
  const SplashDelayMs := 1500

  const Initial := Nav(true, false, DashboardScreen)

  /** The view a state renders: the splash hides everything, then sign-in, then the screen. */
  function Rendered(n: Nav): (v: View)
    ensures v == SplashView <==> n.splash
    ensures v == LoginView <==> !n.splash && !n.loggedIn
    ensures v == DashboardView <==> !n.splash && n.loggedIn && n.screen == DashboardScreen
    ensures v == LiveOrdersView <==> !n.splash && n.loggedIn && n.screen == LiveOrdersScreen
  {
    if n.splash then SplashView
    else if !n.loggedIn then LoginView
    else match n.screen
      case DashboardScreen => DashboardView
      case LiveOrdersScreen => LiveOrdersView
  }

  /** The events: the splash timer firing, and the callbacks each screen is given. */
  datatype Event = SplashTimer | OnLogin | OnLogout | OnLiveOrders | OnBack

  /** Whether an event can happen in a view: a callback fires only from the screen it was given to. */
  predicate Offered(v: View, e: Event) {
    match e
    case SplashTimer => true
    case OnLogin => v == LoginView
    case OnLogout => v == DashboardView
    case OnLiveOrders => v == DashboardView
    case OnBack => v == LiveOrdersView
  }

  /** The state after an event; an event the current view does not offer changes nothing. */
  function Handle(n: Nav, e: Event): (r: Nav)
    ensures !Offered(Rendered(n), e) ==> r == n
    ensures e == SplashTimer ==> r == n.(splash := false)
    ensures Offered(Rendered(n), e) && e == OnLogin ==> r == n.(loggedIn := true)
    ensures Offered(Rendered(n), e) && e == OnLogout ==> r == n.(loggedIn := false)
    ensures Offered(Rendered(n), e) && e == OnLiveOrders ==> r == n.(screen := LiveOrdersScreen)
    ensures Offered(Rendered(n), e) && e == OnBack ==> r == n.(screen := DashboardScreen)
  {
    if !Offered(Rendered(n), e) then n
    else match e
      case SplashTimer => n.(splash := false)
      case OnLogin => n.(loggedIn := true)
      case OnLogout => n.(loggedIn := false)
      case OnLiveOrders => n.(screen := LiveOrdersScreen)
      case OnBack => n.(screen := DashboardScreen)
  }

  /** While signed out the remembered screen is the dashboard: logging out is only
      offered there, and the live order screen is only reachable signed in. */
  predicate Consistent(n: Nav) {
    !n.loggedIn ==> n.screen == DashboardScreen
  }

  lemma HandleKeepsConsistent(n: Nav, e: Event)
    requires Consistent(n)
    ensures Consistent(Handle(n, e))
  {
  }

  function Run(n: Nav, es: seq<Event>): Nav
    decreases |es|
  {
    if es == [] then n else Run(Handle(n, es[0]), es[1..])
  }

  /** From start-up, any sequence of events keeps the state consistent, so signing in
      always lands on the dashboard. */
  lemma {:induction false} RunKeepsConsistent(n: Nav, es: seq<Event>)
    requires Consistent(n)
    ensures Consistent(Run(n, es))
    decreases |es|
  {
    if es != [] {
      HandleKeepsConsistent(n, es[0]);
      RunKeepsConsistent(Handle(n, es[0]), es[1..]);
    }
  }

  lemma SignInLandsOnDashboard(es: seq<Event>)
    ensures var n := Run(Initial, es);
      Rendered(n) == LoginView ==> Rendered(Handle(n, OnLogin)) == DashboardView
  {
    RunKeepsConsistent(Initial, es);
  }
}
