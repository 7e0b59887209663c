/**
 * The application shell: the splash screen while the splash timer runs or
 * the session loads, the public login and signup routes, the routes guarded
 * by a signed-in user under the main layout, the onboarding route, and the
 * not-found fallback.
 */
module AppRoutes {
  import opened Common
  import opened UserContext

  const LoginPath := "/login"
  const SignupPath := "/signup"
  const RootPath := "/"
  const DashboardPath := "/dashboard"
  const OnboardingPath := "/onboarding"

  /** The pages rendered inside the main layout. */
  datatype Section = Dashboard | Budgets | Transactions | Goals | Quests | Achievements | Profile | ConnectBank

  datatype Page = SplashScreen | LoginPage | SignupPage | MainLayout(section: Section) | OnboardingPage | NotFoundPage

  /** What the router produces for a location: a page, or a `<Navigate>` to another path. */
  datatype Screen = Render(page: Page) | Redirect(to: string)

  /** The child routes of the layout route `/`. */
  function SectionAt(path: string): Option<Section> {
    if path == "/dashboard" then Some(Dashboard)
    else if path == "/budgets" then Some(Budgets)
    else if path == "/transactions" then Some(Transactions)
    else if path == "/goals" then Some(Goals)
    else if path == "/quests" then Some(Quests)
    else if path == "/achievements" then Some(Achievements)
    else if path == "/profile" then Some(Profile)
    else if path == "/connect-bank" then Some(ConnectBank)
    else None
  }

  /** `path` belongs to the layout route: its index or one of its children. */
  predicate Protected(path: string) {
    path == RootPath || SectionAt(path).Some?
  }

  /** `App` for a location, given the splash flag and the session store's state. */
  function Resolve(showSplash: bool, isLoading: bool, user: Option<User>, path: string): (s: Screen)
    ensures showSplash || isLoading ==> s == Render(SplashScreen)
    ensures s.Redirect? ==> s.to in {LoginPath, DashboardPath}
  {
    if showSplash || isLoading then Render(SplashScreen)
    else if path == LoginPath then (if user.None? then Render(LoginPage) else Redirect(DashboardPath))
    else if path == SignupPath then (if user.None? then Render(SignupPage) else Redirect(DashboardPath))
    else if Protected(path) then
      if user.None? then Redirect(LoginPath)
      else if path == RootPath then Redirect(DashboardPath)
      else Render(MainLayout(SectionAt(path).value))
    else if path == OnboardingPath then
      if user.Some? && !user.value.onboardingComplete then Render(OnboardingPage) else Redirect(DashboardPath)
    else Render(NotFoundPage)
  }

  /**
   * The guard: without a user a protected location redirects to the login
   * page, and with one it renders its section (the index redirects to the
   * dashboard); the public pages are shown only without a user.
   */
  lemma Guard(user: Option<User>, path: string)
    ensures Protected(path) && user.None? ==> Resolve(false, false, user, path) == Redirect(LoginPath)
    ensures Protected(path) && user.Some? && path != RootPath ==>
      Resolve(false, false, user, path) == Render(MainLayout(SectionAt(path).value))
    ensures (Resolve(false, false, user, path) == Render(LoginPage) ||
             Resolve(false, false, user, path) == Render(SignupPage)) ==> user.None?
    ensures (Resolve(false, false, user, path).Render? && Resolve(false, false, user, path).page.MainLayout?)
            ==> user.Some?
  {
  }

  /** The onboarding page is rendered exactly for a signed-in user who has not completed it. */
  lemma OnboardingOnlyWhenDue(user: Option<User>, path: string)
    ensures Resolve(false, false, user, path) == Render(OnboardingPage) <==>
      path == OnboardingPath && user.Some? && !user.value.onboardingComplete
  {
  }

  /** Every location that no route names falls through to the not-found page. */
  lemma UnknownIsNotFound(user: Option<User>, path: string)
    requires path !in {LoginPath, SignupPath, OnboardingPath} && !Protected(path)
    ensures Resolve(false, false, user, path) == Render(NotFoundPage)
  {
  }

  /** Follows redirects for at most `hops` steps. */
  function Settle(showSplash: bool, isLoading: bool, user: Option<User>, path: string, hops: nat): Screen
    decreases hops
  {
    var s := Resolve(showSplash, isLoading, user, path);
    if s.Redirect? && hops > 0 then Settle(showSplash, isLoading, user, s.to, hops - 1) else s
  }

  /**
   * Redirects never loop: after at most two of them every location renders a
   * page, a signed-out visitor ends on a public page or the not-found page,
   * and a signed-in user never ends on the login or signup page.
   */
  lemma RedirectsSettle(user: Option<User>, path: string)
    ensures Settle(false, false, user, path, 2).Render?
    ensures user.None? ==> Settle(false, false, user, path, 2).page in {LoginPage, SignupPage, NotFoundPage}
    ensures user.Some? ==> Settle(false, false, user, path, 2).page !in {LoginPage, SignupPage}
  {
    assert SectionAt(DashboardPath) == Some(Dashboard);
    assert SectionAt(LoginPath) == None;
  }
}
