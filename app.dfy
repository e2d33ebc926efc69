/** The application shell: which page a path renders or where it redirects,
    for the loading, signed-out and signed-in states, and the two callbacks
    it hands to the sign-in and sign-up pages. */
module App {
  import opened Outcomes
  import Auth
  import Login
  import Signup

  datatype Page = LoaderPage | LoginPage | SignupPage | AdminHome | CustomerHome | ProviderHome

  datatype View = Render(page: Page) | Redirect(to: string)

  const KnownRoles: set<string> := {"admin", "customer", "provider"}

  /** The dashboard each known role owns. */
  function HomeOf(role: string): Page
    requires role in KnownRoles
  {
    if role == "admin" then AdminHome else if role == "customer" then CustomerHome else ProviderHome
  }

  /** A dashboard route: its role and page. */
  function DashboardRoute(path: string): Option<(string, Page)> {
    if path == "/admin" then Some(("admin", AdminHome))
    else if path == "/customer" then Some(("customer", CustomerHome))
    else if path == "/provider" then Some(("provider", ProviderHome))
    else None
  }

  /** One render of the shell for an exact path. */
  function Resolve(loading: bool, user: Option<Auth.User>, path: string): View {
    if loading then Render(LoaderPage)
    else if user.None? then
      if path == "/login" then Render(LoginPage)
      else if path == "/signup" then Render(SignupPage)
      else Redirect("/login")
    else
      match DashboardRoute(path)
      case Some((role, page)) => if user.value.role == role then Render(page) else Redirect("/")
      case None => if path == "/" then Redirect("/" + user.value.role) else Redirect("/")
  }

  /** What is on screen after following at most `redirects` redirects. */
  function Follow(loading: bool, user: Option<Auth.User>, path: string, redirects: nat): View
    decreases redirects
  {
    match Resolve(loading, user, path)
    case Render(p) => Render(p)
    case Redirect(to) => if redirects == 0 then Redirect(to) else Follow(loading, user, to, redirects - 1)
  }

  /** While the session is loading, the loader is shown on every path. */
  lemma LoadingShowsLoader(user: Option<Auth.User>, path: string)
    ensures Resolve(true, user, path) == Render(LoaderPage)
  {
  }

  /** Signed out, only /login and /signup render a page; every other path
      redirects to /login, so one redirect always reaches a page. */
  lemma SignedOutRoutes(path: string)
    ensures Resolve(false, None, path).Render? <==> path == "/login" || path == "/signup"
    ensures Resolve(false, None, path).Redirect? ==> Resolve(false, None, path).to == "/login"
    ensures Follow(false, None, path, 1) == Render(if path == "/signup" then SignupPage else LoginPage)
  {
  }

  /** Prefixing "/" keeps roles apart. */
  lemma SlashInjective(r: string, q: string)
    ensures "/" + r == "/" + q <==> r == q
  {
    if "/" + r == "/" + q {
      assert r == ("/" + r)[1..];
      assert q == ("/" + q)[1..];
    }
  }

  /** The dashboard route of "/" + role is the role's own, when it has one. */
  lemma OwnRoute(role: string)
    ensures role in KnownRoles ==> DashboardRoute("/" + role) == Some((role, HomeOf(role)))
    ensures role !in KnownRoles ==> DashboardRoute("/" + role).None?
  {
    SlashInjective(role, "admin");
    SlashInjective(role, "customer");
    SlashInjective(role, "provider");
  }

  /** Signed in, a dashboard is rendered only on its own path and only for
      the role that owns it; the other dashboard paths redirect to "/". */
  lemma DashboardsAreRoleGated(u: Auth.User, path: string)
    ensures Resolve(false, Some(u), path).Render? <==> u.role in KnownRoles && path == "/" + u.role
    ensures Resolve(false, Some(u), path).Render? ==> Resolve(false, Some(u), path).page == HomeOf(u.role)
    ensures DashboardRoute(path).Some? && path != "/" + u.role ==> Resolve(false, Some(u), path) == Redirect("/")
  {
    OwnRoute(u.role);
    SlashInjective(u.role, "admin");
    SlashInjective(u.role, "customer");
    SlashInjective(u.role, "provider");
  }

  /** "/" sends a signed-in user to "/" + role; any other unknown path to "/". */
  lemma RootAndFallback(u: Auth.User, path: string)
    ensures Resolve(false, Some(u), "/") == Redirect("/" + u.role)
    ensures path != "/" && DashboardRoute(path).None? ==> Resolve(false, Some(u), path) == Redirect("/")
  {
  }

  /** For each of the three roles, every path reaches that role's own
      dashboard within two redirects. */
  lemma KnownRoleSettles(u: Auth.User, path: string)
    requires u.role in KnownRoles
    ensures Follow(false, Some(u), path, 2) == Render(HomeOf(u.role))
  {
    OwnRoute(u.role);
    DashboardsAreRoleGated(u, path);
  }

  /** A role outside the three never renders a page: "/" and "/" + role keep
      redirecting to each other, however many redirects are followed. */
  lemma {:induction false} UnknownRoleNeverSettles(u: Auth.User, path: string, redirects: nat)
    requires u.role !in KnownRoles
    ensures Follow(false, Some(u), path, redirects).Redirect?
    decreases redirects
  {
    DashboardsAreRoleGated(u, path);
    if redirects > 0 {
      UnknownRoleNeverSettles(u, Resolve(false, Some(u), path).to, redirects - 1);
    }
  }

  /** The requests the shell's auth callbacks make, in order. */
  datatype AuthRequest =
    | Register(data: Signup.SignupData)
    | LogIn(email: string, password: string, expectedRole: Option<string>)

  /** What a callback does: its requests, the message it stores in the
      shell's `error` (`None`: not touched), and how its promise settles. */
  datatype SignupEffect = SignupEffect(requests: seq<AuthRequest>, appError: Option<string>, settles: Outcome)

  datatype LoginEffect = LoginEffect(requests: seq<AuthRequest>, appError: Option<string>, returned: Login.LoginReturn)

  /** `onSignup`: register, then sign in with the same e-mail and password
      (and no expected role). Either failure is caught into the shell's
      error, so the sign-up page's promise always resolves. */
  function OnSignup(data: Signup.SignupData, register: Outcome, login: Outcome): (eff: SignupEffect)
    ensures eff.settles == Done
    ensures |eff.requests| >= 1 && eff.requests[0] == Register(data)
    ensures register.Failed? ==> eff.requests == [Register(data)] && eff.appError == Some(register.message)
    ensures register.Done? ==> eff.requests == [Register(data), LogIn(data.email, data.password, None)]
    ensures register.Done? ==> eff.appError == (if login.Failed? then Some(login.message) else None)
  {
    match register
    case Failed(m) => SignupEffect([Register(data)], Some(m), Done)
    case Done =>
      var requests := [Register(data), LogIn(data.email, data.password, None)];
      match login
      case Failed(m) => SignupEffect(requests, Some(m), Done)
      case Done => SignupEffect(requests, None, Done)
  }

  /** `onLogin`: sign in without an expected role; a failure is caught into
      the shell's error, and the promise resolves with nothing either way. */
  function OnLogin(email: string, password: string, login: Outcome): (eff: LoginEffect)
    ensures eff.requests == [LogIn(email, password, None)]
    ensures eff.returned == Login.ResolvedUndefined
    ensures eff.appError == (if login.Failed? then Some(login.message) else None)
  {
    LoginEffect([LogIn(email, password, None)], if login.Failed? then Some(login.message) else None,
                Login.ResolvedUndefined)
  }

  /** A failed sign-in still shows the server's message on the sign-in
      page: the shell's error prop wins over the local error that reading a
      role from `undefined` leaves behind. */
  lemma FailedLoginShowsServerMessage(email: string, password: string, message: string, expectedRole: Option<string>)
    requires message != ""
    ensures var eff := OnLogin(email, password, Failed(message));
      var local := Login.ErrorAfterLogin(eff.returned, expectedRole);
      local == Some(Login.UndefinedUserMessage)
      && Login.DisplayedError(eff.appError.value, local.value) == message
  {
  }
}
