/**
 * The application root: the session state (`isAuthenticated`, `user`) and
 * the theme that the root component holds, the handlers that change them,
 * and the route table that decides, for an authentication flag and a path,
 * whether a page is rendered or the browser is redirected.
 */
module App {
  import opened MockData

  // ---------------------------------------------------------------------
  // Route table
  // ---------------------------------------------------------------------

  datatype Page = LoginPage | SignupPage | DashboardPage | PaymentsPage | AnalyticsPage | SettingsPage

  /** What a route yields: a page, a `<Navigate to=...>`, or nothing when no route matches. */
  datatype Element = Render(page: Page) | Redirect(to: string) | NoMatch

  /** Routes shown only to a visitor who is not signed in. */
  const GuestPaths: set<string> := {"/login", "/signup"}

  /** Routes shown only to a signed-in user. */
  const MemberPaths: set<string> := {"/dashboard", "/payments", "/analytics", "/settings"}

  /** The path each page is mounted at. */
  function PathOf(page: Page): string
  {
    match page
    case LoginPage => "/login"
    case SignupPage => "/signup"
    case DashboardPage => "/dashboard"
    case PaymentsPage => "/payments"
    case AnalyticsPage => "/analytics"
    case SettingsPage => "/settings"
  }

  /** The page mounted at a path of the table. */
  function PageAt(path: string): (page: Page)
    requires path in GuestPaths + MemberPaths
    ensures PathOf(page) == path
  {
    if path == "/login" then LoginPage
    else if path == "/signup" then SignupPage
    else if path == "/dashboard" then DashboardPage
    else if path == "/payments" then PaymentsPage
    else if path == "/analytics" then AnalyticsPage
    else SettingsPage
  }

  /** Where a visitor in the given state belongs: the dashboard when signed in, the login page otherwise. */
  function Home(isAuthenticated: bool): (path: string)
    ensures path == "/dashboard" <==> isAuthenticated
    ensures path in (if isAuthenticated then MemberPaths else GuestPaths)
  {
    if isAuthenticated then "/dashboard" else "/login"
  }

  /** The `<Routes>` table of the root component. */
  function RouteElement(isAuthenticated: bool, path: string): (e: Element)
    ensures path in MemberPaths ==> (e.Render? <==> isAuthenticated)
    ensures path in GuestPaths ==> (e.Render? <==> !isAuthenticated)
    ensures path == "/" ==> e == Redirect(Home(isAuthenticated))
    ensures e.Render? ==> PathOf(e.page) == path
    ensures e.Redirect? ==> e.to == Home(isAuthenticated)
    ensures e.NoMatch? <==> path !in GuestPaths + MemberPaths + {"/"}
  {
    if path == "/login" then
      (if !isAuthenticated then Render(LoginPage) else Redirect("/dashboard"))
    else if path == "/signup" then
      (if !isAuthenticated then Render(SignupPage) else Redirect("/dashboard"))
    else if path == "/dashboard" then
      (if isAuthenticated then Render(DashboardPage) else Redirect("/login"))
    else if path == "/payments" then
      (if isAuthenticated then Render(PaymentsPage) else Redirect("/login"))
    else if path == "/analytics" then
      (if isAuthenticated then Render(AnalyticsPage) else Redirect("/login"))
    else if path == "/settings" then
      (if isAuthenticated then Render(SettingsPage) else Redirect("/login"))
    else if path == "/" then
      Redirect(if isAuthenticated then "/dashboard" else "/login")
    else
      NoMatch
  }

  /** A redirect always lands on a route that renders a page in the same state: no redirect chains or loops. */
  lemma RedirectLandsOnPage(isAuthenticated: bool, path: string)
    ensures RouteElement(isAuthenticated, path).Redirect? ==>
      RouteElement(isAuthenticated, RouteElement(isAuthenticated, path).to).Render?
  {
    var e := RouteElement(isAuthenticated, path);
    if e.Redirect? {
      assert Home(isAuthenticated) in (if isAuthenticated then MemberPaths else GuestPaths);
    }
  }

  // ---------------------------------------------------------------------
  // Theme
  // ---------------------------------------------------------------------

  /** The theme initialiser: the stored value, or "light" when there is none (or it is empty). */
  function InitialTheme(stored: Option<string>): (t: string)
    ensures t != ""
    ensures stored.Some? && stored.value != "" ==> t == stored.value
    ensures stored.None? || stored.value == "" ==> t == "light"
  {
    if stored.Some? && stored.value != "" then stored.value else "light"
  }

  /** `toggleTheme`'s updater: "light" becomes "dark", anything else becomes "light". */
  function ToggledTheme(theme: string): (t: string)
    ensures t == "light" || t == "dark"
    ensures t == "dark" <==> theme == "light"
  {
    if theme == "light" then "dark" else "light"
  }

  /** Toggling twice restores either of the two real themes. */
  lemma ToggleTwice(theme: string)
    requires theme == "light" || theme == "dark"
    ensures ToggledTheme(ToggledTheme(theme)) == theme
  {
  }

  // ---------------------------------------------------------------------
  // Session state of the root component
  // ---------------------------------------------------------------------

  class AppComponent {
    const store: Storage
    var theme: string
    var user: Option<User>
    var isAuthenticated: bool

    /** A session that is not authenticated has no user. */
    ghost predicate Valid()
      reads this
    {
      !isAuthenticated ==> user == None
    }

    /** The component's state agrees with what mockAuth reads back from the store. */
    ghost predicate InSync()
      reads this, store
    {
      && isAuthenticated == IsAuthenticated(store)
      && user == (if isAuthenticated then GetCurrentUser(store) else None)
    }

    /** The first render of the root: no user, not authenticated, the stored theme; the store is not read yet. */
    constructor (store: Storage, storedTheme: Option<string>)
      ensures this.store == store && store.items == old(store.items)
      ensures theme == InitialTheme(storedTheme)
      ensures !isAuthenticated && user == None
      ensures Valid()
    {
      this.store := store;
      theme := InitialTheme(storedTheme);
      user := None;
      isAuthenticated := false;
    }

    /**
     * The restore-on-load effect, which runs after the first render: the
     * flag is read back from the store, and the stored user is taken only
     * when it says "true"; otherwise the user is left as it was.
     */
    method RestoreSession()
      modifies this`isAuthenticated, this`user
      ensures isAuthenticated == IsAuthenticated(store)
      ensures IsAuthenticated(store) ==> user == GetCurrentUser(store)
      ensures !IsAuthenticated(store) ==> user == old(user)
      ensures old(user) == None ==> Valid() && InSync()
    {
      var authStatus := IsAuthenticated(store);
      isAuthenticated := authStatus;
      if authStatus {
        user := GetCurrentUser(store);
      }
    }

    /** `login`: a success signs the user in; a failure changes nothing and is handed back. */
    method Login(email: string, password: string) returns (r: AuthResult)
      requires Valid()
      modifies this, store
      ensures Valid() && theme == old(theme)
      ensures r.Success? <==> email == DemoEmail && password == DemoPassword
      ensures r.Success? ==> isAuthenticated && user == Some(r.user) && r.user == MockUser
      ensures r.Failure? ==> r.error == InvalidCredentials
      ensures r.Failure? ==> isAuthenticated == old(isAuthenticated) && user == old(user) && store.items == old(store.items)
      ensures r.Success? ==> store.items == SessionSaved(old(store.items), MockUser) && InSync()
      ensures old(InSync()) ==> InSync()
    {
      r := MockData.Login(store, email, password);
      if r.Success? {
        isAuthenticated := true;
        user := Some(r.user);
      }
    }

    /** `signup`: always signs the new user in. */
    method Signup(name: string, email: string, password: string) returns (r: AuthResult)
      requires Valid()
      modifies this, store
      ensures Valid() && theme == old(theme)
      ensures r.Success? && r.user == MockUser.(name := name, email := email)
      ensures isAuthenticated && user == Some(r.user)
      ensures store.items == SessionSaved(old(store.items), r.user)
      ensures InSync()
    {
      r := MockData.Signup(store, name, email, password);
      if r.Success? {
        isAuthenticated := true;
        user := Some(r.user);
      }
    }

    /** `logout`: from any state, signed out with no user, in the component and in the store. */
    method Logout()
      modifies this, store
      ensures Valid() && theme == old(theme)
      ensures !isAuthenticated && user == None
      ensures store.items == old(store.items) - {IsAuthenticatedKey, UserKey}
      ensures InSync()
    {
      MockData.Logout(store);
      isAuthenticated := false;
      user := None;
    }

    /** `toggleTheme`. */
    method ToggleTheme()
      modifies this`theme
      ensures theme == ToggledTheme(old(theme))
    {
      theme := ToggledTheme(theme);
    }
  }

  /** Mounting the root: the first render, then the restore effect. */
  method Mount(store: Storage, storedTheme: Option<string>) returns (app: AppComponent)
    ensures app.store == store && store.items == old(store.items)
    ensures app.theme == InitialTheme(storedTheme)
    ensures app.isAuthenticated == IsAuthenticated(store)
    ensures app.user == (if IsAuthenticated(store) then GetCurrentUser(store) else None)
    ensures app.Valid() && app.InSync()
  {
    app := new AppComponent(store, storedTheme);
    app.RestoreSession();
  }

  /**
   * Reloading a member page other than the dashboard with a session in the
   * store: the first render, before the restore effect, redirects to
   * "/login" (the redirect's effect runs before the root's, children's
   * effects firing first); once restored, "/login" redirects to
   * "/dashboard", which renders. The page asked for is never shown.
   */
  method ReloadLosesDeepLink(store: Storage, storedTheme: Option<string>, path: string)
      returns (first: Element, restored: Element, settled: Element)
    requires IsAuthenticated(store)
    requires path in MemberPaths && path != "/dashboard"
    ensures first == Redirect("/login")
    ensures restored == Redirect("/dashboard")
    ensures settled == Render(DashboardPage) && settled != Render(PageAt(path))
  {
    var app := new AppComponent(store, storedTheme);
    first := RouteElement(app.isAuthenticated, path);
    app.RestoreSession();
    restored := RouteElement(app.isAuthenticated, first.to);
    settled := RouteElement(app.isAuthenticated, restored.to);
  }

  /** Signing up and restarting the application restores the signed-up user, whatever the store held. */
  method SignupSurvivesRestart(items: map<string, Stored>, name: string, email: string, password: string)
      returns (restarted: AppComponent)
    ensures restarted.isAuthenticated
    ensures restarted.user == Some(MockUser.(name := name, email := email))
  {
    var store := new Storage(items);
    var app := Mount(store, None);
    var r := app.Signup(name, email, password);
    restarted := Mount(store, None);
  }

  /** Logging out and restarting the application comes back signed out. */
  method LogoutSurvivesRestart(items: map<string, Stored>) returns (restarted: AppComponent)
    ensures !restarted.isAuthenticated && restarted.user == None
  {
    var store := new Storage(items);
    var app := Mount(store, None);
    app.Logout();
    restarted := Mount(store, None);
  }

  /** A wrong password on a fresh start leaves the session signed out. */
  method WrongPasswordStaysSignedOut(password: string) returns (app: AppComponent, r: AuthResult)
    requires password != DemoPassword
    ensures r == Failure(InvalidCredentials)
    ensures !app.isAuthenticated && app.user == None
  {
    var store := new Storage(map[]);
    app := Mount(store, None);
    r := app.Login(DemoEmail, password);
  }
}
