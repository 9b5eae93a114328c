/** The top-level routes and the guard in front of every page but the login page.
    A decision from the path and the session's `loading` flag and user to what is shown. */
module Routes {

  /** The pages rendered inside the dashboard layout. */
  datatype Page = DashboardHome | UsersList | ProfileEditor

  datatype Screen =
    | LoginScreen
    | LoadingPlaceholder
    | Redirect(to: string)
    | Dashboard(page: Page)

  /** The table of pages behind the guard; any other path goes back to `/`. */
  function PrivatePage(path: string): Screen
  {
    if path == "/" then Dashboard(DashboardHome)
    else if path == "/users" then Dashboard(UsersList)
    else if path == "/profile" then Dashboard(ProfileEditor)
    else Redirect("/")
  }

  /** The guard: `loading` is looked at first, then whether there is a user. */
  function PrivateRoutes(path: string, loading: bool, hasUser: bool): Screen
  {
    if loading then LoadingPlaceholder
    else if !hasUser then Redirect("/login")
    else PrivatePage(path)
  }

  function App(path: string, loading: bool, hasUser: bool): Screen
  {
    if path == "/login" then LoginScreen else PrivateRoutes(path, loading, hasUser)
  }

  /** The login page is shown for its own path whatever the session's state. */
  lemma LoginAlwaysShown(loading: bool, hasUser: bool)
    ensures App("/login", loading, hasUser) == LoginScreen
  {
  }

  /** Off the login path, a session still loading shows the placeholder, and one
      without a user is sent to the login page. */
  lemma GuardOrder(path: string, loading: bool, hasUser: bool)
    requires path != "/login"
    ensures loading ==> App(path, loading, hasUser) == LoadingPlaceholder
    ensures !loading && !hasUser ==> App(path, loading, hasUser) == Redirect("/login")
  {
  }

  /** A dashboard page is rendered only for a settled session with a user, and then
      exactly for the three known paths. */
  lemma DashboardNeedsSession(path: string, loading: bool, hasUser: bool)
    ensures App(path, loading, hasUser).Dashboard? <==>
      !loading && hasUser && path in {"/", "/users", "/profile"}
    ensures !loading && hasUser ==>
      && (path == "/" ==> App(path, loading, hasUser) == Dashboard(DashboardHome))
      && (path == "/users" ==> App(path, loading, hasUser) == Dashboard(UsersList))
      && (path == "/profile" ==> App(path, loading, hasUser) == Dashboard(ProfileEditor))
  {
  }

  /** Following a redirect once always reaches a screen that is not a redirect. */
  lemma AtMostOneRedirect(path: string, loading: bool, hasUser: bool)
    requires App(path, loading, hasUser).Redirect?
    ensures !App(App(path, loading, hasUser).to, loading, hasUser).Redirect?
  {
    if hasUser {
      assert App(path, loading, hasUser) == Redirect("/");
    } else {
      assert App(path, loading, hasUser) == Redirect("/login");
    }
  }
}
