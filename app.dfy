/**
 * The application shell: the three-entry route table, the guard in front of
 * the protected dashboard, and the choice of theme algorithm.
 *
 * The session is an argument of every evaluation: the guard asks the
 * authentication service for the current user each time it is rendered and
 * keeps nothing between evaluations.
 */
module App {
  import opened Browser

  const LoginPath: string := "/login"
  const HomePath: string := "/home"
  const RootPath: string := "/"

  /** The two screens of the application. */
  datatype View = LoginView | HomeView

  /** What the router renders for a path. */
  datatype Element =
    | Render(view: View)
    | Redirect(to: string)   // a <Navigate to=...> element
    | NoMatch                // no route matches: the router renders nothing

  predicate IsRoute(path: string)
  {
    path == LoginPath || path == HomePath || path == RootPath
  }

  /** Renders `children` for a signed-in user, otherwise sends the visitor to the login page. */
  function PrivateRoute(children: Element, currentUser: Option<User>): (e: Element)
    ensures currentUser.None? ==> e == Redirect(LoginPath)
    ensures currentUser.Some? ==> e == children
  {
    match currentUser
    case Some(_) => children
    case None => Redirect(LoginPath)
  }

  /** How far a path is from a rendering route; every redirect strictly lowers it. */
  function Rank(path: string): nat
  {
    if path == RootPath then 2 else if path == HomePath then 1 else 0
  }

  /** The route table. */
  function Resolve(path: string, session: Option<User>): (e: Element)
    ensures e == Render(LoginView) <==> path == LoginPath
    ensures e == Render(HomeView) <==> path == HomePath && session.Some?
    ensures e.Redirect? <==> path == RootPath || (path == HomePath && session.None?)
    ensures path == RootPath ==> e == Redirect(HomePath)
    ensures path == HomePath && session.None? ==> e == Redirect(LoginPath)
    ensures e.Redirect? ==> IsRoute(e.to) && Rank(e.to) < Rank(path)
    ensures e == NoMatch <==> !IsRoute(path)
  {
    if path == LoginPath then Render(LoginView)
    else if path == HomePath then PrivateRoute(Render(HomeView), session)
    else if path == RootPath then Redirect(HomePath)
    else NoMatch
  }

  /** The view a visit to `path` finally shows, following redirects; None when nothing matches. */
  function Settle(path: string, session: Option<User>): (v: Option<View>)
    ensures v == Some(HomeView) ==> session.Some?
    ensures IsRoute(path) <==> v.Some?
    ensures path == LoginPath ==> v == Some(LoginView)
    ensures session.None? && IsRoute(path) ==> v == Some(LoginView)
    ensures session.Some? && (path == HomePath || path == RootPath) ==> v == Some(HomeView)
    decreases Rank(path)
  {
    match Resolve(path, session)
    case Render(view) => Some(view)
    case Redirect(to) => Settle(to, session)
    case NoMatch => None
  }

  /** The view the tab shows once its current location has been resolved. */
  function Landing(t: Tab): Option<View>
  {
    Settle(t.location, t.session)
  }

  /** Without a session every route of the table ends at the login screen. */
  lemma UnauthenticatedEndsAtLogin(path: string)
    requires IsRoute(path)
    ensures Settle(path, None) == Some(LoginView)
    ensures Resolve(path, None) != Render(HomeView)
  {
  }

  /** The guard holds no state: the same location gives a different view once the session is gone. */
  lemma GuardReadsSessionAfresh(u: User, path: string)
    requires path == HomePath || path == RootPath
    ensures Landing(Tab(Some(u), path)) == Some(HomeView)
    ensures Landing(Tab(None, path)) == Some(LoginView)
  {
  }

  datatype Algorithm = DefaultAlgorithm | DarkAlgorithm

  /** The theme algorithm handed to the component library. */
  function ThemeAlgorithm(isDarkMode: bool): (a: Algorithm)
    ensures a == DarkAlgorithm <==> isDarkMode
  {
    if isDarkMode then DarkAlgorithm else DefaultAlgorithm
  }
}
