# Session guard, login outcome and responsive layout of the shipment-management shell

This project models the three pieces of logic in the React front end of the
shipment-management admin shell:

- **the route table and its guard** (`src/App.js`): `/login` always shows the
  login screen, `/home` is wrapped in `PrivateRoute`, which shows the
  dashboard only when the authentication service reports a current user and
  otherwise redirects to `/login`, and `/` redirects to `/home`. Following
  the redirects, every route ends at the login screen without a session, and
  `/` and `/home` end at the dashboard with one. The guard is a function of
  the session passed to each evaluation, so it keeps nothing between
  evaluations. The theme algorithm is the dark one exactly when dark mode is on.
- **the dashboard component** (`src/components/Home.js`): a class `Home.Home`
  with the component's state (`currentUser`, `collapsed`, `isMobile`,
  `drawerVisible`) and one method per effect or handler: the mount-time
  session check, the viewport check run on mount and on every resize, the
  drawer toggle, the drawer's close handler, the collapse toggle and sign-out.
  The layout methods are specified by the pure transition function
  `Layout.Step`. The invariant `Valid` (on desktop the drawer is closed) is kept
  by every method. The pure module `Layout` proves that, from the initial
  state, any sequence of resizes and rendered controls keeps at most one
  navigation panel on screen. It also proves that the content's left margin is
  0, 80 or 200 pixels and equals the width of the fixed sidebar when one is
  mounted.
- **the login screen** (`src/components/Login.js`): the error-message
  resolver with JavaScript's truthiness (a missing and an empty string both
  fall through), proved equal to the general `||`-chain semantics
  `Login.FirstTruthy`, and a class `Login.LoginForm` holding `loading` and
  `message` through a submission and its success or failure.

Effects of the handlers on the outside world (navigate to a path, clear the
stored session) are returned as a sequence of `Browser.Effect` values in the
order the handler performs them. `Browser.ApplyAll` performs them on a
`Browser.Tab` (session plus location). `App.Landing` says which view the tab
then shows. The authentication service (`../services/auth.service`) and the
theme context are not part of this model. The current user is an
`Option<User>` input read fresh at each use, and dark mode is a boolean input.

Every viewport check at a width of 992 or more sets `collapsed` to false, on
every resize and not only when the width crosses the breakpoint
(`src/components/Home.js:41-43`). So any desktop resize expands a collapsed
sidebar again (`Layout.DesktopResizeExpandsSidebar`).

## Model

| member | source | states |
|---|---|---|
| `App.PrivateRoute` | src/App.js:9-12 | with no current user the result is a redirect to `/login` and never the children; with a user it is the children unchanged |
| `App.Resolve` | src/App.js:27-38 | `/login` renders Login whatever the session; the dashboard is rendered exactly for `/home` with a session; `/` redirects to `/home` and `/home` without a session to `/login`, and these are the only redirects, each to a route nearer to a rendering one; unknown paths match nothing |
| `App.Settle` | src/App.js:27-38 | after following redirects, a route always ends at a view and an unknown path at none; `/login` ends at Login whatever the session; the dashboard is reached only with a session; without a session every route ends at Login; with one, `/` and `/home` end at the dashboard |
| `App.UnauthenticatedEndsAtLogin` | src/App.js:9-12 | for every route of the table, a visitor without a session ends at Login and the dashboard is never rendered |
| `App.GuardReadsSessionAfresh` | src/App.js:10 | the same location shows the dashboard with a session and Login without one: the guard's result follows the session of the current evaluation |
| `App.ThemeAlgorithm` | src/App.js:20 | the dark algorithm is chosen if and only if dark mode is on |
| `Layout.Step` | src/components/Home.js:39-62 | the transition of `checkMobile`, `toggleDrawer`, the drawer's close handler (line 139) and the collapse toggle (line 177): only the viewport check sets the layout mode, to `width < 992`; `collapsed` changes only by its toggle or by a check at width >= 992; the drawer opens only by its toggle, which flips it |
| `Layout.SiderMounted` | src/components/Home.js:118 | defined as: the fixed sidebar is mounted exactly when not on mobile |
| `Layout.DrawerOpen` | src/components/Home.js:137-140 | defined as: the always-mounted drawer is open exactly when `drawerVisible` is set |
| `Layout.HeaderControl` | src/components/Home.js:166-180 | the header offers the drawer toggle exactly on mobile and the collapse toggle exactly on desktop |
| `Layout.VisiblePanels` | src/components/Home.js:118-145 | the number of navigation panels on screen: none exactly when on mobile with the drawer closed, two exactly when on desktop with the drawer open |
| `Layout.SingleNavigationIsAtMostOnePanel` | src/components/Home.js:118-145 | the invariant "on desktop the drawer is closed" holds if and only if at most one panel is on screen |
| `Layout.MarginLeft` | src/components/Home.js:148 | the margin is 0 exactly on mobile, 80 on a collapsed desktop, 200 on an expanded desktop |
| `Layout.MarginClearsSider` | src/components/Home.js:118-148 | the margin equals the width of the mounted fixed sidebar, and is 0 when none is mounted |
| `Layout.CheckMobileEffect` | src/components/Home.js:39-45 | after a check at width w, `isMobile == (w < 992)`; at w >= 992 collapse and drawer are both reset whatever they were; below 992 both are unchanged |
| `Layout.DesktopResizeExpandsSidebar` | src/components/Home.js:41-43 | for every collapsed desktop state and every width >= 992, the check expands the sidebar and leaves the drawer closed |
| `Layout.StepPreservesSingleNavigation` | src/components/Home.js:39-62 | from a state with at most one panel, an event keeps that property if and only if it is not the drawer toggle used where it is not rendered; that misuse puts two panels on screen |
| `Layout.RunPreservesSingleNavigation` | src/components/Home.js:39-180 | any sequence of resizes and rendered controls from a state with at most one panel keeps at most one panel |
| `Layout.AtMostOnePanel` | src/components/Home.js:25-27 | from the initial state, with the controls on screen only, at most one navigation panel is ever visible |
| `Home.Home.constructor` | src/components/Home.js:24-27 | no current user and all three layout flags false, which satisfies the invariant |
| `Home.Home.CheckSession` | src/components/Home.js:29-36 | an absent session requests navigation to `/login`, leaves `currentUser` unset and lands on Login; a present one becomes `currentUser` with no navigation |
| `Home.Home.CheckMobile` | src/components/Home.js:39-45 | `isMobile == (width < 992)`; at width >= 992 `collapsed` and `drawerVisible` become false; below they are unchanged; the invariant is kept |
| `Home.Home.Mount` | src/components/Home.js:29-53 | the session check followed by the viewport check at the initial width |
| `Home.Home.ToggleDrawer` | src/components/Home.js:60-62 | flips `drawerVisible` and nothing else; offered only on mobile, where it keeps the invariant |
| `Home.Home.CloseDrawer` | src/components/Home.js:139 | `drawerVisible` becomes false and nothing else changes |
| `Home.Home.ToggleCollapse` | src/components/Home.js:174-179 | flips `collapsed` and nothing else; offered only on desktop |
| `Home.Home.LogOut` | src/components/Home.js:55-58 | clears the session and then navigates to `/login`; from any tab the session is then absent and the landing view is Login |
| `Home.Home.ContentMargin` | src/components/Home.js:147-148 | in any state of the component, the content margin equals the width of the mounted sidebar, 0 on mobile |
| `Login.ServerMessage` | src/components/Login.js:26-28 | the server's message is present exactly when the error has a response with a body carrying a message, and is then that message |
| `Login.ResolveMessage` | src/components/Login.js:25-30 | the server's message if present and non-empty, else the error's message if non-empty, else its string form; empty exactly when all three are |
| `Login.ResolveMessageIsOrChain` | src/components/Login.js:25-30 | the resolver equals JavaScript's `||` chain over the server message, the error message and the string form |
| `Login.InvalidCredentialsShown` | src/components/Login.js:25-30 | a server message "Invalid credentials" is shown exactly as sent |
| `Login.EmptyServerMessageFallsThrough` | src/components/Login.js:25-30 | an empty server message is falsy and gives way to the error's own message |
| `Login.AlertShown` | src/components/Login.js:87-95 | the alert is rendered when the message is truthy, and that is so if and only if the message is non-empty |
| `Login.ButtonLabel` | src/components/Login.js:105 | the button reads "Giriş Yapılıyor..." if and only if loading, "Giriş Yap" otherwise |
| `Login.LoginForm.constructor` | src/components/Login.js:12-13 | not loading and no message |
| `Login.LoginForm.Submit` | src/components/Login.js:16-17 | message cleared and loading set before the outcome is known: no alert, spinner label |
| `Login.LoginForm.Succeed` | src/components/Login.js:20-23 | navigates to `/home` and changes no form state, so `loading` is not reset; with a stored session the tab lands on the dashboard |
| `Login.LoginForm.Fail` | src/components/Login.js:24-34 | loading false and message equal to the resolved message; the alert shows exactly when that message is non-empty |
| `Login.LoginForm.OnFinish` | src/components/Login.js:15-36 | a submission and then its outcome: on success still loading, no message, navigation to `/home`; on failure not loading and the resolved message |

## Left out

- The authentication service (`login`, `logout`, `getCurrentUser`) is not part of this model: the session is an `Option<User>` input and sign-out is the `ClearSession` effect. That a successful login stores the user is an assumption of `Login.LoginForm.Succeed`'s landing clause, not proved.
- The theme context is not part of this model: dark mode is a boolean input and the theme toggle is not modelled.
- The login request and its asynchrony: only its two outcomes are modelled, and `OnFinish` runs the continuation right after the submission. Interleavings with other events while the request is pending and duplicate submissions are not modelled.
- `window.location.reload()` after a successful login is left out (browser plumbing).
- Adding and removing the resize listener is left out (lifecycle plumbing); every resize is a call of `CheckMobile`.
- React's scheduling and batching of state updates: each setter is an immediate assignment.
- Rendering details (widget composition, styles, icons, menu items, colours, copy text other than the button label) are left out.
- The sidebar widths 200 and 80 used by `Layout.SiderWidth` are the component library's defaults, which the source relies on without setting them.
- The router's own matching rules (case-insensitive paths, trailing slashes) are left out: the route table matches the three paths exactly.
- `Login.ResolveMessage`: the error's fields are modelled as optional strings; non-string values of those fields and a rejection with no error object are not modelled.
- `Home.Home.ToggleDrawer` and `Home.Home.ToggleCollapse` require the layout in which their button is rendered; `Layout.Step` itself is total, and `Layout.StepPreservesSingleNavigation` shows that the drawer toggle used on desktop would break the invariant.
