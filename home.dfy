/**
 * The dashboard component's state: the signed-in user it displays and the
 * three layout flags, changed in place by its effects and event handlers.
 * Each state setter is taken to assign at once. The layout methods are
 * specified by `Layout.Step`; `Valid` is the one-navigation-panel invariant.
 */
module Home {
  import opened Browser
  import opened Layout
  import opened App

  class Home {
    var currentUser: Option<User>
    var collapsed: bool
    var isMobile: bool
    var drawerVisible: bool

    /** The layout flags as a value. */
    function State(): LayoutState
      reads this
    {
      LayoutState(isMobile, collapsed, drawerVisible)
    }

    ghost predicate Valid()
      reads this
    {
      SingleNavigation(State())
    }

    /** The initial values of the component's state hooks. */
    constructor ()
      ensures Valid()
      ensures currentUser == None && State() == Initial
    {
      currentUser := None;
      collapsed := false;
      isMobile := false;
      drawerVisible := false;
    }

    /** The mount-time session check: keep the user, or leave for the login page. */
    method CheckSession(user: Option<User>) returns (effects: seq<Effect>)
      modifies this`currentUser
      ensures user.None? ==> effects == [NavigateTo(LoginPath)] && currentUser == old(currentUser)
      ensures user.Some? ==> effects == [] && currentUser == user
      ensures user.None? ==> forall t: Tab :: t.session == None ==> Landing(ApplyAll(t, effects)) == Some(LoginView)
    {
      if user.None? {
        effects := [NavigateTo(LoginPath)];
      } else {
        currentUser := user;
        effects := [];
      }
    }

    /** The viewport check, run on mount and on every resize event. */
    method CheckMobile(width: int)
      requires Valid()
      modifies this`isMobile, this`collapsed, this`drawerVisible
      ensures Valid()
      ensures State() == Step(old(State()), Layout.CheckMobile(width))
      ensures isMobile == (width < MobileBreakpoint)
      ensures width >= MobileBreakpoint ==> !collapsed && !drawerVisible
      ensures width < MobileBreakpoint ==> collapsed == old(collapsed) && drawerVisible == old(drawerVisible)
    {
      isMobile := width < MobileBreakpoint;
      if width >= MobileBreakpoint {
        collapsed := false;
        drawerVisible := false;
      }
    }

    /** Both mount effects, in the order they are declared. */
    method Mount(user: Option<User>, width: int) returns (effects: seq<Effect>)
      requires Valid()
      modifies this
      ensures Valid()
      ensures user.None? ==> effects == [NavigateTo(LoginPath)] && currentUser == old(currentUser)
      ensures user.Some? ==> effects == [] && currentUser == user
      ensures State() == Step(old(State()), Layout.CheckMobile(width))
    {
      effects := CheckSession(user);
      CheckMobile(width);
    }

    /** The header button on mobile; it is rendered only there. */
    method ToggleDrawer()
      requires Valid() && isMobile
      modifies this`drawerVisible
      ensures Valid()
      ensures State() == Step(old(State()), Layout.ToggleDrawer)
      ensures drawerVisible == !old(drawerVisible)
    {
      drawerVisible := !drawerVisible;
    }

    /** The drawer's close control. */
    method CloseDrawer()
      requires Valid()
      modifies this`drawerVisible
      ensures Valid()
      ensures State() == Step(old(State()), Layout.CloseDrawer)
      ensures !drawerVisible
    {
      drawerVisible := false;
    }

    /** The header button on desktop; it is rendered only there. */
    method ToggleCollapse()
      requires Valid() && !isMobile
      modifies this`collapsed
      ensures Valid()
      ensures State() == Step(old(State()), Layout.ToggleCollapse)
      ensures collapsed == !old(collapsed)
    {
      collapsed := !collapsed;
    }

    /** Signs out: the session is cleared first, then the tab goes to the login page. */
    method LogOut() returns (effects: seq<Effect>)
      ensures effects == [ClearSession, NavigateTo(LoginPath)]
      ensures forall t: Tab :: ApplyAll(t, effects).session == None
      ensures forall t: Tab :: Landing(ApplyAll(t, effects)) == Some(LoginView)
    {
      effects := [ClearSession, NavigateTo(LoginPath)];
      assert LastNavigation(effects) == Some(LoginPath);
    }

    /** The content area's left margin for the current flags. */
    function ContentMargin(): (m: int)
      reads this
      ensures m == if SiderMounted(State()) then SiderWidth(collapsed) else 0
    {
      MarginClearsSider(State());
      MarginLeft(isMobile, collapsed)
    }
  }
}
