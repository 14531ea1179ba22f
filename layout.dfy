/**
 * The responsive layout of the dashboard as values: the three layout flags
 * of the Home component, the events that change them, what is rendered
 * from them, and the invariant that only one navigation panel is shown.
 * The Home class (module Home) keeps these flags in fields and is specified
 * by `Step`.
 */
module Layout {

  /** Widths below this are mobile. */
  const MobileBreakpoint: int := 992

  datatype LayoutState = LayoutState(isMobile: bool, collapsed: bool, drawerVisible: bool)

  /** The state the component starts in: every flag false. */
  const Initial: LayoutState := LayoutState(false, false, false)

  datatype Event =
    | CheckMobile(width: int)  // the viewport check, on mount and on every resize
    | ToggleDrawer             // the header button on mobile
    | CloseDrawer              // the drawer's own close control
    | ToggleCollapse           // the header button on desktop

  function Step(s: LayoutState, e: Event): (r: LayoutState)
    // only the viewport check decides the layout mode
    ensures e.CheckMobile? ==> r.isMobile == (e.width < MobileBreakpoint)
    ensures !e.CheckMobile? ==> r.isMobile == s.isMobile
    // the collapse state changes only by its toggle or by a desktop check
    ensures e != ToggleCollapse && !(e.CheckMobile? && e.width >= MobileBreakpoint) ==> r.collapsed == s.collapsed
    // the drawer opens only by its toggle
    ensures r.drawerVisible && !s.drawerVisible ==> e == ToggleDrawer
    ensures e == ToggleDrawer ==> r.drawerVisible == !s.drawerVisible
  {
    match e
    case CheckMobile(w) =>
      var s' := s.(isMobile := w < MobileBreakpoint);
      if w >= MobileBreakpoint then s'.(collapsed := false, drawerVisible := false) else s'
    case ToggleDrawer => s.(drawerVisible := !s.drawerVisible)
    case CloseDrawer => s.(drawerVisible := false)
    case ToggleCollapse => s.(collapsed := !s.collapsed)
  }

  /** The single button at the start of the header. */
  datatype HeaderButton = DrawerButton | CollapseButton

  function HeaderControl(isMobile: bool): (b: HeaderButton)
    ensures b == DrawerButton <==> isMobile
  {
    if isMobile then DrawerButton else CollapseButton
  }

  /**
   * Whether the user can cause `e` in state `s`: resizing and closing the
   * drawer always, a toggle only through the header button rendered for the
   * current layout.
   */
  predicate Offered(s: LayoutState, e: Event)
  {
    match e
    case ToggleDrawer => HeaderControl(s.isMobile) == DrawerButton
    case ToggleCollapse => HeaderControl(s.isMobile) == CollapseButton
    case _ => true
  }

  function Run(s: LayoutState, events: seq<Event>): LayoutState
    decreases |events|
  {
    if events == [] then s else Run(Step(s, events[0]), events[1..])
  }

  predicate OfferedTrace(s: LayoutState, events: seq<Event>)
    decreases |events|
  {
    events == [] || (Offered(s, events[0]) && OfferedTrace(Step(s, events[0]), events[1..]))
  }

  /** The fixed sidebar is mounted exactly on desktop. */
  predicate SiderMounted(s: LayoutState)
  {
    !s.isMobile
  }

  /** The slide-over drawer is always mounted and shown when its flag is set. */
  predicate DrawerOpen(s: LayoutState)
  {
    s.drawerVisible
  }

  /** On desktop the drawer is closed, so the sidebar is the only navigation. */
  predicate SingleNavigation(s: LayoutState)
  {
    !s.isMobile ==> !s.drawerVisible
  }

  /** How many navigation panels are on screen: the fixed sidebar, the open drawer, or both. */
  function VisiblePanels(s: LayoutState): (n: nat)
    ensures n <= 2
    ensures n == 0 <==> !SiderMounted(s) && !DrawerOpen(s)
    ensures n == 2 <==> SiderMounted(s) && DrawerOpen(s)
  {
    (if SiderMounted(s) then 1 else 0) + (if DrawerOpen(s) then 1 else 0)
  }

  /** The invariant says exactly that at most one panel is on screen. */
  lemma SingleNavigationIsAtMostOnePanel(s: LayoutState)
    ensures SingleNavigation(s) <==> VisiblePanels(s) <= 1
  {
  }

  /** The sidebar's width in pixels: the component library's defaults, as the source sets none. */
  function SiderWidth(collapsed: bool): int
  {
    if collapsed then 80 else 200
  }

  /** The content area's left margin in pixels. */
  function MarginLeft(isMobile: bool, collapsed: bool): (m: int)
    ensures m == 0 <==> isMobile
    ensures !isMobile && collapsed ==> m == 80
    ensures !isMobile && !collapsed ==> m == 200
  {
    if isMobile then 0 else if collapsed then 80 else 200
  }

  /** The margin keeps the content clear of the fixed sidebar, and no wider. */
  lemma MarginClearsSider(s: LayoutState)
    ensures MarginLeft(s.isMobile, s.collapsed) == if SiderMounted(s) then SiderWidth(s.collapsed) else 0
  {
  }

  /** Every viewport check sets the layout mode from the width; a desktop check also resets both sub-states. */
  lemma CheckMobileEffect(s: LayoutState, w: int)
    ensures Step(s, CheckMobile(w)).isMobile == (w < MobileBreakpoint)
    ensures w >= MobileBreakpoint ==> !Step(s, CheckMobile(w)).collapsed && !Step(s, CheckMobile(w)).drawerVisible
    ensures w < MobileBreakpoint ==> Step(s, CheckMobile(w)).collapsed == s.collapsed
    ensures w < MobileBreakpoint ==> Step(s, CheckMobile(w)).drawerVisible == s.drawerVisible
  {
  }

  /** A collapsed desktop sidebar is expanded again by a resize that stays on desktop. */
  lemma DesktopResizeExpandsSidebar(s: LayoutState, w: int)
    requires !s.isMobile && s.collapsed && w >= MobileBreakpoint
    ensures Step(s, CheckMobile(w)) == LayoutState(false, false, false)
  {
  }

  /** Only the drawer toggle can break the invariant, and only when it is used on desktop. */
  lemma StepPreservesSingleNavigation(s: LayoutState, e: Event)
    requires SingleNavigation(s)
    ensures SingleNavigation(Step(s, e)) <==> Offered(s, e) || e != ToggleDrawer
    ensures !Offered(s, e) && e == ToggleDrawer ==> VisiblePanels(Step(s, e)) == 2
  {
  }

  /** From any state without two panels, the offered controls never produce two. */
  lemma {:induction false} RunPreservesSingleNavigation(s: LayoutState, events: seq<Event>)
    requires SingleNavigation(s)
    requires OfferedTrace(s, events)
    ensures SingleNavigation(Run(s, events))
    ensures VisiblePanels(Run(s, events)) <= 1
    decreases |events|
  {
    if events != [] {
      StepPreservesSingleNavigation(s, events[0]);
      RunPreservesSingleNavigation(Step(s, events[0]), events[1..]);
    }
    SingleNavigationIsAtMostOnePanel(Run(s, events));
  }

  /** Whatever the user does with the controls on screen, at most one navigation panel shows. */
  lemma AtMostOnePanel(events: seq<Event>)
    requires OfferedTrace(Initial, events)
    ensures SingleNavigation(Run(Initial, events))
    ensures VisiblePanels(Run(Initial, events)) <= 1
  {
    RunPreservesSingleNavigation(Initial, events);
  }
}
