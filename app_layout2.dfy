/** The sidebar layout: a desktop sidebar and a mobile drawer listing the
    same menu, the live-view session, and the `activeTab` and `sidebarOpen`
    state cells. */
module AppLayout2 {
  import opened Common
  import opened Fleet
  import opened Navigation
  import opened CameraSession

  /** menuItems: the cameras entry counts the fleet, the notifications entry
      carries a fixed 6 in the destructive variant, the rest have no badge. */
  function Menu(cams: seq<Camera>): (items: seq<MenuItem>)
    ensures |items| == |AllTabs|
    ensures forall i :: 0 <= i < |items| ==> items[i].id == AllTabs[i]
    ensures items[0].badge == Some(|cams|) && items[0].variant.None?
    ensures items[1].badge == Some(6) && items[1].variant == Some(Destructive)
    ensures forall i :: 2 <= i < |items| ==> items[i].badge.None? && items[i].variant.None?
  {
    [MenuItem(CamerasTab, "Câmeras", Some(|cams|), None),
     MenuItem(NotificationsTab, "Notificações", Some(6), Some(Destructive)),
     MenuItem(EventsTab, "Eventos", None, None),
     MenuItem(SettingsTab, "Configurações", None, None),
     MenuItem(NetworkTab, "Rede", None, None)]
  }

  /** The cameras entry's badge is the sum of the three header tallies. */
  lemma CamerasBadgeIsTally(cams: seq<Camera>)
    ensures Menu(cams)[0].badge == Some(Counts(cams).active + Counts(cams).alert + Counts(cams).inactive)
  {
  }

  /** `item.badge && <Badge variant={item.variant || "secondary"}>`. */
  function MenuBadgeOf(item: MenuItem): (b: MenuBadge)
    ensures b.BadgeShown? <==> item.badge.Some? && item.badge.value != 0
    ensures b.ZeroText? <==> item.badge == Some(0)
    ensures b.BadgeShown? ==> b.n == item.badge.value && !b.redBackground
    ensures b.BadgeShown? && item.variant.Some? ==> b.variant == item.variant.value
    ensures b.BadgeShown? && item.variant.None? ==> b.variant == Secondary
  {
    match GuardNumber(item.badge)
    case Hidden => NoBadge
    case StrayZero => ZeroText
    case Shown(n) => BadgeShown(if item.variant.Some? then item.variant.value else Secondary, n, false)
  }

  /** With a non-empty fleet the cameras entry shows its size in the
      secondary variant, the notifications entry shows 6 in the destructive
      variant, and the other entries show nothing. With an empty fleet the
      cameras entry renders a stray "0" instead of a badge. */
  lemma MenuBadges(cams: seq<Camera>)
    ensures |cams| > 0 ==> MenuBadgeOf(Menu(cams)[0]) == BadgeShown(Secondary, |cams|, false)
    ensures cams == [] ==> MenuBadgeOf(Menu(cams)[0]) == ZeroText
    ensures MenuBadgeOf(Menu(cams)[1]) == BadgeShown(Destructive, 6, false)
    ensures forall i :: 2 <= i < 5 ==> MenuBadgeOf(Menu(cams)[i]) == NoBadge
  {
  }

  /** The navigation state cells. */
  datatype Nav = Nav(activeTab: Tab, sidebarOpen: bool)

  /** `useState("cameras")` and `useState(false)`. */
  const InitialNav: Nav := Nav(CamerasTab, false)

  datatype NavEvent =
    | DesktopNav(tab: Tab)   // a desktop sidebar entry
    | MobileNav(tab: Tab)    // a drawer entry
    | OverlayClick           // the backdrop behind the drawer
    | CloseButton            // the X in the drawer
    | MenuButton             // the menu button of the mobile header

  /** One navigation event. The drawer, its entries, its backdrop and its X
      are rendered only while `sidebarOpen` holds. */
  function Step(n: Nav, e: NavEvent): (m: Nav)
    ensures e.DesktopNav? ==> m == Nav(e.tab, n.sidebarOpen)
    ensures e.MobileNav? && n.sidebarOpen ==> m == Nav(e.tab, false)
    ensures e.MobileNav? && !n.sidebarOpen ==> m == n
    ensures e.OverlayClick? || e.CloseButton? ==> m == Nav(n.activeTab, false)
    ensures e.MenuButton? ==> m == Nav(n.activeTab, true)
  {
    match e
    case DesktopNav(t) => n.(activeTab := t)
    case MobileNav(t) => if n.sidebarOpen then Nav(t, false) else n
    case OverlayClick => if n.sidebarOpen then n.(sidebarOpen := false) else n
    case CloseButton => if n.sidebarOpen then n.(sidebarOpen := false) else n
    case MenuButton => n.(sidebarOpen := true)
  }

  /** After any event exactly one panel is shown, the one of the resulting
      tab; only the two kinds of entry change it. */
  lemma StepPanels(n: Nav, e: NavEvent)
    ensures Panels(Step(n, e).activeTab) == [PanelOf(Step(n, e).activeTab)]
    ensures !e.DesktopNav? && !e.MobileNav? ==> Panels(Step(n, e).activeTab) == Panels(n.activeTab)
  {
  }

  /** Opening and closing the drawer returns to the same state when it was
      closed, and closing twice is closing once. */
  lemma DrawerRoundTrip(n: Nav)
    ensures !n.sidebarOpen ==> Step(Step(n, MenuButton), CloseButton) == n
    ensures !n.sidebarOpen ==> Step(Step(n, MenuButton), OverlayClick) == n
    ensures Step(Step(n, CloseButton), CloseButton) == Step(n, CloseButton)
  {
  }

  /** A drawer entry does what a desktop entry does and also closes the
      drawer. */
  lemma MobileIsDesktopThenClose(n: Nav, t: Tab)
    requires n.sidebarOpen
    ensures Step(n, MobileNav(t)) == Step(Step(n, DesktopNav(t)), CloseButton)
  {
  }

  /** The layout's state: the navigation cells and the live-view session. */
  class Layout {
    const session: Selection
    var activeTab: Tab
    var sidebarOpen: bool

    function NavState(): Nav
      reads this
    {
      Nav(activeTab, sidebarOpen)
    }

    constructor()
      ensures NavState() == InitialNav
      ensures fresh(session) && session.Valid() && session.State() == Initial
    {
      session := new Selection();
      activeTab := CamerasTab;
      sidebarOpen := false;
    }

    /** A desktop sidebar entry: `setActiveTab(item.id)`. */
    method DesktopNavClick(t: Tab)
      modifies this
      ensures NavState() == Step(old(NavState()), DesktopNav(t))
    {
      activeTab := t;
    }

    /** A drawer entry: `setActiveTab(item.id)` then `setSidebarOpen(false)`. */
    method MobileNavClick(t: Tab)
      requires sidebarOpen
      modifies this
      ensures NavState() == Step(old(NavState()), MobileNav(t))
    {
      activeTab := t;
      sidebarOpen := false;
    }

    /** The backdrop behind the drawer. */
    method OverlayClick()
      requires sidebarOpen
      modifies this
      ensures NavState() == Step(old(NavState()), NavEvent.OverlayClick)
    {
      sidebarOpen := false;
    }

    /** The X button of the drawer. */
    method CloseButtonClick()
      requires sidebarOpen
      modifies this
      ensures NavState() == Step(old(NavState()), CloseButton)
    {
      sidebarOpen := false;
    }

    /** The menu button of the mobile header. */
    method MenuButtonClick()
      modifies this
      ensures NavState() == Step(old(NavState()), MenuButton)
    {
      sidebarOpen := true;
    }

    /** A preview card in the cameras panel: the session's
        `handleCameraClick`; the navigation cells are untouched. */
    method HandleCameraClick(c: Camera)
      requires activeTab == CamerasTab
      requires session.Valid()
      modifies session
      ensures session.Valid() && session.State() == Apply(old(session.State()), CameraClick(c))
      ensures NavState() == old(NavState())
    {
      session.HandleCameraClick(c);
    }
  }
}
