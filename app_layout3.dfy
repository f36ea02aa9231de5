/** The dashboard layout: navigation cards with badges that change style
    with the active card, the live-view session and the `activeTab` state
    cell. */
module AppLayout3 {
  import opened Common
  import opened Fleet
  import opened Navigation
  import opened CameraSession

  /** menuItems: as in the sidebar layout, without a variant on the
      notifications entry. */
  function Menu(cams: seq<Camera>): (items: seq<MenuItem>)
    ensures |items| == |AllTabs|
    ensures forall i :: 0 <= i < |items| ==> items[i].id == AllTabs[i] && items[i].variant.None?
    ensures items[0].badge == Some(|cams|)
    ensures items[1].badge == Some(6)
    ensures forall i :: 2 <= i < |items| ==> items[i].badge.None?
  {
    [MenuItem(CamerasTab, "Câmeras", Some(|cams|), None),
     MenuItem(NotificationsTab, "Notificações", Some(6), None),
     MenuItem(EventsTab, "Eventos", None, None),
     MenuItem(SettingsTab, "Configurações", None, None),
     MenuItem(NetworkTab, "Rede", None, None)]
  }

  /** The badge of a navigation card: secondary on the active card, default
      otherwise, and red only on the notifications card while it is not
      active. */
  function CardBadge(item: MenuItem, active: Tab): (b: MenuBadge)
    ensures b.BadgeShown? <==> item.badge.Some? && item.badge.value != 0
    ensures b.ZeroText? <==> item.badge == Some(0)
    ensures b.BadgeShown? ==> b.n == item.badge.value
    ensures b.BadgeShown? ==> (b.variant == Secondary <==> item.id == active)
    ensures b.BadgeShown? ==> (b.variant == Default <==> item.id != active)
    ensures b.BadgeShown? ==> (b.redBackground <==> item.id != active && item.id == NotificationsTab)
  {
    var isActive := item.id == active;
    match GuardNumber(item.badge)
    case Hidden => NoBadge
    case StrayZero => ZeroText
    case Shown(n) => BadgeShown(if isActive then Secondary else Default, n, !isActive && item.id == NotificationsTab)
  }

  /** Whatever the active tab, at most one card carries a red badge, and
      it is the notifications card. */
  lemma RedBadgeOnlyOnNotifications(cams: seq<Camera>, active: Tab, i: int)
    requires 0 <= i < 5
    requires CardBadge(Menu(cams)[i], active).BadgeShown? && CardBadge(Menu(cams)[i], active).redBackground
    ensures i == 1 && active != NotificationsTab
  {
  }

  /** The navigation card of the active tab is the only one whose badge is
      secondary. */
  lemma SecondaryOnlyOnActive(cams: seq<Camera>, active: Tab, i: int)
    requires 0 <= i < 5
    requires CardBadge(Menu(cams)[i], active).BadgeShown?
    ensures CardBadge(Menu(cams)[i], active).variant == Secondary <==> AllTabs[i] == active
  {
  }

  /** The layout's state: the active tab and the live-view session. */
  class Layout {
    const session: Selection
    var activeTab: Tab

    constructor()
      ensures activeTab == CamerasTab
      ensures fresh(session) && session.Valid() && session.State() == Initial
    {
      session := new Selection();
      activeTab := CamerasTab;
    }

    /** The panels now rendered. */
    function Shown(): (ps: seq<Panel>)
      reads this
      ensures ps == [PanelOf(activeTab)]
    {
      Panels(activeTab)
    }

    /** A navigation card: `setActiveTab(item.id)`; the card's panel is then
        the only one shown. */
    method NavClick(t: Tab)
      modifies this
      ensures activeTab == t
      ensures Shown() == [PanelOf(t)]
    {
      activeTab := t;
    }

    /** A preview card in the cameras panel. */
    method HandleCameraClick(c: Camera)
      requires activeTab == CamerasTab
      requires session.Valid()
      modifies session
      ensures session.Valid() && session.State() == Apply(old(session.State()), CameraClick(c))
      ensures activeTab == old(activeTab)
    {
      session.HandleCameraClick(c);
    }
  }
}
