/** The tabs shared by the sidebar and dashboard layouts, the content panel
    each tab shows, and the menu items with their optional badges. */
module Navigation {
  import opened Common

  /** TabValue. */
  datatype Tab = CamerasTab | NotificationsTab | EventsTab | SettingsTab | NetworkTab {
    function Name(): string {
      match this
      case CamerasTab => "cameras"
      case NotificationsTab => "notifications"
      case EventsTab => "events"
      case SettingsTab => "settings"
      case NetworkTab => "network"
    }
  }

  /** The tabs in menu order. */
  const AllTabs: seq<Tab> := [CamerasTab, NotificationsTab, EventsTab, SettingsTab, NetworkTab]

  datatype Panel = CameraGrid | NotificationsPanel | EventsPanel | SettingsPanel | NetworkPanel

  function PanelOf(t: Tab): Panel {
    match t
    case CamerasTab => CameraGrid
    case NotificationsTab => NotificationsPanel
    case EventsTab => EventsPanel
    case SettingsTab => SettingsPanel
    case NetworkTab => NetworkPanel
  }

  /** The five `activeTab === x && <panel/>` children, in order: exactly one
      panel is rendered, the active tab's. */
  function Panels(active: Tab): (ps: seq<Panel>)
    ensures ps == [PanelOf(active)]
  {
    (if active == CamerasTab then [CameraGrid] else [])
    + (if active == NotificationsTab then [NotificationsPanel] else [])
    + (if active == EventsTab then [EventsPanel] else [])
    + (if active == SettingsTab then [SettingsPanel] else [])
    + (if active == NetworkTab then [NetworkPanel] else [])
  }

  /** Distinct tabs show distinct panels. */
  lemma PanelOfInjective(a: Tab, b: Tab)
    ensures PanelOf(a) == PanelOf(b) <==> a == b
  {
  }

  /** An entry of `menuItems`: the optional badge number and the optional
      badge variant. */
  datatype MenuItem = MenuItem(id: Tab, text: string, badge: Option<int>, variant: Option<BadgeVariant>)

  /** What `item.badge && <Badge .../>` renders: nothing, a stray "0" for a
      zero badge, or the badge with its variant, number and whether the red
      background class is added. */
  datatype MenuBadge = NoBadge | ZeroText | BadgeShown(variant: BadgeVariant, n: int, redBackground: bool)
}
