/** The application header (frontend Common/Header.tsx): the tab bar's index-to-route and
    route-to-index mappings, the drawer, the theme toggle and the notification badge. */
module Header {
  import opened Wrappers
  import opened Notifications

  /** The route a tab navigates to; indices outside 0..4 navigate nowhere. */
  function TabPath(index: int): (path: Option<string>)
    ensures path.Some? <==> 0 <= index < 5
    ensures path.Some? ==> |path.value| > 0 && path.value[0] == '/'
  {
    match index
    case 0 => Some("/portfolio-manager")
    case 1 => Some("/")
    case 2 => Some("/position-tracker")
    case 3 => Some("/trade-planner")
    case 4 => Some("/custom-alerts")
    case _ => None
  }

  /** The tab a route selects; other routes select none. */
  function PathTab(path: string): (index: Option<int>)
    ensures index.Some? ==> 0 <= index.value < 5
    ensures |path| == 0 || path[0] != '/' ==> index.None?
  {
    match path
    case "/portfolio-manager" => Some(0)
    case "/" => Some(1)
    case "/position-tracker" => Some(2)
    case "/trade-planner" => Some(3)
    case "/custom-alerts" => Some(4)
    case _ => None
  }

  /** The two mappings are inverse: each of the five tabs has a route that selects it again,
      and each route that selects a tab is that tab's route. */
  lemma TabPathRoundTrip(index: int, path: string)
    ensures 0 <= index < 5 <==> TabPath(index).Some?
    ensures TabPath(index).Some? ==> PathTab(TabPath(index).value) == Some(index)
    ensures PathTab(path).Some? ==> TabPath(PathTab(path).value) == Some(path)
  {
  }

  datatype ThemeMode = Light | Dark

  /** The theme button: light goes to dark, anything else to light. */
  function Toggled(mode: ThemeMode): (toggled: ThemeMode)
    ensures toggled != mode
  {
    if mode == Light then Dark else Light
  }

  lemma ToggleTwiceRestores(mode: ThemeMode)
    ensures Toggled(Toggled(mode)) == mode
  {
  }

  /** The badge: unread notifications plus active alerts. */
  function BadgeCount(notifications: seq<Notification>, alerts: seq<Alert>): (count: nat)
    ensures count <= |notifications| + |alerts|
    ensures count == 0 <==>
      (forall i :: 0 <= i < |notifications| ==> notifications[i].read)
      && (forall i :: 0 <= i < |alerts| ==> !alerts[i].isActive)
  {
    UnreadCount(notifications) + ActiveCount(alerts)
  }

  /** The header's own state: the selected tab, the drawer and the theme. */
  class HeaderState {
    var value: int
    var drawerOpen: bool
    var themeMode: ThemeMode

    constructor (themeMode: ThemeMode)
      ensures value == 0 && !drawerOpen && this.themeMode == themeMode
    {
      value := 0;
      drawerOpen := false;
      this.themeMode := themeMode;
    }

    /** Selecting a tab records it and returns where to navigate, if anywhere. */
    method HandleChange(newValue: int) returns (navigateTo: Option<string>)
      modifies this`value
      ensures value == newValue && navigateTo == TabPath(newValue)
    {
      value := newValue;
      navigateTo := TabPath(newValue);
    }

    /** A route change selects that route's tab; an unknown route leaves the selection alone. */
    method OnPathChange(path: string)
      modifies this`value
      ensures PathTab(path).Some? ==> value == PathTab(path).value
      ensures PathTab(path).None? ==> value == old(value)
    {
      var tab := PathTab(path);
      if tab.Some? {
        value := tab.value;
      }
    }

    /** On a large screen the drawer is forced closed. */
    method OnScreenChange(isLargeScreen: bool)
      modifies this`drawerOpen
      ensures isLargeScreen ==> !drawerOpen
      ensures !isLargeScreen ==> drawerOpen == old(drawerOpen)
    {
      if isLargeScreen {
        drawerOpen := false;
      }
    }

    /** The badge button opens the alerts page, the route of the last tab. */
    method OpenAlerts() returns (navigateTo: string)
      ensures TabPath(4) == Some(navigateTo)
    {
      navigateTo := "/custom-alerts";
    }

    method ToggleDrawer()
      modifies this`drawerOpen
      ensures drawerOpen == !old(drawerOpen)
    {
      drawerOpen := !drawerOpen;
    }

    method CloseDrawer()
      modifies this`drawerOpen
      ensures !drawerOpen
    {
      drawerOpen := false;
    }

    method ToggleTheme()
      modifies this`themeMode
      ensures themeMode == Toggled(old(themeMode))
    {
      themeMode := Toggled(themeMode);
    }
  }

  /** Selecting a tab and then following the route it navigates to leaves that tab selected. */
  method SelectThenFollow(header: HeaderState, index: int)
    requires 0 <= index < 5
    modifies header`value
    ensures header.value == index
  {
    var route := header.HandleChange(index);
    TabPathRoundTrip(index, "");
    header.OnPathChange(route.value);
  }
}
