/**
 * The navigation drawer: a fixed table of section headers and links, a
 * per-link role list, and the rendering that drops links the current role may
 * not see while keeping headers and the declared order.
 */
module Sidebar {
  import opened Common

  datatype MenuEntry =
    | Header(text: string)
    | Link(text: string, path: string, roles: seq<string>)

  const UserManagementLink: MenuEntry :=
    Link("User Management", "/users", [RoleName(GovernmentAdmin), RoleName(ServiceProviderAdmin)])

  const SystemStatusLink: MenuEntry :=
    Link("System Status", "/system-status", [RoleName(GovernmentAdmin)])

  /** The drawer's entries in declared order. */
  const MenuItems: seq<MenuEntry> := [
    Link("Dashboard", "/dashboard", []),
    Header("Transport Indicators"),
    Link("Car", "/indicators/car", []),
    Link("Cycle", "/indicators/cycle", []),
    Link("Bus", "/indicators/bus", []),
    Link("Train", "/indicators/train", []),
    Link("Tram", "/indicators/tram", []),
    Link("Pedestrian", "/indicators/pedestrian", []),
    Header("Events & Construction"),
    Link("Events", "/indicators/events", []),
    Link("Construction", "/indicators/construction", []),
    Header("Management"),
    Link("Simulation Center", "/simulation", []),
    Link("Notifications", "/notifications", []),
    UserManagementLink,
    SystemStatusLink
  ]

  /** A link with no role list is open to everybody; otherwise the role must be listed. */
  function HasAccess(roles: seq<string>, userRole: Option<string>): (b: bool)
    ensures b <==> roles == [] || (userRole.Some? && userRole.value in roles)
  {
    if |roles| == 0 then true
    else userRole.Some? && userRole.value in roles
  }

  /** Headers are always shown; links only when the role has access. */
  predicate Shown(userRole: Option<string>, e: MenuEntry) {
    e.Header? || HasAccess(e.roles, userRole)
  }

  function Visible(entries: seq<MenuEntry>, userRole: Option<string>): seq<MenuEntry> {
    Filter(entries, e => Shown(userRole, e))
  }

  datatype Rendered =
    | SectionHeader(caption: string)
    | NavLink(name: string, target: string, selected: bool)

  function RenderEntry(e: MenuEntry, pathname: string): Rendered {
    match e
    case Header(text) => SectionHeader(text)
    case Link(text, path, _) => NavLink(text, path, pathname == path)
  }

  /** The drawer's contents for a role and the current location. */
  function Render(entries: seq<MenuEntry>, userRole: Option<string>, pathname: string): (r: seq<Rendered>)
    ensures |r| == |Visible(entries, userRole)|
    ensures forall i :: 0 <= i < |r| ==> r[i] == RenderEntry(Visible(entries, userRole)[i], pathname)
  {
    var v := Visible(entries, userRole);
    seq(|v|, i requires 0 <= i < |v| => RenderEntry(v[i], pathname))
  }

  /** The drawer shows a subsequence of the table: hiding never reorders. */
  lemma VisibleKeepsOrder(userRole: Option<string>)
    ensures IsSubsequence(Visible(MenuItems, userRole), MenuItems)
  {
    FilterIsSubsequence(MenuItems, e => Shown(userRole, e));
  }

  /** Every section header is shown to every role. */
  lemma HeadersAlwaysShown(userRole: Option<string>, e: MenuEntry)
    requires e in MenuItems && e.Header?
    ensures e in Visible(MenuItems, userRole)
  {
    FilterMembership(MenuItems, e => Shown(userRole, e), e);
  }

  /** 'User Management' is shown exactly to government and service-provider administrators. */
  lemma UserManagementVisibility(userRole: Option<string>)
    ensures UserManagementLink in Visible(MenuItems, userRole) <==>
      userRole == Some(RoleName(GovernmentAdmin)) || userRole == Some(RoleName(ServiceProviderAdmin))
  {
    FilterMembership(MenuItems, e => Shown(userRole, e), UserManagementLink);
  }

  /** 'System Status' is shown exactly to government administrators. */
  lemma SystemStatusVisibility(userRole: Option<string>)
    ensures SystemStatusLink in Visible(MenuItems, userRole) <==> userRole == Some(RoleName(GovernmentAdmin))
  {
    FilterMembership(MenuItems, e => Shown(userRole, e), SystemStatusLink);
  }

  /** A government administrator sees the whole table. */
  lemma GovernmentAdminSeesEverything()
    ensures Visible(MenuItems, Some(RoleName(GovernmentAdmin))) == MenuItems
  {
    FilterAll(MenuItems, e => Shown(Some(RoleName(GovernmentAdmin)), e));
  }

  /** Any role, or none, sees every open link; the only links ever hidden are the two restricted ones. */
  lemma OnlyRestrictedLinksHidden(userRole: Option<string>, e: MenuEntry)
    requires e in MenuItems && e !in Visible(MenuItems, userRole)
    ensures e == UserManagementLink || e == SystemStatusLink
  {
    FilterMembership(MenuItems, x => Shown(userRole, x), e);
    OpenUnlessRestricted(e);
  }

  /** Proof helper for the lemma above: every entry of the table other than the two restricted links is a header or has no role list. */
  lemma OpenUnlessRestricted(e: MenuEntry)
    requires e in MenuItems
    ensures e.Header? || e.roles == [] || e == UserManagementLink || e == SystemStatusLink
  {
  }

  /** A link is highlighted exactly when the location equals its path. */
  lemma SelectedIffExactPath(userRole: Option<string>, pathname: string, i: nat)
    requires i < |Render(MenuItems, userRole, pathname)|
    ensures var r := Render(MenuItems, userRole, pathname)[i];
      r.NavLink? ==> (r.selected <==> pathname == r.target)
  {
  }

  /** The open links lead to the layout's open pages; only the two restricted links carry roles. */
  lemma LinkPaths(e: MenuEntry)
    requires e in MenuItems && e.Link?
    ensures e != UserManagementLink && e != SystemStatusLink ==> e.roles == [] && e.path in OpenLinkPaths
  {
  }

  const OpenLinkPaths: set<string> := {
    "/dashboard", "/indicators/car", "/indicators/cycle", "/indicators/bus", "/indicators/train",
    "/indicators/tram", "/indicators/pedestrian", "/indicators/events", "/indicators/construction",
    "/simulation", "/notifications"
  }
}
