# Sustainable City Management — a verified model of its core

Sustainable City Management is a city dashboard: a React front end over a
Java Spring back end. This project models, in Dafny, the parts of both that
hold decisions and state, and proves what each of them promises.

Front end:

- **The `ui` store slice** (`ui_slice.dfy`): the notification list with its
  cached unread count, the sidebar and offline flags, and the snackbar. The
  class `UiSlice.UiState` updates its fields in place, one method per reducer;
  each method is proved equal to the pure reducer `UiSlice.Reduce`. The main
  invariant is that the cached count always equals the number of unread
  records. The typed and untyped builds of the slice have the same reducers,
  so one model serves both.
- **Access control**: the route guard (`protected_route.dfy`), the route table
  (`app_routes.dfy`), the role-filtered sidebar (`sidebar.dfy`) and the role
  helpers (`helpers.dfy`). The route table looks a pathname up as React Router
  does: ASCII letters without regard to case, trailing slashes ignored. The
  role helpers' plain-object lookup can reach names inherited from
  `Object.prototype`, and the model keeps that case.
- **Text helpers** (`helpers.dfy`): JavaScript strings are sequences of UTF-16
  code units, so the truncation helper measures and cuts in code units.
- **Constants** (`constants.dfy`): the role tables and the endpoint paths with
  their id builders.
- **Query keys** (`query_keys.dfy`): the cache keys the data hooks build, and
  the keys each successful mutation invalidates.
- **Page logic**, lifted out of the JSX:
  - notification filters and mark-read handling (`notification_center.dfy`);
  - system-status verdicts, labels, colours and uptime (`system_status.dfy`);
  - the simulation page's efficiency average and its dialog
    (`simulation_center.dfy`);
  - the user-management page's dialog and requests (`user_management.dfy`);
  - the construction and events indicator pages (`indicators.dfy`);
  - the registration form (`register.dfy`).

Back end:

- **The user registry** (`user_service.dfy`): accounts by id and by username,
  with an id counter. The username index maps a name to an id, which stands
  for the stored `User` object the Java map shares with the id map.
- **Login and registration** (`auth_service.dfy`).
- **The in-memory notification and simulation tables** (`mock_data_service.dfy`).
- **The four REST controllers** (`controllers.dfy`), which map service results
  to status codes and bodies.

The stateful parts are classes whose methods update their fields in place.
The store slice, the user registry and the mock data service expose their
state as a pure value (`Value()`), and each of their methods is proved
against a function on that value. The page classes state their new fields
outright. The properties are proved about those
functions: invariants kept, idempotence, "nothing else changes", and round
trips between operations. `common.dfy` holds the shared vocabulary: `Option`,
the four roles, order-preserving filtering with its counting lemmas, and
decimal rendering.

## Model

| member | source | states |
|---|---|---|
| ProtectedRoute.Decide | frontend/src/components/common/ProtectedRoute.jsx:8-49 | no session always redirects to the login page; admission holds exactly when logged in and the role list is empty or holds the role; denial exactly when logged in with a non-empty list that lacks the role |
| ProtectedRoute.DefaultAdmitsAuthenticated | frontend/src/components/common/ProtectedRoute.jsx:8-19 | with the default empty role list every logged-in visitor is admitted, whatever role is stored |
| ProtectedRoute.UnauthenticatedAlwaysRedirected | frontend/src/components/common/ProtectedRoute.jsx:12-14 | a visitor without a session is redirected whatever the role list, and never sees the denial panel |
| ProtectedRoute.WideningKeepsAllow | frontend/src/components/common/ProtectedRoute.jsx:21-49 | adding roles to a non-empty list never turns an admission into a denial |
| AppRoutes.Match | frontend/src/App.jsx:44-103 | a pathname selects its route by its key (trailing slashes dropped, ASCII letters lower-cased): an undeclared key selects the catch-all redirect to the dashboard; an open child key selects its page behind the layout guard only; the `/users` and `/system-status` keys select their pages behind the layout guard and their own role guard |
| AppRoutes.RouterAgrees | frontend/src/App.jsx:44-103 | the key agrees with React Router's case-insensitive matching: a pathname reaches a route path exactly when it spells that path up to ASCII case and then has only slashes |
| AppRoutes.MatchKeyIdempotent | frontend/src/App.jsx:44-103 | a key is its own key |
| AppRoutes.MatchKeyIgnoresCase | frontend/src/App.jsx:44-103 | lower-casing a pathname never changes its key |
| AppRoutes.MatchKeyIgnoresTrailingSlash | frontend/src/App.jsx:44-103 | a trailing slash on a non-empty pathname never changes its key |
| AppRoutes.VisitByKey | frontend/src/App.jsx:44-103 | a visit depends only on the key: the pathname, its key, its lower-cased spelling and the pathname with a slash appended all produce the same screen |
| AppRoutes.OpenPathsFixed | frontend/src/App.jsx:62-78 | every open child path in the table is its own key, so the paths the drawer links to reach their routes as written |
| AppRoutes.PassLayout | frontend/src/App.jsx:50-57 | under the role-free layout guard the child element is reached exactly when logged in, otherwise the login redirect |
| AppRoutes.PassNested | frontend/src/App.jsx:81-98 | under the layout guard plus a role guard: login redirect first, then the element for an included role, otherwise the denial panel |
| AppRoutes.PublicRoutesOpen | frontend/src/App.jsx:46-47 | any pathname keyed `/login` or `/register` shows that page with or without a session |
| AppRoutes.LayoutRequiresSession | frontend/src/App.jsx:50-99 | every pathname keyed as a route under the layout, guarded or not, sends a visitor without a session to the login page |
| AppRoutes.RedirectsToDashboard | frontend/src/App.jsx:58-102 | a pathname keyed as the index route (when logged in) and any pathname whose key the table does not declare (always) redirect to the dashboard |
| AppRoutes.UsersRouteGuard | frontend/src/App.jsx:81-88 | for any pathname keyed `/users`, such as `/Users/`, the user-management page is shown to a logged-in visitor exactly when the role is government administrator or service-provider administrator; anyone else logged in sees the denial panel |
| AppRoutes.SystemStatusRouteGuard | frontend/src/App.jsx:91-98 | for any pathname keyed `/system-status`, the system-status page is shown to a logged-in visitor exactly when the role is government administrator; anyone else logged in sees the denial panel |
| AppRoutes.OpenChildrenAdmitAnyRole | frontend/src/App.jsx:62-78 | any pathname keyed as a dashboard, indicator, simulation or notification path shows that page to any logged-in visitor, with or without a role |
| AppRoutes.SidebarLinksReachable | frontend/src/components/layout/Sidebar.jsx:40-129 | every link the drawer shows a logged-in role leads to a page of the route table, never to the denial panel or a redirect |
| Sidebar.HasAccess | frontend/src/components/layout/Sidebar.jsx:64-67 | a link is accessible exactly when its role list is empty or contains the current role; a missing role is in no list |
| Sidebar.Render | frontend/src/components/layout/Sidebar.jsx:90-129 | the drawer renders one entry per visible table entry, in order, each header as a caption and each link as a navigation item |
| Sidebar.VisibleKeepsOrder | frontend/src/components/layout/Sidebar.jsx:90-112 | what the drawer shows is a subsequence of the declared table: hiding never reorders |
| Sidebar.HeadersAlwaysShown | frontend/src/components/layout/Sidebar.jsx:91-110 | every section header is shown to every role, with or without one |
| Sidebar.UserManagementVisibility | frontend/src/components/layout/Sidebar.jsx:55-60 | the 'User Management' link is shown exactly to government and service-provider administrators |
| Sidebar.SystemStatusVisibility | frontend/src/components/layout/Sidebar.jsx:61 | the 'System Status' link is shown exactly to government administrators |
| Sidebar.GovernmentAdminSeesEverything | frontend/src/components/layout/Sidebar.jsx:40-67 | a government administrator sees the whole table |
| Sidebar.OnlyRestrictedLinksHidden | frontend/src/components/layout/Sidebar.jsx:40-62 | the only entries ever hidden, for any role or none, are the two restricted links |
| Sidebar.SelectedIffExactPath | frontend/src/components/layout/Sidebar.jsx:114-119 | a rendered link is highlighted exactly when the current location equals its path |
| Sidebar.LinkPaths | frontend/src/components/layout/Sidebar.jsx:41-54 | every link other than the two restricted ones carries no role list and points at one of the layout's open pages |
| Constants.RolesTypedDistinct | frontend/src/constants/index.ts:7-12 | the typed role table has four entries, maps distinct keys to distinct roles, and maps each key to the role of the same name |
| Constants.RolesUntypedPrefixed | frontend/src/constants/index.js:5-10 | every untyped role value is its key with `ROLE_` in front, which is the name the back end issues for that role |
| Constants.UserById | frontend/src/constants/index.ts:23 | the user path is `/users/` followed by exactly the id |
| Constants.SimulationById | frontend/src/constants/index.ts:42 | the simulation path is `/simulations/` followed by exactly the id |
| Constants.MarkNotificationRead | frontend/src/constants/index.ts:47 | the mark-read path is `/notifications/`, exactly the id, then `/read` |
| Constants.PathsDistinct | frontend/src/constants/index.ts:15-53 | different fixed endpoints have different paths |
| Constants.BuildersInjective | frontend/src/constants/index.ts:23-47 | each id-splicing builder gives different paths for different ids |
| Constants.NumericIdsDistinct | frontend/src/constants/index.ts:23-47 | numeric ids written in decimal give a different path for every id, for all three builders |
| Constants.BuilderCollisions | frontend/src/constants/index.ts:23-43 | the user builder with id 'service-provider' and the simulation builder with id 'run' produce fixed endpoint paths |
| Constants.MarkPathsNeverCollide | frontend/src/constants/index.ts:47-48 | no notification id makes the mark-one path equal the mark-all path |
| Constants.ModesAndTypesDistinct | frontend/src/constants/index.ts:56-71 | the six transport modes and the four notification types are each pairwise distinct |
| Helpers.Prefix | frontend/src/utils/helpers.ts:40 | `substring(0, n)` keeps a prefix of the string, counted in UTF-16 code units, whose length is n clamped to between 0 and the string's length |
| Helpers.TruncateText | frontend/src/utils/helpers.ts:38-41 | missing or empty text gives ''; text no longer than the limit, in UTF-16 code units, comes back unchanged; longer text becomes its first `maxLength` code units followed by '...' |
| Helpers.TruncateTextUntyped | frontend/src/utils/helpers.js:36-39 | falsy input (null and undefined included) and text no longer than the limit, in UTF-16 code units, come back exactly as given; longer text is cut as in the typed build |
| Helpers.TruncateShape | frontend/src/utils/helpers.ts:38-41 | for a limit below the text's length the result is three code units longer than the limit, starts with the text's first `maxLength` code units and ends with '...' |
| Helpers.TruncateBound | frontend/src/utils/helpers.ts:38-41 | a result is never longer than a non-negative limit plus three, nor than the text plus three |
| Helpers.TruncateBuildsAgree | frontend/src/utils/helpers.js:36-39 | the two builds give the same string for every string input; they differ only in that null and undefined stay as they are in the untyped build and become '' in the typed one |
| Helpers.TruncateSplitsSurrogatePair | frontend/src/utils/helpers.ts:38-41 | the limit counts code units: two characters beyond U+FFFF are four units long, so a limit of 3 truncates them, keeping the first character and a lone high surrogate of the second before '...' |
| Helpers.TruncateBasicPlane | frontend/src/utils/helpers.ts:38-41 | for text made only of characters below U+10000 the length is the number of characters, and a cut result is the clamped limit plus three long |
| Helpers.HasRole | frontend/src/utils/helpers.ts:44-50 | a missing user or a missing or empty role is never accepted; otherwise the role must equal the single role asked for, or be in the list asked for |
| Helpers.HasRoleSingleAsList | frontend/src/utils/helpers.ts:44-50 | asking for one role is the same as asking for a one-element list |
| Helpers.RoleDisplayName | frontend/src/utils/helpers.ts:53-61 | each unprefixed role name maps to its display name; one of the twelve names inherited from `Object.prototype` yields the inherited member, and exactly those do; any other string comes back unchanged |
| Helpers.RoleDisplayNameUntyped | frontend/src/utils/helpers.js:51-59 | each `ROLE_`-prefixed role name maps to its display name; one of the twelve names inherited from `Object.prototype` yields the inherited member, and exactly those do; any other string comes back unchanged |
| Helpers.DisplayNameSpellings | frontend/src/utils/helpers.js:51-59 | each build recognises only its own spelling of a role; the other build's spelling comes back unchanged |
| Helpers.DisplayNamesDistinct | frontend/src/utils/helpers.ts:53-61 | different roles get different display names, in both builds |
| Helpers.PrototypeNamesInherited | frontend/src/utils/helpers.ts:53-61 | `toString`, `constructor` and `__proto__` are not echoed back as role names: the lookup reaches the inherited member, in either build |
| Helpers.FormatNumber | frontend/src/utils/helpers.ts:26-29 | null or undefined is shown as '0'; a present number gets the locale rendering |
| Helpers.FormatPercentage | frontend/src/utils/helpers.ts:32-35 | null or undefined is shown as '0%'; a present number gets its one-decimal rendering followed by '%' |
| Helpers.FormatDate | frontend/src/utils/helpers.ts:4-23 | a falsy date (null, undefined or '') is shown as ''; anything else gets the locale rendering |
| Helpers.ZeroIsFormatted | frontend/src/utils/helpers.ts:26-35 | zero is a present number: it is rendered, not replaced by the default |
| UiSlice.FindFirst | frontend/src/redux/slices/uiSlice.ts:51 | `find` gives the index of the first record carrying the id, with no earlier record carrying it, and nothing exactly when no record carries it |
| UiSlice.AllRead | frontend/src/redux/slices/uiSlice.ts:58 | every record comes back with its read flag set, at the same position and otherwise unchanged |
| UiSlice.ReducePreservesConsistent | frontend/src/redux/slices/uiSlice.ts:33-77 | every reducer keeps the cached unread count equal to the number of unread records |
| UiSlice.ReduceAllConsistent | frontend/src/redux/slices/uiSlice.ts:18-77 | from a consistent state, any sequence of actions leaves the count consistent and never negative |
| UiSlice.InitialConsistent | frontend/src/redux/slices/uiSlice.ts:18-28 | the initial state has the sidebar open, no records, a zero count, online mode and a closed empty 'info' snackbar, and is consistent |
| UiSlice.SetNotificationsEffect | frontend/src/redux/slices/uiSlice.ts:40-43 | `setNotifications` installs the payload and sets the count to the number of its unread records |
| UiSlice.AddNotificationEffect | frontend/src/redux/slices/uiSlice.ts:44-49 | `addNotification` puts the record in front of the unchanged list; the unread count grows by one exactly when the record is unread |
| UiSlice.MarkNotificationReadEffect | frontend/src/redux/slices/uiSlice.ts:50-56 | `markNotificationRead` changes nothing exactly when the first record with the id is missing or already read; otherwise it sets the read flag of that record only and lowers the count by one |
| UiSlice.MarkNotificationReadIdempotent | frontend/src/redux/slices/uiSlice.ts:50-56 | marking the same id a second time changes nothing |
| UiSlice.MarkAllNotificationsReadEffect | frontend/src/redux/slices/uiSlice.ts:57-60 | `markAllNotificationsRead` leaves no unread record and a zero count, keeps length and order, and a second call changes nothing |
| UiSlice.ToggleSidebarTwice | frontend/src/redux/slices/uiSlice.ts:34-36 | a toggle negates the sidebar flag, and two toggles restore the state |
| UiSlice.LayoutActionsKeepNotifications | frontend/src/redux/slices/uiSlice.ts:34-76 | the sidebar, offline and snackbar actions never touch the notification list or the count |
| UiSlice.SnackbarEffect | frontend/src/redux/slices/uiSlice.ts:64-76 | `showSnackbar` opens with the message and the given severity, 'info' when none is given; `hideSnackbar` only clears the open flag |
| UiSlice.NoUnreadIff | frontend/src/redux/slices/uiSlice.ts:42 | the unread count is zero exactly when every record is read |
| UiSlice.UiState.constructor | frontend/src/redux/slices/uiSlice.ts:18-28 | a new store slice holds the initial state |
| UiSlice.UiState.ToggleSidebar | frontend/src/redux/slices/uiSlice.ts:34-36 | the new state is the `toggleSidebar` reduction of the old one |
| UiSlice.UiState.SetSidebarOpen | frontend/src/redux/slices/uiSlice.ts:37-39 | the new state is the `setSidebarOpen` reduction of the old one |
| UiSlice.UiState.SetNotifications | frontend/src/redux/slices/uiSlice.ts:40-43 | counting the unread records in a loop gives the `setNotifications` reduction of the old state |
| UiSlice.UiState.AddNotification | frontend/src/redux/slices/uiSlice.ts:44-49 | the new state is the `addNotification` reduction of the old one |
| UiSlice.UiState.MarkNotificationRead | frontend/src/redux/slices/uiSlice.ts:50-56 | the new state is the `markNotificationRead` reduction of the old one |
| UiSlice.UiState.MarkAllNotificationsRead | frontend/src/redux/slices/uiSlice.ts:57-60 | the new state is the `markAllNotificationsRead` reduction of the old one |
| UiSlice.UiState.SetOfflineMode | frontend/src/redux/slices/uiSlice.ts:61-63 | the new state is the `setOfflineMode` reduction of the old one |
| UiSlice.UiState.ShowSnackbar | frontend/src/redux/slices/uiSlice.ts:64-73 | the new state is the `showSnackbar` reduction of the old one |
| UiSlice.UiState.HideSnackbar | frontend/src/redux/slices/uiSlice.ts:74-76 | the new state is the `hideSnackbar` reduction of the old one |
| UiSlice.UiState.Dispatch | frontend/src/redux/slices/uiSlice.ts:33-77 | dispatching any action gives that action's reduction of the old state |
| QueryKey.Invalidations | frontend/src/hooks/useUsers.ts:47-53 | a mutation invalidates only keys from its success callback, and nothing at all when it fails |
| QueryKey.FailureCoversNothing | frontend/src/hooks/useUsers.ts:47-53 | after a failed mutation no stored query is refreshed |
| UsersQuery.UserQueryEnabled | frontend/src/hooks/useUsers.ts:25-32 | the single-user query runs exactly for a non-empty id |
| UsersQuery.KeyPrefixes | frontend/src/hooks/useUsers.ts:6-13 | `lists()` is a strict prefix of every `list(filters)`, and `all` of every other user key |
| UsersQuery.KeysSeparate | frontend/src/hooks/useUsers.ts:6-13 | detail keys are equal exactly for equal ids; no detail key and not the service-provider key lies under `lists()` |
| UsersQuery.MutationCoverage | frontend/src/hooks/useUsers.ts:14-78 | all three mutations refresh `lists()`, the key the users list is cached under; a create refreshes every filtered list and the service-provider list but no detail; an update refreshes the lists and its own detail only, not another user's detail nor the service-provider list; a delete refreshes the lists only |
| SimulationsQuery.SimulationQueryEnabled | frontend/src/hooks/useSimulations.ts:23-30 | the single-simulation query runs exactly for a non-empty id |
| SimulationsQuery.MutationCoverage | frontend/src/hooks/useSimulations.ts:33-54 | running and deleting a simulation both refresh the list and never a detail entry, not even the deleted one's |
| NotificationsQuery.Configuration | frontend/src/hooks/useNotifications.ts:6-43 | the list key extends `all`; the polled list turns stale before each poll; both mutations refresh exactly the list, and nothing when they fail |
| IndicatorsQuery.KeyShape | frontend/src/hooks/useIndicators.ts:12-20 | every indicator key starts with 'indicators'; transport keys differ by mode; events, construction and transport keys differ in their second part |
| IndicatorsQuery.HooksDistinct | frontend/src/hooks/useIndicators.ts:22-92 | two different indicator hooks never share a cache entry for the same filters, and each keeps data fresh for one minute |
| NotificationCenter.FilterViewsPartition | frontend/src/pages/notifications/NotificationCenter.tsx:47-56 | the unread and read views split the list between them, each keeps the original order and holds only records of its kind, and 'all' is the list itself |
| NotificationCenter.ReadButtonCount | frontend/src/pages/notifications/NotificationCenter.tsx:110-121 | the 'Unread' figure is the size of the unread view, and the 'Read' figure (total minus unread) is the size of the read view |
| NotificationCenter.ByTypeSumsToTotal | frontend/src/pages/notifications/NotificationCenter.tsx:37-44 | when every record has one of the four types, the four per-type counters add up to the total |
| NotificationCenter.MarkAllDisabled | frontend/src/pages/notifications/NotificationCenter.tsx:82 | 'Mark All as Read' is enabled exactly when some record is unread and no request is pending |
| NotificationCenter.MockCounts | frontend/src/pages/notifications/NotificationCenter.jsx:49-95 | the five sample records hold two unread ones, two of type INFO and one each of WARNING, ERROR and SUCCESS |
| NotificationCenter.NotificationPage.constructor | frontend/src/pages/notifications/NotificationCenter.jsx:23-33 | the page starts not loading, over the shared store slice |
| NotificationCenter.NotificationPage.FetchNotifications | frontend/src/pages/notifications/NotificationCenter.jsx:35-47 | the store receives the server's list, or the five samples when the fetch fails, and loading ends in both cases; after a failed fetch 'Mark All as Read' is enabled |
| NotificationCenter.NotificationPage.HandleMarkAsRead | frontend/src/pages/notifications/NotificationCenter.jsx:97-105 | the record is marked read in the store whether or not the server call succeeded |
| NotificationCenter.NotificationPage.HandleMarkAllAsRead | frontend/src/pages/notifications/NotificationCenter.jsx:107-115 | every record is marked read in the store whether or not the server call succeeded |
| NotificationCenter.MockFallback | frontend/src/pages/notifications/NotificationCenter.jsx:40-43 | after a failed fetch the store counts two unread records and stays consistent, so the mark-all button is enabled |
| NotificationCenter.NotificationPage.MarkAllButtonDisabled | frontend/src/pages/notifications/NotificationCenter.jsx:153 | while the store's counter is consistent with its list, the untyped button is disabled exactly when the typed page's condition holds with no request pending, that is, exactly when no record is unread |
| SystemStatus.JsRem | frontend/src/pages/system/SystemStatus.tsx:92-93 | JavaScript's `%` by a positive divisor: the remainder lies in [0, b) for a non-negative dividend and in (-b, 0] for a negative one |
| SystemStatus.FormatUptime | frontend/src/pages/system/SystemStatus.tsx:87-96 | a truthy text argument is shown as given; with neither argument truthy the result is 'N/A'; the day/hour/minute form is produced exactly when the text is falsy and the seconds argument is a non-zero number |
| SystemStatus.HourRemainder | frontend/src/pages/system/SystemStatus.tsx:92-93 | for non-negative seconds the remainder by a day and then by an hour equals the remainder by an hour |
| SystemStatus.SpanBounds | frontend/src/pages/system/SystemStatus.tsx:91-95 | for a positive number of seconds the days are non-negative, the hours below 24, the minutes below 60, and the three parts account for all but under a minute of the total |
| SystemStatus.CallSiteNeverSpans | frontend/src/pages/system/SystemStatus.tsx:117 | the page passes the same field as both arguments, so the day/hour/minute form never appears there: a truthy field is shown as given, anything else as 'N/A' |
| SystemStatus.StatusLabel | frontend/src/pages/system/SystemStatus.tsx:74-85 | exactly the lower-case states 'up', 'down' and 'maintenance' are renamed (to 'Running', 'Error' and 'Warning'); any other state is kept |
| SystemStatus.StatusColor | frontend/src/pages/system/SystemStatus.tsx:58-72 | success exactly for 'up'/'Running', warning exactly for 'maintenance'/'Warning', error exactly for 'down'/'Error', the default colour otherwise |
| SystemStatus.LabelColorAgree | frontend/src/pages/system/SystemStatus.tsx:58-85 | labelling is idempotent, and a label has the colour of the state it names |
| SystemStatus.OverallStatus | frontend/src/pages/system/SystemStatus.tsx:98-108 | no status yields 'Loading...'; a `services` object keyed by name throws a type error, and only it does; otherwise 'Critical' exactly when some service is down, 'Warning' exactly when none is down and some is degraded, 'Healthy' exactly when none is either; a missing service list counts as empty |
| SystemStatus.OverallColorFollowsText | frontend/src/pages/system/SystemStatus.tsx:105-107 | the verdict's colour is determined by its text |
| SystemStatus.UsageColor | frontend/src/pages/system/SystemStatus.tsx:233 | error exactly above 80, warning exactly above 60 up to 80, primary exactly at 60 or below |
| SystemStatus.UsageColorMonotone | frontend/src/pages/system/SystemStatus.tsx:233-255 | a higher usage never shows a milder colour |
| SystemStatus.Pick | frontend/src/pages/system/SystemStatus.tsx:113-116 | the nested reading wins when present, then the top-level one, then 0; only a missing value falls through, so a reported 0 is kept |
| SystemStatus.Displayed | frontend/src/pages/system/SystemStatus.tsx:113-116 | with no status every reading is 0; with a nested metrics object each reading is picked field by field |
| SystemStatus.FlatFallback | frontend/src/pages/system/SystemStatus.tsx:113-116 | without a nested metrics object every reading is the top-level field, or 0 when that is missing |
| SystemStatusUntyped.StatusColor | frontend/src/pages/system/SystemStatus.jsx:88-99 | only the capitalised states are coloured: success exactly for 'Running', warning for 'Warning', error for 'Error', the default colour for anything else |
| SystemStatusUntyped.ColorsAgreeOnCapitalised | frontend/src/pages/system/SystemStatus.jsx:88-99 | on the capitalised states the untyped build colours as the typed one; the lower-case states get the default colour here but a real colour there |
| SystemStatusUntyped.OverallStatus | frontend/src/pages/system/SystemStatus.jsx:101-109 | no status yields 'Loading...'; a status whose `services` is missing or an object throws a type error, and only such a status does; otherwise 'Critical' exactly when some service is 'Error', 'Warning' exactly when none is and some is 'Warning', 'Healthy' exactly when neither occurs |
| SystemStatusUntyped.MockVerdict | frontend/src/pages/system/SystemStatus.jsx:49-64 | the sample status has six services and its verdict is 'Warning' |
| SystemStatusUntyped.BackendStatus | backend/src/main/java/com/city/management/service/MockDataService.java:191-199 | the back end's status record as the page receives it: `services` is an object keyed by the four names `database`, `cache`, `api` and `monitoring`, each 'healthy', and the uptime is the clock's seconds |
| SystemStatusUntyped.BackendStatusThrows | frontend/src/pages/system/SystemStatus.tsx:101-102 | on every answer of the back end's status endpoint both builds of the page throw a type error when computing the verdict |
| SystemStatusUntyped.UsageColor | frontend/src/pages/system/SystemStatus.jsx:208 | a missing reading compares false and gets primary; a present one is coloured as in the typed build |
| SystemStatusUntyped.BarValue | frontend/src/pages/system/SystemStatus.jsx:207 | a missing reading is drawn as 0, a present one as given |
| SystemStatusUntyped.ColorMatchesBar | frontend/src/pages/system/SystemStatus.jsx:207-230 | a bar's colour is always the colour of the value it draws |
| SystemStatusUntyped.Page.constructor | frontend/src/pages/system/SystemStatus.jsx:26-27 | the page starts with no status and not loading |
| SystemStatusUntyped.Page.FetchSystemStatus | frontend/src/pages/system/SystemStatus.jsx:36-47 | after a poll the page holds the server's status, or the sample when the call failed, and is no longer loading |
| SystemStatusUntyped.FailedFetchShowsWarning | frontend/src/pages/system/SystemStatus.jsx:41-43 | after a failed poll the page's verdict is 'Warning' |
| SimulationCenter.Efficiency | frontend/src/pages/simulation/SimulationCenter.tsx:979-981 | a run's efficiency is never negative, and never above 100 when its congestion is non-negative |
| SimulationCenter.TotalEfficiency | frontend/src/pages/simulation/SimulationCenter.tsx:978-983 | the accumulated efficiency is non-negative, and at most 100 per run when no congestion is negative |
| SimulationCenter.Round | frontend/src/pages/simulation/SimulationCenter.tsx:985 | `Math.round` gives the integer within one half of its argument, halves rounding up |
| SimulationCenter.AverageEfficiency | frontend/src/pages/simulation/SimulationCenter.tsx:971-986 | 0 when no completed run has a summary; otherwise the mean efficiency of those runs, rounded; always non-negative and, when no congestion is negative, at most 100 |
| SimulationCenter.MeanBounds | frontend/src/pages/simulation/SimulationCenter.tsx:985 | a mean of a non-negative total is non-negative, and at most 100 when the total is at most 100 per run |
| SimulationCenter.CongestionOfFiltered | frontend/src/pages/simulation/SimulationCenter.tsx:972-974 | keeping only the scored runs keeps every congestion figure non-negative |
| SimulationCenter.StalledRunsScoreZero | frontend/src/pages/simulation/SimulationCenter.tsx:979-981 | a run without a positive speed, or with congestion of 100 or more, scores 0 |
| SimulationCenter.StatusColor | frontend/src/pages/simulation/SimulationCenter.tsx:946-961 | primary exactly for 'running', success exactly for 'completed', error exactly for 'failed', warning exactly for 'pending', the default colour otherwise |
| SimulationCenter.CountersWithinTotal | frontend/src/pages/simulation/SimulationCenter.tsx:1019-1041 | the 'Running' and 'Completed' cards add up to at most 'Total Simulations', and the runs averaged are at most the completed ones |
| SimulationCenter.ScoredAreCompleted | frontend/src/pages/simulation/SimulationCenter.tsx:972-974 | the scored runs are never more than the completed runs |
| SimulationCenter.BuildRequest | frontend/src/pages/simulation/SimulationCenter.tsx:921-932 | the request carries the form's name, description and scenario, and its four parameters under `parameters` |
| SimulationCenter.BuildRequestLossless | frontend/src/pages/simulation/SimulationCenter.tsx:921-932 | the form can be read back from the request built from it, so different forms give different requests |
| SimulationCenter.RunDisabled | frontend/src/pages/simulation/SimulationCenter.tsx:1296-1300 | 'Run Simulation' is enabled exactly when name and description are non-empty and no run is pending |
| SimulationCenter.NumberField | frontend/src/pages/simulation/SimulationCenter.tsx:1223 | `parseInt(value) \|\| 0`: a parsed number is kept, an unparsable entry becomes 0 |
| SimulationCenter.Dialog.constructor | frontend/src/pages/simulation/SimulationCenter.tsx:887-896 | the dialog starts closed with the default form |
| SimulationCenter.Dialog.HandleOpenDialog | frontend/src/pages/simulation/SimulationCenter.tsx:906 | opening shows the dialog and keeps the form |
| SimulationCenter.Dialog.HandleCloseDialog | frontend/src/pages/simulation/SimulationCenter.tsx:908-919 | cancelling hides the dialog and restores every default |
| SimulationCenter.Dialog.SetName | frontend/src/pages/simulation/SimulationCenter.tsx:1169-1170 | the name field is replaced, everything else kept |
| SimulationCenter.Dialog.SetDescription | frontend/src/pages/simulation/SimulationCenter.tsx:1180-1184 | the description field is replaced, everything else kept |
| SimulationCenter.Dialog.SetScenario | frontend/src/pages/simulation/SimulationCenter.tsx:1194-1198 | the scenario field is replaced, everything else kept |
| SimulationCenter.Dialog.SetDuration | frontend/src/pages/simulation/SimulationCenter.tsx:1220-1224 | the duration becomes the parsed number, or 0, everything else kept |
| SimulationCenter.Dialog.SetTrafficIncrease | frontend/src/pages/simulation/SimulationCenter.tsx:1233-1237 | the traffic increase becomes the parsed number, or 0, everything else kept |
| SimulationCenter.Dialog.SetWeatherConditions | frontend/src/pages/simulation/SimulationCenter.tsx:1247-1252 | the weather field is replaced, everything else kept |
| SimulationCenter.Dialog.SetTimeOfDay | frontend/src/pages/simulation/SimulationCenter.tsx:1270-1275 | the time-of-day field is replaced, everything else kept |
| SimulationCenter.Dialog.HandleRunSimulation | frontend/src/pages/simulation/SimulationCenter.tsx:921-938 | sends the request built from the current form; success closes the dialog and restores the defaults, failure changes nothing |
| UserManagement.DisplayUsers | frontend/src/pages/users/UserManagement.tsx:113 | the four sample users are shown when the fetch failed or came back empty, the fetched list otherwise |
| UserManagement.RoleCountsSumToTotal | frontend/src/pages/users/UserManagement.tsx:222-227 | when every user has one of the four roles, the four per-role counters add up to the number of users shown |
| UserManagement.ProvidersCard | frontend/src/pages/users/UserManagement.tsx:266-270 | the 'Service Providers' card, the sum of two counters, counts exactly the users holding either provider role |
| UserManagement.MockRoleCounts | frontend/src/pages/users/UserManagement.tsx:65-110 | the sample list holds four users, one under each role |
| UserManagement.RoleColor | frontend/src/pages/users/UserManagement.tsx:209-220 | error exactly for government administrators, warning exactly for city managers, info exactly for provider administrators, the default colour for anything else (provider users included) |
| UserManagement.FormFor | frontend/src/pages/users/UserManagement.tsx:119-126 | editing fills the form with the user's username, email and role, '' for each missing name or department, and no password |
| UserManagement.Set | frontend/src/pages/users/UserManagement.tsx:338-387 | an input handler changes its own field to the typed value and leaves every other field as it was |
| UserManagement.SaveRequest | frontend/src/pages/users/UserManagement.tsx:155-197 | an update is sent exactly in edit mode with a non-empty id, carrying that id and only the contact fields; otherwise a create carries the form, with 'defaultPassword123' when no non-empty password was typed |
| UserManagement.SaveRequestShape | frontend/src/pages/users/UserManagement.tsx:178-186 | a create always carries a non-empty password, and outside edit mode the save is always a create |
| UserManagement.UserDialog.constructor | frontend/src/pages/users/UserManagement.tsx:46-57 | the dialog starts closed, in add mode, with the blank form and no id |
| UserManagement.UserDialog.HandleOpenDialog | frontend/src/pages/users/UserManagement.tsx:115-140 | opening with a user enters edit mode with that user's id and form; opening without one enters add mode with the blank form |
| UserManagement.UserDialog.HandleCloseDialog | frontend/src/pages/users/UserManagement.tsx:142-153 | closing hides the dialog, clears the form and the id, and keeps the edit flag |
| UserManagement.UserDialog.Change | frontend/src/pages/users/UserManagement.tsx:338-387 | typing changes one field of the form and nothing else of the dialog |
| UserManagement.UserDialog.HandleSaveUser | frontend/src/pages/users/UserManagement.tsx:155-197 | sends the request the current state selects; success closes the dialog, failure changes nothing |
| UserManagement.EditThenSave | frontend/src/pages/users/UserManagement.tsx:115-175 | opening a user with a non-empty id and saving unchanged sends an update of that id with the user's contact fields |
| ImpactScale.ImpactColor | frontend/src/pages/indicators/ConstructionIndicator.tsx:67-78 | error exactly for 'high', warning exactly for 'medium', success exactly for 'low', info for anything else |
| ImpactScale.ImpactLabel | frontend/src/pages/indicators/ConstructionIndicator.tsx:106-117 | exactly the three levels are renamed, to 'High', 'Medium' and 'Low'; anything else is kept |
| ImpactScale.ImpactLabelStable | frontend/src/pages/indicators/EventsIndicator.tsx:105-116 | labelling is idempotent, and the three levels get three different labels |
| ConstructionIndicator.DisplayProjects | frontend/src/pages/indicators/ConstructionIndicator.tsx:65 | the samples are shown after an error or an empty answer, the fetched projects otherwise; the list shown is never empty |
| ConstructionIndicator.StatusColor | frontend/src/pages/indicators/ConstructionIndicator.tsx:80-91 | primary exactly for 'in-progress', warning exactly for 'planned', success exactly for 'completed', the default colour otherwise |
| ConstructionIndicator.StatusLabel | frontend/src/pages/indicators/ConstructionIndicator.tsx:93-104 | 'in-progress', 'planned' and 'completed' read 'In Progress', 'Scheduled' and 'Completed'; any other state is kept |
| ConstructionIndicator.StatusLabelsDistinct | frontend/src/pages/indicators/ConstructionIndicator.tsx:93-104 | different known states get different labels, and labelling a label changes nothing |
| ConstructionIndicator.AreasAffected | frontend/src/pages/indicators/ConstructionIndicator.tsx:168 | the 'Areas Affected' sum of no projects is 0 |
| ConstructionIndicator.AreasAffectedCounts | frontend/src/pages/indicators/ConstructionIndicator.tsx:168 | the card counts every entry of the concatenated affected-area lists, and is additive over lists of projects |
| ConstructionIndicator.StatusesWithinTotal | frontend/src/pages/indicators/ConstructionIndicator.tsx:149-163 | the in-progress, planned and completed projects together never outnumber 'Total Projects', and equal it when every status is one of the three |
| ConstructionIndicator.MockCards | frontend/src/pages/indicators/ConstructionIndicator.tsx:29-63 | the samples give three projects, two in progress, two of high impact and seven affected areas |
| ConstructionIndicator.Markers | frontend/src/pages/indicators/ConstructionIndicator.tsx:119-122 | one marker per project, in order, numbered by position and carrying the project's name and progress |
| ConstructionIndicator.MarkersExtend | frontend/src/pages/indicators/ConstructionIndicator.tsx:119-122 | appending projects keeps every existing marker in place and numbers the new projects' markers on from the old length, each showing its own project |
| EventsIndicator.DisplayEvents | frontend/src/pages/indicators/EventsIndicator.tsx:64 | the samples are shown after an error or an empty answer, the fetched events otherwise; the list shown is never empty |
| EventsIndicator.StatusColor | frontend/src/pages/indicators/EventsIndicator.tsx:79-90 | primary exactly for 'planned', success exactly for 'active', the default colour for 'completed' and anything else |
| EventsIndicator.StatusLabel | frontend/src/pages/indicators/EventsIndicator.tsx:92-103 | 'planned', 'active' and 'completed' read 'Upcoming', 'Active' and 'Completed'; any other state is kept |
| EventsIndicator.StatusLabelsDistinct | frontend/src/pages/indicators/EventsIndicator.tsx:92-103 | different known states get different labels |
| EventsIndicator.StatusesWithinTotal | frontend/src/pages/indicators/EventsIndicator.tsx:162-174 | the 'Upcoming Events' count plus the active and completed events never outnumber 'Total Events', and equal it when every status is one of the three |
| EventsIndicator.MockCards | frontend/src/pages/indicators/EventsIndicator.tsx:28-62 | the samples give three events, two upcoming and two of high impact |
| EventsIndicator.Markers | frontend/src/pages/indicators/EventsIndicator.tsx:118-121 | one marker per event, in order, numbered by position and carrying the event's name and location |
| Register.Set | frontend/src/pages/auth/Register.tsx:58-62 | an input handler sets the field named by the input to the typed value and leaves every other field as it was |
| Register.RoleFor | frontend/src/pages/auth/Register.tsx:82 | the role sent is the city-manager role or the provider-administrator role |
| Register.EndpointMatchesRole | frontend/src/pages/auth/Register.tsx:54-82 | the mutation used and the role sent always agree: city managers go to the city-manager endpoint, provider administrators to the other |
| Register.Submit | frontend/src/pages/auth/Register.tsx:66-98 | nothing is sent exactly when the password differs from its confirmation; otherwise the chosen type's endpoint receives every form field but the confirmation, with the matching role |
| Register.SentPasswordConfirmed | frontend/src/pages/auth/Register.tsx:71-79 | a password that is sent always equals its confirmation |
| Register.FailureMessage | frontend/src/pages/auth/Register.tsx:93-96 | the message shown after a failure is never empty: the server's message when it sent a non-empty one, the fixed fallback otherwise |
| Register.RegisterPage.constructor | frontend/src/pages/auth/Register.tsx:37-49 | the page starts on the city-manager type with an empty form, the password hidden and no messages |
| Register.RegisterPage.HandleChange | frontend/src/pages/auth/Register.tsx:58-64 | typing updates one field and clears the error, leaving the rest as it was |
| Register.RegisterPage.HandleSubmit | frontend/src/pages/auth/Register.tsx:66-86 | both messages are cleared; a mismatch shows 'Passwords do not match' and sends nothing; otherwise the submission is sent and the error stays empty |
| Register.RegisterPage.OnSuccess | frontend/src/pages/auth/Register.tsx:87-92 | a successful registration shows the success message and changes nothing else |
| Register.RegisterPage.OnError | frontend/src/pages/auth/Register.tsx:93-96 | a failed registration shows the failure message and changes nothing else |
| Register.RegisterPage.HandleUserTypeChange | frontend/src/pages/auth/Register.tsx:100-107 | choosing a type switches to it; deselecting (a null value) keeps the current type |
| Register.RegisterPage.ToggleShowPassword | frontend/src/pages/auth/Register.tsx:227 | the eye button flips whether the password is shown and changes nothing else |
| Users.FromUser | backend/src/main/java/com/city/management/model/JwtResponse.java:25-34 | the DTO copies id, username, email, name and active flag, and carries the role by its enum name |
| Users.FromUserKeepsRole | backend/src/main/java/com/city/management/model/JwtResponse.java:25-34 | two accounts with the same DTO have the same role, id and username: the role's name determines the role |
| Users.SeedFacts | backend/src/main/java/com/city/management/service/UserService.java:20-32 | the seeded registry is valid: ids 1 to 4, the counter at 5, the four usernames indexed, every account active, no two with the same role |
| Users.SeedMaps | backend/src/main/java/com/city/management/service/UserService.java:26-47 | the seed stores each of the four accounts under its id and its username |
| Users.Lookup | backend/src/main/java/com/city/management/service/UserService.java:49-51 | a username finds an account exactly when it is indexed, and the account found is the stored one of that name |
| Users.CreateEffect | backend/src/main/java/com/city/management/service/UserService.java:61-76 | a creation keeps the registry valid, stores one active account under the next id, which no account had, changes no existing account, advances the counter by one, and makes the username find the new account |
| Users.CreateShadowsDuplicate | backend/src/main/java/com/city/management/service/UserService.java:73-74 | nothing checks for a taken username: the older account stays stored under its id, but the name now finds only the new one |
| Users.Apply | backend/src/main/java/com/city/management/service/UserService.java:84-94 | each non-null field of the update overwrites the account's, a null one keeps it, the active flag is always overwritten, and id, username, password and timestamps are kept |
| Users.ApplyIdempotent | backend/src/main/java/com/city/management/service/UserService.java:84-94 | applying the same update twice is applying it once |
| Users.UpdateEffect | backend/src/main/java/com/city/management/service/UserService.java:78-97 | an update keeps the registry valid, changes only the account with that id, never the index or the counter, and changes nothing for an unknown id |
| Users.DeleteEffect | backend/src/main/java/com/city/management/service/UserService.java:99-106 | a deletion keeps the registry valid, removes exactly that id and its username from the index, leaves the other accounts as they were, and changes nothing for an unknown id |
| Users.DeleteShadowedOrphansNewer | backend/src/main/java/com/city/management/service/UserService.java:99-106 | after a duplicate creation, deleting the older account removes the shared name from the index, so the newer account stays stored but no username finds it |
| Users.TouchLoginEffect | backend/src/main/java/com/city/management/service/UserService.java:112-117 | recording a login keeps the registry valid and sets the last-login time of the account the name finds, and of no other; an unknown name changes nothing |
| Users.UserService.constructor | backend/src/main/java/com/city/management/service/UserService.java:18-32 | a new service holds the seeded registry, and the invariant holds |
| Users.UserService.Store | backend/src/main/java/com/city/management/service/UserService.java:45-46 | the account is put under its id and under its username |
| Users.UserService.FindByUsername | backend/src/main/java/com/city/management/service/UserService.java:49-51 | the account found is the registry's lookup of the username |
| Users.UserService.FindById | backend/src/main/java/com/city/management/service/UserService.java:53-55 | an account is found exactly when the id is stored, and it is the one stored under that id |
| Users.UserService.FindAll | backend/src/main/java/com/city/management/service/UserService.java:57-59 | the list has one entry per stored account, holds only stored accounts, and holds every one of them |
| Users.UserService.CreateUser | backend/src/main/java/com/city/management/service/UserService.java:61-76 | the registry becomes its creation of the account with the encoded password under the next id, the invariant holds, and the account returned is the new one |
| Users.UserService.UpdateUser | backend/src/main/java/com/city/management/service/UserService.java:78-97 | the registry becomes its update; nothing is returned exactly for an unknown id, otherwise the updated account, as stored |
| Users.UserService.DeleteUser | backend/src/main/java/com/city/management/service/UserService.java:99-106 | the registry becomes its deletion, and the answer is true exactly when the id was stored |
| Users.UserService.UpdateLastLogin | backend/src/main/java/com/city/management/service/UserService.java:112-117 | the registry becomes its login stamp for the username, and the invariant holds |
| Auth.LoginOutcome | backend/src/main/java/com/city/management/service/AuthService.java:22-46 | no answer exactly when the username is unknown or the password does not match its hash, and then the registry is unchanged; otherwise the login is stamped and the answer holds a token for the username and role name and the account's DTO |
| Auth.LoginEffect | backend/src/main/java/com/city/management/service/AuthService.java:22-46 | a login keeps the registry valid; a successful one stamps the account with the time and returns the DTO of that account, under the username given |
| Auth.RegisterOutcome | backend/src/main/java/com/city/management/service/AuthService.java:56-80 | no answer exactly when the username is taken, and then the registry is unchanged; otherwise the registry is its creation of the account with the encoded password and the given role |
| Auth.RegisterEffect | backend/src/main/java/com/city/management/service/AuthService.java:56-80 | a registration keeps the registry valid; a successful one adds exactly one account, under the next id, active, with the requested role, found by its username, and answers with a token for that username and role |
| Auth.RegisterThenLogin | backend/src/main/java/com/city/management/service/AuthService.java:22-80 | with an encoder whose hashes match their password, an account just registered logs in with the password it was registered with and gets its role in the token |
| Auth.AuthService.constructor | backend/src/main/java/com/city/management/service/AuthService.java:16-20 | the service holds the user service and the token generator it is given |
| Auth.AuthService.Login | backend/src/main/java/com/city/management/service/AuthService.java:22-46 | the user service's registry and the answer are the login outcome, and the user service's invariant holds |
| Auth.AuthService.RegisterCityManager | backend/src/main/java/com/city/management/service/AuthService.java:48-50 | the registry and answer are the registration outcome with the city-manager role |
| Auth.AuthService.RegisterServiceProviderAdmin | backend/src/main/java/com/city/management/service/AuthService.java:52-54 | the registry and answer are the registration outcome with the service-provider-admin role |
| Auth.AuthService.Register | backend/src/main/java/com/city/management/service/AuthService.java:56-80 | the registry and answer are the registration outcome for the given role, and the invariant holds |
| MockData.SeedContents | backend/src/main/java/com/city/management/service/MockDataService.java:15-53 | the seed holds notifications 1 to 3 (the first two unread, the third read) with the counter at 4, and the one completed run under id 1; with the counter at 2 every counter is ahead of its table, while the counter as written (1) is not |
| MockData.RunKind | backend/src/main/java/com/city/management/service/MockDataService.java:142 | the run's type is the `type` parameter when given, and `traffic` otherwise |
| MockData.RunEffect | backend/src/main/java/com/city/management/service/MockDataService.java:138-168 | with the counters ahead, a run stores exactly one new running record under a fresh id, with the parameters and the user given, changes no stored run nor any notification, and keeps the counters ahead |
| MockData.RunsDistinct | backend/src/main/java/com/city/management/service/MockDataService.java:139-148 | two runs in a row get different ids and different names, and both stay stored |
| MockData.FirstRunReplacesSeed | backend/src/main/java/com/city/management/service/MockDataService.java:17-52 | as written, the first run takes id 1 and overwrites the seeded run: the table still has one entry, the new run |
| MockData.FirstRunKeepsSeed | backend/src/main/java/com/city/management/service/MockDataService.java:138-148 | with the counter started past the seed, the first run takes id 2 and the seeded run stays beside it |
| MockData.MarkReadEffect | backend/src/main/java/com/city/management/service/MockDataService.java:178-185 | marking one notification read keeps the ids, sets that one's flag and changes no other, changes nothing for an unknown id, and is idempotent |
| MockData.MarkAllEffect | backend/src/main/java/com/city/management/service/MockDataService.java:187-189 | marking all read keeps the ids and sets every flag, changing nothing else; it is idempotent and absorbs a single mark before or after it |
| MockData.MockDataService.constructor | backend/src/main/java/com/city/management/service/MockDataService.java:21-53 | a new service holds the seeded tables, with the simulation counter past the seeded run, and its invariant holds |
| MockData.MockDataService.CreateNotification | backend/src/main/java/com/city/management/service/MockDataService.java:55-66 | the tables become the old ones plus one notification under the next id with the given fields, addressed to admin |
| MockData.MockDataService.GetAllSimulations | backend/src/main/java/com/city/management/service/MockDataService.java:134-136 | the list has one entry per stored run, holds only stored runs and holds all of them |
| MockData.MockDataService.RunSimulation | backend/src/main/java/com/city/management/service/MockDataService.java:138-168 | the tables and the run returned are those of a run on the old tables, and the invariant holds |
| MockData.MockDataService.DeleteSimulation | backend/src/main/java/com/city/management/service/MockDataService.java:170-172 | the answer is true exactly when the id was stored; that id and only it is removed, and the notifications and counters are unchanged |
| MockData.MockDataService.GetAllNotifications | backend/src/main/java/com/city/management/service/MockDataService.java:174-176 | the list has one entry per stored notification, holds only stored ones and holds all of them |
| MockData.MockDataService.MarkNotificationAsRead | backend/src/main/java/com/city/management/service/MockDataService.java:178-185 | the notifications become the old ones with that one marked read; nothing is returned exactly for an unknown id, otherwise the stored, now read, notification |
| MockData.MockDataService.MarkAllNotificationsAsRead | backend/src/main/java/com/city/management/service/MockDataService.java:187-189 | the notifications become the old ones all marked read; runs and counters are unchanged |
| Controllers.LoginResponse | backend/src/main/java/com/city/management/controller/AuthController.java:20-29 | 401 with the invalid-credentials message exactly when the service answered nothing, otherwise 200 with the token response |
| Controllers.RegistrationResponse | backend/src/main/java/com/city/management/controller/AuthController.java:31-51 | 400 with the username-taken message exactly when the service answered nothing, otherwise 200 with the token response |
| Controllers.UpdateUserResponse | backend/src/main/java/com/city/management/controller/UserController.java:54-60 | 404 with no body exactly when the service found no account, otherwise 200 with the updated account's DTO |
| Controllers.DeleteResponse | backend/src/main/java/com/city/management/controller/UserController.java:63-72 | 404 with no body exactly when nothing was deleted, otherwise 200 with the confirmation message |
| Controllers.MarkAsReadResponse | backend/src/main/java/com/city/management/controller/NotificationController.java:25-34 | 404 with no body exactly when no notification had that id, otherwise 200 with the notification |
| Controllers.Creator | backend/src/main/java/com/city/management/controller/SimulationController.java:29 | the run's creator is the authenticated name, or `anonymous` without authentication |
| Controllers.ParseRole | backend/src/main/java/com/city/management/controller/UserController.java:49-51 | a role string parses exactly when it is some role's enum name, and then to that role |
| Controllers.ParseRoleInverse | backend/src/main/java/com/city/management/controller/UserController.java:49-51 | every role's enum name parses back to it, while the unprefixed key the front end uses does not parse |
| Controllers.ChangesFor | backend/src/main/java/com/city/management/controller/UserController.java:46-52 | the update copies email, name and the active flag, leaves the role unset when the request has none and sets the parsed role otherwise; there is no update exactly when a given role does not parse |
| Controllers.RegistrationStatus | backend/src/main/java/com/city/management/controller/AuthController.java:31-51 | registering a taken username answers 400 and creates nothing; a fresh one answers 200 with a token for the endpoint's role |
| Controllers.UserController.constructor | backend/src/main/java/com/city/management/controller/UserController.java:20-21 | the controller holds the user service it is given |
| Controllers.UserController.GetAllUsers | backend/src/main/java/com/city/management/controller/UserController.java:23-29 | 200 with one DTO per stored account: every account's DTO is in the list and every entry is some account's DTO |
| Controllers.UserController.CreateServiceProviderUser | backend/src/main/java/com/city/management/controller/UserController.java:31-42 | the registry becomes its creation of a service-provider user with the encoded password, and the answer is 200 with the new account's DTO under that role and username |
| Controllers.UserController.UpdateUser | backend/src/main/java/com/city/management/controller/UserController.java:44-61 | an unparsable role answers 500 and changes nothing; otherwise the registry becomes its update and the answer is 404 for an unknown id, else 200 with the updated account |
| Controllers.UserController.DeleteUser | backend/src/main/java/com/city/management/controller/UserController.java:63-72 | the registry becomes its deletion, and the answer is 404 or 200 as the id was stored or not |
| Controllers.AuthController.constructor | backend/src/main/java/com/city/management/controller/AuthController.java:17-18 | the controller holds the authentication service it is given |
| Controllers.AuthController.Login | backend/src/main/java/com/city/management/controller/AuthController.java:20-29 | the registry becomes the login outcome's, and the answer is that outcome's response |
| Controllers.AuthController.RegisterCityManager | backend/src/main/java/com/city/management/controller/AuthController.java:31-40 | the registry becomes the city-manager registration outcome's, and the answer is that outcome's response |
| Controllers.AuthController.RegisterServiceProviderAdmin | backend/src/main/java/com/city/management/controller/AuthController.java:42-51 | the registry becomes the service-provider-admin registration outcome's, and the answer is that outcome's response |
| Controllers.NotificationController.constructor | backend/src/main/java/com/city/management/controller/NotificationController.java:17-18 | the controller holds the mock data service it is given |
| Controllers.NotificationController.GetAllNotifications | backend/src/main/java/com/city/management/controller/NotificationController.java:20-23 | 200 with one entry per stored notification, each a stored one, and all of them |
| Controllers.NotificationController.MarkAsRead | backend/src/main/java/com/city/management/controller/NotificationController.java:25-34 | the notifications become the old ones with that one marked read; 404 exactly for an unknown id, otherwise 200 with the now read notification |
| Controllers.NotificationController.MarkAllAsRead | backend/src/main/java/com/city/management/controller/NotificationController.java:36-40 | every notification becomes read, runs are unchanged, and the answer is 200 with the confirmation message |
| Controllers.SimulationController.constructor | backend/src/main/java/com/city/management/controller/SimulationController.java:17-18 | the controller holds the mock data service it is given |
| Controllers.SimulationController.GetAllSimulations | backend/src/main/java/com/city/management/controller/SimulationController.java:20-23 | 200 with one entry per stored run, each a stored one, and all of them |
| Controllers.SimulationController.RunSimulation | backend/src/main/java/com/city/management/controller/SimulationController.java:25-32 | the tables become those of a run by the authenticated name, or by `anonymous`, and the answer is 200 with that run |
| Controllers.SimulationController.DeleteSimulation | backend/src/main/java/com/city/management/controller/SimulationController.java:34-43 | only that id is removed, the notifications are unchanged, and the answer is 404 or 200 as the id was stored or not |

## Left out

- The network: the front end's HTTP service modules and the axios client are not modelled. A server call appears as a success or failure flag, or as the answer the callback receives.
- TanStack Query's cache behaviour is not modelled: staleness timers, polling and de-duplication. The key values, the key sets each mutation invalidates, which cached keys an invalidation reaches and the fixed hook options are modelled.
- Clocks: `LocalDateTime.now()`, `currentTimeMillis` and the login and creation timestamps appear as an integer `now` parameter or are left out. This applies to the timestamps of the seeded run and of each new run, whose fields the simulation record here omits.
- Concurrency is not modelled:
  - the background thread that completes a run two seconds later (service/MockDataService.java:151-165), including its random results and its `failed` status;
  - the thread safety of the `ConcurrentHashMap` and `AtomicLong` fields, which are modelled as sequential state.
- The seeded run's `results` map holds floating-point figures and is not part of the simulation record. A run's parameters are held as the strings their `toString` gives.
- Password hashing and token generation: `PasswordEncoder` and `JwtUtil` are not part of this model. They appear as functions given to the services at construction.
- Spring's request binding, JSON serialisation and exception-to-response mapping are not modelled. An exception the controller does not catch (an unknown role name in a user update) is modelled as a 500 response with no body.
- `RegisterRequest`, the `Role` enum and `JwtUtil` are not part of this model's sources. The fields read and the enum's four `ROLE_` names are taken from their uses.
- `DashboardController`, `IndicatorController` and `SystemController`, and the `MockDataService` builders behind them (dashboard statistics, indicator data, system status and health): they are pass-throughs over random and clock-based data. The one exception is the system-status record: the shape the pages receive, with `services` as an object keyed by name, is modelled as `SystemStatusUntyped.BackendStatus`.
- Randomness and timers:
  - `getRandomColor` and `debounce` in the helpers;
  - the random attendee estimate in the events page;
  - the polling interval of the untyped system-status page;
  - the delayed navigation after a successful registration.
- Locale and floating-point formatting (`toLocaleString`, `toLocaleDateString`, `toFixed`) are parameters of the helpers that use them. Fractional figures are modelled as exact reals, not IEEE doubles.
- SystemStatus.FormatUptime: seconds given as text while no formatted text is given yield a distinct `NotANumber` value. For non-numeric text the page would show `NaNd NaNh NaNm`; a numeric string such as "90" would be converted by `/` and `%` and shown as a span (`0d 0h 1m`), which the model does not do. The only call site passes the same field as both arguments, so text never reaches the arithmetic there.
- The untyped notification page's sample records have numeric ids; they are modelled as their decimal strings, because the store's ids are strings.
- Presentational components are not modelled: the map and its coordinates, chart and metric cards, the navbar, the layout, the dashboard, the login page and the one-line indicator wrapper pages.
- The legacy untyped simulation, user-management, construction and events pages, and the commented-out earlier versions at the head of the typed simulation page, are not modelled. They differ from the typed pages: the untyped simulation page colours only the capitalised states `Running`, `Completed` and `Failed` (pages/simulation/SimulationCenter.jsx:125-135), falls back to its samples only when the fetch throws (SimulationCenter.jsx:54-56) and shows no efficiency average, and the untyped user-management page keys its roles by the `ROLE_`-prefixed names. Only the typed pages are modelled.
- Controllers.AuthController.Login / Controllers.AuthController.RegisterCityManager / Controllers.AuthController.RegisterServiceProviderAdmin: a request body without `username` is not modelled, since usernames are strings here. In the source such a request reaches `usersByUsername.get(null)` (backend/src/main/java/com/city/management/service/UserService.java:49-51, called from AuthService.java:23 and :58); the `ConcurrentHashMap` throws a `NullPointerException`, so the answer is a 500, not the 401 of `LoginResponse` or the 400 of `RegistrationResponse`.
- AppRoutes.Match: the pathname is taken as already percent-decoded. React Router decodes `%xx` escapes before matching, and that decoding is not modelled.
- Helpers.RoleDisplayName / Helpers.RoleDisplayNameUntyped: for a name inherited from `Object.prototype` the result is the opaque `Inherited` value. What React then renders for that function or object is not modelled.
- Helpers.TruncateText / Helpers.TruncateTextUntyped: `maxLength` is an integer here. A fractional or `NaN` limit, which `substring` would convert, is not modelled.
- Type declaration files and the Java model classes carry no behaviour and appear only as datatypes. `JwtResponse.UserDTO.fromUser` is modelled as `Users.FromUser`.

## Findings

| source | as written | input that shows it | evidently intended | confidence | as-written member | corrected member |
|---|---|---|---|---|---|---|
| backend/src/main/java/com/city/management/service/MockDataService.java:17-52 | the simulation counter starts at 1 although the seeded run is stored under id 1 | the first `runSimulation` after start-up, with any parameters: it takes id 1 and overwrites the seeded run, so the table still holds one run | the counter starts past the seeded id, as the user registry's counter starts at 5 after its four seeded accounts | not executed | MockData.FirstRunReplacesSeed | MockData.FirstRunKeepsSeed |
