/**
 * Front-end constants: the role table (unprefixed in the typed build,
 * `ROLE_`-prefixed in the untyped one), the REST endpoint paths with their
 * id-splicing builders, the transport modes and the notification types. The
 * endpoint table is the same in both builds.
 */
module Constants {
  import opened Common

  /** Typed build: role keys to `UserRole` values, which carry no prefix. */
  const RolesTyped: map<string, string> := map[
    "GOVERNMENT_ADMIN" := RoleKey(GovernmentAdmin),
    "CITY_MANAGER" := RoleKey(CityManager),
    "SERVICE_PROVIDER_ADMIN" := RoleKey(ServiceProviderAdmin),
    "SERVICE_PROVIDER_USER" := RoleKey(ServiceProviderUser)
  ]

  /** Untyped build: role keys to the names the back end issues. */
  const RolesUntyped: map<string, string> := map[
    "GOVERNMENT_ADMIN" := "ROLE_GOVERNMENT_ADMIN",
    "CITY_MANAGER" := "ROLE_CITY_MANAGER",
    "SERVICE_PROVIDER_ADMIN" := "ROLE_SERVICE_PROVIDER_ADMIN",
    "SERVICE_PROVIDER_USER" := "ROLE_SERVICE_PROVIDER_USER"
  ]

  /** The typed role table is injective, and each value is its own key. */
  lemma RolesTypedDistinct()
    ensures |RolesTyped| == 4
    ensures forall a, b :: a in RolesTyped && b in RolesTyped && a != b ==> RolesTyped[a] != RolesTyped[b]
    ensures forall k :: k in RolesTyped ==> RolesTyped[k] == k
  {
    assert RolesTyped.Keys == {"GOVERNMENT_ADMIN", "CITY_MANAGER", "SERVICE_PROVIDER_ADMIN", "SERVICE_PROVIDER_USER"};
  }

  /** Every untyped role value is its key with `ROLE_` in front, and is the back end's name of that role. */
  lemma RolesUntypedPrefixed()
    ensures forall k :: k in RolesUntyped ==> RolesUntyped[k] == "ROLE_" + k
    ensures forall r: Role :: RoleKey(r) in RolesUntyped && RolesUntyped[RoleKey(r)] == RoleName(r)
  {
    forall r: Role ensures RoleKey(r) in RolesUntyped && RolesUntyped[RoleKey(r)] == RoleName(r) {
    }
    forall k | k in RolesUntyped ensures RolesUntyped[k] == "ROLE_" + k {
      var r :| r in AllRoles && RoleKey(r) == k;
      RoleNamePrefixed(r);
    }
  }

  /** The fixed endpoint paths. */
  datatype Endpoint =
    | Login | RegisterCityManager | RegisterServiceProviderAdmin
    | Users | ServiceProviderUsers
    | IndicatorsCar | IndicatorsCycle | IndicatorsBus | IndicatorsTrain | IndicatorsTram
    | IndicatorsPedestrian | IndicatorsEvents | IndicatorsConstruction
    | DashboardStats | DashboardOverview
    | Simulations | RunSimulation
    | Notifications | MarkAllRead
    | SystemStatus | SystemHealth

  function Path(e: Endpoint): string {
    match e
    case Login => "/auth/login"
    case RegisterCityManager => "/auth/register/city-manager"
    case RegisterServiceProviderAdmin => "/auth/register/service-provider-admin"
    case Users => "/users"
    case ServiceProviderUsers => "/users/service-provider"
    case IndicatorsCar => "/indicators/car"
    case IndicatorsCycle => "/indicators/cycle"
    case IndicatorsBus => "/indicators/bus"
    case IndicatorsTrain => "/indicators/train"
    case IndicatorsTram => "/indicators/tram"
    case IndicatorsPedestrian => "/indicators/pedestrian"
    case IndicatorsEvents => "/indicators/events"
    case IndicatorsConstruction => "/indicators/construction"
    case DashboardStats => "/dashboard/stats"
    case DashboardOverview => "/dashboard/overview"
    case Simulations => "/simulations"
    case RunSimulation => "/simulations/run"
    case Notifications => "/notifications"
    case MarkAllRead => "/notifications/mark-all-read"
    case SystemStatus => "/system/status"
    case SystemHealth => "/system/health"
  }

  /** `/users/${id}`. */
  function UserById(id: string): (p: string)
    ensures |p| == 7 + |id| && p[..7] == "/users/" && p[7..] == id
  {
    "/users/" + id
  }

  /** `/simulations/${id}`. */
  function SimulationById(id: string): (p: string)
    ensures |p| == 13 + |id| && p[..13] == "/simulations/" && p[13..] == id
  {
    "/simulations/" + id
  }

  /** `/notifications/${id}/read`. */
  function MarkNotificationRead(id: string): (p: string)
    ensures |p| == 20 + |id| && p[..15] == "/notifications/" && p[15..15 + |id|] == id && p[15 + |id|..] == "/read"
  {
    "/notifications/" + id + "/read"
  }

  /** Different fixed endpoints have different paths. */
  lemma PathsDistinct(a: Endpoint, b: Endpoint)
    requires a != b
    ensures Path(a) != Path(b)
  {
  }

  /** The id builders are injective in the id. */
  lemma BuildersInjective(a: string, b: string)
    ensures UserById(a) == UserById(b) ==> a == b
    ensures SimulationById(a) == SimulationById(b) ==> a == b
    ensures MarkNotificationRead(a) == MarkNotificationRead(b) ==> a == b
  {
    if MarkNotificationRead(a) == MarkNotificationRead(b) {
      assert |a| == |b|;
      assert a == MarkNotificationRead(a)[15..15 + |a|];
    }
  }

  /** A numeric id rendered in decimal gives a different path for every id. */
  lemma NumericIdsDistinct(m: nat, n: nat)
    requires m != n
    ensures UserById(Decimal(m)) != UserById(Decimal(n))
    ensures SimulationById(Decimal(m)) != SimulationById(Decimal(n))
    ensures MarkNotificationRead(Decimal(m)) != MarkNotificationRead(Decimal(n))
  {
    DecimalInjective(m, n);
    BuildersInjective(Decimal(m), Decimal(n));
  }

  /** Two builder paths coincide with fixed endpoints: the id 'service-provider' and the id 'run'. */
  lemma BuilderCollisions()
    ensures UserById("service-provider") == Path(ServiceProviderUsers)
    ensures SimulationById("run") == Path(RunSimulation)
  {
  }

  /** No notification id makes the mark-one path equal the mark-all path. */
  lemma MarkPathsNeverCollide(id: string)
    ensures MarkNotificationRead(id) != Path(MarkAllRead)
  {
    var p := MarkNotificationRead(id);
    assert p[|p| - 5] == '/';
    assert |Path(MarkAllRead)| == 28 && Path(MarkAllRead)[23] == '-';
  }

  const TransportModes: seq<string> := ["car", "cycle", "bus", "train", "tram", "pedestrian"]

  const NotificationTypes: seq<string> := ["INFO", "WARNING", "ERROR", "SUCCESS"]

  predicate AllDistinct(s: seq<string>) {
    forall i, j :: 0 <= i < j < |s| ==> s[i] != s[j]
  }

  lemma ModesAndTypesDistinct()
    ensures |TransportModes| == 6 && AllDistinct(TransportModes)
    ensures |NotificationTypes| == 4 && AllDistinct(NotificationTypes)
  {
  }
}
