/**
 * The REST controllers over the services: each turns a service result into
 * an HTTP status and a JSON body. Login failures are 401, taken usernames
 * 400, unknown ids 404, everything else 200. The user controller also builds
 * the update from the request, where an unknown role name makes
 * `Role.valueOf` throw before anything is changed.
 *
 * Spring's request binding and serialisation are not part of this model; a
 * JSON object `{"message": …}`, whether built by `Map.of` or by the error
 * class, is `Message`.
 */
module Controllers {
  import opened Common
  import opened Users
  import opened Auth
  import opened MockData

  datatype Body =
    | UserBody(dto: UserDto)
    | UsersBody(dtos: seq<UserDto>)
    | TokenBody(jwt: JwtResponse)
    | Message(text: string)
    | NotificationBody(notification: Notification)
    | NotificationsBody(notifications: seq<Notification>)
    | SimulationBody(simulation: Simulation)
    | SimulationsBody(simulations: seq<Simulation>)
    | NoBody

  datatype Response = Response(status: int, body: Body)

  /** The answer to an exception the controller does not catch. */
  const ServerError := Response(500, NoBody)

  const InvalidCredentials := "Invalid username or password"
  const UsernameTaken := "Username already exists"
  const UserDeleted := "User deleted successfully"
  const SimulationDeleted := "Simulation deleted successfully"
  const AllMarkedRead := "All notifications marked as read"

  /** `login`'s answer: 401 with the fixed message when the service found nothing, else 200 with the token. */
  function LoginResponse(r: Option<JwtResponse>): (resp: Response)
    ensures resp.status == 401 <==> r.None?
    ensures resp.status == 200 <==> r.Some?
    ensures r.None? ==> resp.body == Message(InvalidCredentials)
    ensures r.Some? ==> resp.body == TokenBody(r.value)
  {
    match r
    case None => Response(401, Message(InvalidCredentials))
    case Some(jwt) => Response(200, TokenBody(jwt))
  }

  /** Both registration endpoints' answer: 400 when the username was taken, else 200 with the token. */
  function RegistrationResponse(r: Option<JwtResponse>): (resp: Response)
    ensures resp.status == 400 <==> r.None?
    ensures resp.status == 200 <==> r.Some?
    ensures r.None? ==> resp.body == Message(UsernameTaken)
    ensures r.Some? ==> resp.body == TokenBody(r.value)
  {
    match r
    case None => Response(400, Message(UsernameTaken))
    case Some(jwt) => Response(200, TokenBody(jwt))
  }

  /** `updateUser`'s answer: 404 with no body for an unknown id, else 200 with the updated account's DTO. */
  function UpdateUserResponse(r: Option<User>): (resp: Response)
    ensures resp.status == 404 <==> r.None?
    ensures r.None? ==> resp.body == NoBody
    ensures r.Some? ==> resp == Response(200, UserBody(FromUser(r.value)))
  {
    match r
    case None => Response(404, NoBody)
    case Some(u) => Response(200, UserBody(FromUser(u)))
  }

  /** Both delete endpoints' answer: 404 when nothing was removed, else 200 with the endpoint's message. */
  function DeleteResponse(deleted: bool, message: string): (resp: Response)
    ensures resp.status == 404 <==> !deleted
    ensures !deleted ==> resp.body == NoBody
    ensures deleted ==> resp == Response(200, Message(message))
  {
    if deleted then Response(200, Message(message)) else Response(404, NoBody)
  }

  /** `markAsRead`'s answer: 404 for an unknown id, else 200 with the notification. */
  function MarkAsReadResponse(r: Option<Notification>): (resp: Response)
    ensures resp.status == 404 <==> r.None?
    ensures r.None? ==> resp.body == NoBody
    ensures r.Some? ==> resp == Response(200, NotificationBody(r.value))
  {
    match r
    case None => Response(404, NoBody)
    case Some(n) => Response(200, NotificationBody(n))
  }

  /** The creator of a run: the authenticated name, or "anonymous" without authentication. */
  function Creator(authenticatedName: Option<string>): (username: string)
    ensures authenticatedName.Some? ==> username == authenticatedName.value
    ensures authenticatedName.None? ==> username == "anonymous"
  {
    authenticatedName.GetOr("anonymous")
  }

  /** `Role.valueOf`: the role whose enum name is exactly the string, or nothing (the exception). */
  function ParseRole(s: string): (r: Option<Role>)
    ensures r.Some? ==> RoleName(r.value) == s
    ensures r.None? ==> forall role: Role :: RoleName(role) != s
  {
    if s == RoleName(GovernmentAdmin) then Some(GovernmentAdmin)
    else if s == RoleName(CityManager) then Some(CityManager)
    else if s == RoleName(ServiceProviderAdmin) then Some(ServiceProviderAdmin)
    else if s == RoleName(ServiceProviderUser) then Some(ServiceProviderUser)
    else None
  }

  /** Parsing inverts naming; the unprefixed names the typed front end uses are refused. */
  lemma ParseRoleInverse(role: Role)
    ensures ParseRole(RoleName(role)) == Some(role)
    ensures ParseRole(RoleKey(role)).None?
  {
    RoleNamePrefixed(role);
    forall other: Role ensures RoleName(other) != RoleKey(role) {
      RoleNamePrefixed(other);
      assert RoleName(other)[0] == 'R';
    }
  }

  /** The body of an update request; the role is the enum name, and null is `None`. */
  datatype UpdateUserRequest = UpdateUserRequest(email: Option<string>, name: Option<string>, role: Option<string>, active: bool)

  /** The body of a create request. */
  datatype CreateUserRequest = CreateUserRequest(username: string, password: string, email: Option<string>, name: Option<string>)

  datatype LoginRequest = LoginRequest(username: string, password: string)

  /**
   * The update `updateUser` hands to the service: email, name and active
   * copied, the role parsed only when present; nothing when the role does not
   * parse, which is the exception.
   */
  function ChangesFor(req: UpdateUserRequest): (c: Option<Changes>)
    ensures c.None? <==> req.role.Some? && ParseRole(req.role.value).None?
    ensures c.Some? ==> c.value.email == req.email && c.value.name == req.name && c.value.active == req.active
    ensures c.Some? && req.role.None? ==> c.value.role.None?
    ensures c.Some? && req.role.Some? ==> c.value.role.Some? && RoleName(c.value.role.value) == req.role.value
  {
    if req.role.Some? && ParseRole(req.role.value).None? then None
    else Some(Changes(req.email, req.name, if req.role.Some? then ParseRole(req.role.value) else None, req.active))
  }

  /** `/api/users`. */
  class UserController {
    const userService: UserService

    constructor (userService: UserService)
      ensures this.userService == userService
    {
      this.userService := userService;
    }

    /** One DTO per stored account. */
    method GetAllUsers() returns (resp: Response)
      requires userService.Inv()
      ensures resp.status == 200 && resp.body.UsersBody?
      ensures |resp.body.dtos| == |userService.users|
      ensures forall id :: id in userService.users ==> FromUser(userService.users[id]) in resp.body.dtos
      ensures forall i :: 0 <= i < |resp.body.dtos| ==>
        exists id :: id in userService.users && resp.body.dtos[i] == FromUser(userService.users[id])
    {
      var all := userService.FindAll();
      var dtos := seq(|all|, i requires 0 <= i < |all| => FromUser(all[i]));
      forall id | id in userService.users
        ensures FromUser(userService.users[id]) in dtos
      {
        var i :| 0 <= i < |all| && all[i] == userService.users[id];
        assert dtos[i] == FromUser(userService.users[id]);
      }
      for i := 0 to |dtos|
        invariant forall j :: 0 <= j < i ==> exists id :: id in userService.users && dtos[j] == FromUser(userService.users[id])
      {
        var id := KeyOf(userService.users, all[i]);
        assert dtos[i] == FromUser(userService.users[id]);
      }
      resp := Response(200, UsersBody(dtos));
    }

    /** Creates an account with the provider-user role, whatever the caller wanted. */
    method CreateServiceProviderUser(request: CreateUserRequest, now: int) returns (resp: Response)
      requires userService.Inv()
      modifies userService
      ensures userService.Inv()
      ensures userService.Value() == Create(old(userService.Value()), request.username, userService.encode(request.password),
                                            request.email, request.name, ServiceProviderUser, now)
      ensures resp == Response(200, UserBody(FromUser(userService.users[old(userService.nextId)])))
      ensures resp.body.dto.role == RoleName(ServiceProviderUser) && resp.body.dto.username == request.username
    {
      var user := userService.CreateUser(request.username, request.password, request.email, request.name,
                                         ServiceProviderUser, now);
      resp := Response(200, UserBody(FromUser(user)));
    }

    /** An unparsable role throws before the service is called; otherwise the service's answer decides 404 or 200. */
    method UpdateUser(id: int, request: UpdateUserRequest) returns (resp: Response)
      requires userService.Inv()
      modifies userService
      ensures userService.Inv()
      ensures ChangesFor(request).None? ==> resp == ServerError && userService.Value() == old(userService.Value())
      ensures ChangesFor(request).Some? ==>
        userService.Value() == Update(old(userService.Value()), id, ChangesFor(request).value)
      ensures ChangesFor(request).Some? ==>
        resp == UpdateUserResponse(if id in old(userService.users) then Some(Apply(old(userService.users)[id], ChangesFor(request).value)) else None)
    {
      var changes := ChangesFor(request);
      if changes.None? {
        return ServerError;
      }
      var result := userService.UpdateUser(id, changes.value);
      resp := UpdateUserResponse(result);
    }

    method DeleteUser(id: int) returns (resp: Response)
      requires userService.Inv()
      modifies userService
      ensures userService.Inv()
      ensures userService.Value() == Delete(old(userService.Value()), id)
      ensures resp == DeleteResponse(id in old(userService.users), UserDeleted)
    {
      var deleted := userService.DeleteUser(id);
      resp := DeleteResponse(deleted, UserDeleted);
    }
  }

  /** `/api/auth`. */
  class AuthController {
    const authService: AuthService

    constructor (authService: AuthService)
      ensures this.authService == authService
    {
      this.authService := authService;
    }

    method Login(request: LoginRequest, now: int) returns (resp: Response)
      requires authService.userService.Inv()
      modifies authService.userService
      ensures authService.userService.Inv()
      ensures var o := LoginOutcome(old(authService.userService.Value()), authService.userService.matches,
                                    authService.generateToken, request.username, request.password, now);
        authService.userService.Value() == o.0 && resp == LoginResponse(o.1)
    {
      var response := authService.Login(request.username, request.password, now);
      resp := LoginResponse(response);
    }

    method RegisterCityManager(request: RegisterRequest, now: int) returns (resp: Response)
      requires authService.userService.Inv()
      modifies authService.userService
      ensures authService.userService.Inv()
      ensures var o := RegisterOutcome(old(authService.userService.Value()), authService.userService.encode,
                                       authService.generateToken, request, CityManager, now);
        authService.userService.Value() == o.0 && resp == RegistrationResponse(o.1)
    {
      var response := authService.RegisterCityManager(request, now);
      resp := RegistrationResponse(response);
    }

    method RegisterServiceProviderAdmin(request: RegisterRequest, now: int) returns (resp: Response)
      requires authService.userService.Inv()
      modifies authService.userService
      ensures authService.userService.Inv()
      ensures var o := RegisterOutcome(old(authService.userService.Value()), authService.userService.encode,
                                       authService.generateToken, request, ServiceProviderAdmin, now);
        authService.userService.Value() == o.0 && resp == RegistrationResponse(o.1)
    {
      var response := authService.RegisterServiceProviderAdmin(request, now);
      resp := RegistrationResponse(response);
    }
  }

  /**
   * Registering a taken username answers 400 and creates nothing; a fresh
   * one answers 200 with a token for the endpoint's role.
   */
  lemma RegistrationStatus(r: Registry, encode: string -> string, token: (string, string) -> string,
                           req: RegisterRequest, role: Role, now: int)
    requires Valid(r)
    ensures var o := RegisterOutcome(r, encode, token, req, role, now);
      && (req.username in r.byUsername ==> RegistrationResponse(o.1).status == 400 && o.0 == r)
      && (req.username !in r.byUsername ==>
            RegistrationResponse(o.1).status == 200 &&
            RegistrationResponse(o.1).body.jwt.token == token(req.username, RoleName(role)))
  {
    RegisterEffect(r, encode, token, req, role, now);
  }

  /** `/api/notifications`. */
  class NotificationController {
    const mockDataService: MockDataService

    constructor (mockDataService: MockDataService)
      ensures this.mockDataService == mockDataService
    {
      this.mockDataService := mockDataService;
    }

    method GetAllNotifications() returns (resp: Response)
      ensures resp.status == 200 && resp.body.NotificationsBody?
      ensures |resp.body.notifications| == |mockDataService.notifications|
      ensures forall id :: id in mockDataService.notifications ==> mockDataService.notifications[id] in resp.body.notifications
      ensures forall i :: 0 <= i < |resp.body.notifications| ==> resp.body.notifications[i] in mockDataService.notifications.Values
    {
      var all := mockDataService.GetAllNotifications();
      resp := Response(200, NotificationsBody(all));
    }

    method MarkAsRead(id: int) returns (resp: Response)
      requires mockDataService.Inv()
      modifies mockDataService
      ensures mockDataService.Inv()
      ensures mockDataService.notifications == MarkRead(old(mockDataService.notifications), id)
      ensures mockDataService.simulations == old(mockDataService.simulations)
      ensures resp.status == 404 <==> id !in old(mockDataService.notifications)
      ensures resp.status == 200 ==> resp.body == NotificationBody(mockDataService.notifications[id]) && resp.body.notification.read
    {
      var result := mockDataService.MarkNotificationAsRead(id);
      resp := MarkAsReadResponse(result);
    }

    method MarkAllAsRead() returns (resp: Response)
      requires mockDataService.Inv()
      modifies mockDataService
      ensures mockDataService.Inv()
      ensures mockDataService.notifications == MarkAll(old(mockDataService.notifications))
      ensures mockDataService.simulations == old(mockDataService.simulations)
      ensures resp == Response(200, Message(AllMarkedRead))
    {
      mockDataService.MarkAllNotificationsAsRead();
      resp := Response(200, Message(AllMarkedRead));
    }
  }

  /** `/api/simulations`. */
  class SimulationController {
    const mockDataService: MockDataService

    constructor (mockDataService: MockDataService)
      ensures this.mockDataService == mockDataService
    {
      this.mockDataService := mockDataService;
    }

    method GetAllSimulations() returns (resp: Response)
      ensures resp.status == 200 && resp.body.SimulationsBody?
      ensures |resp.body.simulations| == |mockDataService.simulations|
      ensures forall id :: id in mockDataService.simulations ==> mockDataService.simulations[id] in resp.body.simulations
      ensures forall i :: 0 <= i < |resp.body.simulations| ==> resp.body.simulations[i] in mockDataService.simulations.Values
    {
      var all := mockDataService.GetAllSimulations();
      resp := Response(200, SimulationsBody(all));
    }

    /** The run is recorded under the authenticated name, or "anonymous"; the answer is always 200 with the run. */
    method RunSimulation(parameters: map<string, string>, authenticatedName: Option<string>) returns (resp: Response)
      requires mockDataService.Inv()
      modifies mockDataService
      ensures mockDataService.Inv()
      ensures var (t, s) := Run(old(mockDataService.Value()), parameters, Creator(authenticatedName));
        mockDataService.Value() == t && resp == Response(200, SimulationBody(s))
    {
      var username := Creator(authenticatedName);
      var simulation := mockDataService.RunSimulation(parameters, username);
      resp := Response(200, SimulationBody(simulation));
    }

    method DeleteSimulation(id: int) returns (resp: Response)
      requires mockDataService.Inv()
      modifies mockDataService
      ensures mockDataService.Inv()
      ensures mockDataService.simulations == old(mockDataService.simulations) - {id}
      ensures mockDataService.notifications == old(mockDataService.notifications)
      ensures resp == DeleteResponse(id in old(mockDataService.simulations), SimulationDeleted)
    {
      var deleted := mockDataService.DeleteSimulation(id);
      resp := DeleteResponse(deleted, SimulationDeleted);
    }
  }
}
