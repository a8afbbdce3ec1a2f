/**
 * Login and self-registration. A login finds the account by username,
 * checks the password with the encoder, records the login time and answers
 * with a token and the account's DTO; either failed check answers nothing
 * and changes nothing. A registration refuses a taken username and otherwise
 * creates one account with the role of the endpoint used.
 *
 * Token generation is not part of this model: it is a function given at
 * construction, of the username and the role's enum name.
 */
module Auth {
  import opened Common
  import opened Users

  /** The fields of a registration request the service reads. */
  datatype RegisterRequest = RegisterRequest(username: string, password: string, email: Option<string>, name: Option<string>)

  /** `login` on the registry: the registry afterwards and the answer. */
  function LoginOutcome(r: Registry, matches: (string, string) -> bool, token: (string, string) -> string,
                        username: string, password: string, now: int): (o: (Registry, Option<JwtResponse>))
    requires Valid(r)
    ensures o.1.None? <==> Lookup(r, username).None? || !matches(password, Lookup(r, username).value.password)
    ensures o.1.None? ==> o.0 == r
    ensures o.1.Some? ==> o.0 == TouchLogin(r, username, now)
    ensures o.1.Some? ==> o.1.value.token == token(username, RoleName(Lookup(r, username).value.role))
    ensures o.1.Some? ==> o.1.value.user == FromUser(Lookup(r, username).value)
  {
    match Lookup(r, username)
    case None => (r, None)
    case Some(u) =>
      if !matches(password, u.password) then (r, None)
      else (TouchLogin(r, username, now), Some(JwtResponse(token(u.username, RoleName(u.role)), FromUser(u))))
  }

  /**
   * A successful login stamps the account with the time, and the DTO it
   * returns is the stored account's after the stamp (the stamp is not part
   * of a DTO). A failed one leaves the registry as it was.
   */
  lemma LoginEffect(r: Registry, matches: (string, string) -> bool, token: (string, string) -> string,
                    username: string, password: string, now: int)
    requires Valid(r)
    ensures var o := LoginOutcome(r, matches, token, username, password, now);
      && Valid(o.0)
      && (o.1.Some? ==> Lookup(o.0, username).value.lastLogin == Some(now))
      && (o.1.Some? ==> o.1.value.user == FromUser(Lookup(o.0, username).value))
      && (o.1.Some? ==> o.1.value.user.username == username)
  {
    TouchLoginEffect(r, username, now);
  }

  /** `register`: nothing for a taken username, else one new account with the given role. */
  function RegisterOutcome(r: Registry, encode: string -> string, token: (string, string) -> string,
                           req: RegisterRequest, role: Role, now: int): (o: (Registry, Option<JwtResponse>))
    requires Valid(r)
    ensures o.1.None? <==> req.username in r.byUsername
    ensures o.1.None? ==> o.0 == r
    ensures o.1.Some? ==> o.0 == Create(r, req.username, encode(req.password), req.email, req.name, role, now)
  {
    if Lookup(r, req.username).Some? then (r, None)
    else
      var u := NewUser(r.nextId, req.username, encode(req.password), req.email, req.name, role, now);
      (Create(r, req.username, encode(req.password), req.email, req.name, role, now),
       Some(JwtResponse(token(u.username, RoleName(u.role)), FromUser(u))))
  }

  /**
   * A successful registration adds exactly one account, under the next id,
   * active, with the requested role, reachable by its username, and answers
   * with a token for that username and role.
   */
  lemma RegisterEffect(r: Registry, encode: string -> string, token: (string, string) -> string,
                       req: RegisterRequest, role: Role, now: int)
    requires Valid(r)
    ensures var o := RegisterOutcome(r, encode, token, req, role, now);
      && Valid(o.0)
      && (o.1.Some? ==> |o.0.users| == |r.users| + 1 && o.0.users.Keys == r.users.Keys + {r.nextId})
      && (o.1.Some? ==> Lookup(o.0, req.username).Some? && Lookup(o.0, req.username).value.id == r.nextId)
      && (o.1.Some? ==> Lookup(o.0, req.username).value.role == role && Lookup(o.0, req.username).value.active)
      && (o.1.Some? ==> o.1.value.token == token(req.username, RoleName(role)))
      && (o.1.Some? ==> o.1.value.user == FromUser(Lookup(o.0, req.username).value) && o.1.value.user.role == RoleName(role))
  {
    CreateEffect(r, req.username, encode(req.password), req.email, req.name, role, now);
  }

  /**
   * With an encoder whose hashes match their own password, an account just
   * registered logs in with the password it was registered with, and gets
   * the registered role in its token.
   */
  lemma {:induction false} RegisterThenLogin(r: Registry, encode: string -> string, matches: (string, string) -> bool,
                                             token: (string, string) -> string, req: RegisterRequest, role: Role,
                                             now: int, later: int)
    requires Valid(r) && req.username !in r.byUsername
    requires matches(req.password, encode(req.password))
    ensures var s := RegisterOutcome(r, encode, token, req, role, now).0;
      Valid(s) &&
      LoginOutcome(s, matches, token, req.username, req.password, later).1 ==
        Some(JwtResponse(token(req.username, RoleName(role)), FromUser(Lookup(s, req.username).value)))
  {
    RegisterEffect(r, encode, token, req, role, now);
  }

  /** The authentication service over the user registry. */
  class AuthService {
    const userService: UserService
    /** `jwtUtil.generateToken(username, roleName)`. */
    const generateToken: (string, string) -> string

    constructor (userService: UserService, generateToken: (string, string) -> string)
      ensures this.userService == userService && this.generateToken == generateToken
    {
      this.userService := userService;
      this.generateToken := generateToken;
    }

    method Login(username: string, password: string, now: int) returns (response: Option<JwtResponse>)
      requires userService.Inv()
      modifies userService
      ensures userService.Inv()
      ensures (userService.Value(), response) ==
        LoginOutcome(old(userService.Value()), userService.matches, generateToken, username, password, now)
    {
      var userOpt := userService.FindByUsername(username);
      if userOpt.None? {
        return None;
      }
      var user := userOpt.value;
      if !userService.ValidatePassword(user, password) {
        return None;
      }
      userService.UpdateLastLogin(username, now);
      var token := generateToken(user.username, RoleName(user.role));
      response := Some(JwtResponse(token, FromUser(user)));
    }

    method RegisterCityManager(request: RegisterRequest, now: int) returns (response: Option<JwtResponse>)
      requires userService.Inv()
      modifies userService
      ensures userService.Inv()
      ensures (userService.Value(), response) ==
        RegisterOutcome(old(userService.Value()), userService.encode, generateToken, request, CityManager, now)
    {
      response := Register(request, CityManager, now);
    }

    method RegisterServiceProviderAdmin(request: RegisterRequest, now: int) returns (response: Option<JwtResponse>)
      requires userService.Inv()
      modifies userService
      ensures userService.Inv()
      ensures (userService.Value(), response) ==
        RegisterOutcome(old(userService.Value()), userService.encode, generateToken, request, ServiceProviderAdmin, now)
    {
      response := Register(request, ServiceProviderAdmin, now);
    }

    method Register(request: RegisterRequest, role: Role, now: int) returns (response: Option<JwtResponse>)
      requires userService.Inv()
      modifies userService
      ensures userService.Inv()
      ensures (userService.Value(), response) ==
        RegisterOutcome(old(userService.Value()), userService.encode, generateToken, request, role, now)
    {
      var existing := userService.FindByUsername(request.username);
      if existing.Some? {
        return None;
      }
      var user := userService.CreateUser(request.username, request.password, request.email, request.name, role, now);
      var token := generateToken(user.username, RoleName(user.role));
      response := Some(JwtResponse(token, FromUser(user)));
    }
  }
}
