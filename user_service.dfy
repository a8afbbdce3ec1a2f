/**
 * The back end's in-memory user registry. Two maps hold the same accounts,
 * one by id and one by username, and an id counter hands out new ids. In the
 * Java code both maps hold the same objects; here the username index holds
 * the id of the account it refers to, which is the same thing because ids are
 * never reused.
 *
 * The registry as a value (`Registry`) carries the specification: every
 * operation is a function on it, with lemmas about the invariant and the
 * frame. The `UserService` class holds the maps as fields, and each of its
 * methods is proved to move its state exactly as the matching function says.
 *
 * Password hashing and the clock are not part of this model: the encoder
 * is a function given at construction and the time is a parameter.
 */
module Users {
  import opened Common

  /** A stored account. `password` holds the encoder's hash; email and name may be null. */
  datatype User = User(id: int, username: string, password: string, email: Option<string>, name: Option<string>,
                       role: Role, active: bool, createdAt: int, lastLogin: Option<int>)

  /** The account as the API shows it: no password and no timestamps, the role by its enum name. */
  datatype UserDto = UserDto(id: int, username: string, email: Option<string>, name: Option<string>,
                             role: string, active: bool)

  /** The body of a successful login or registration. */
  datatype JwtResponse = JwtResponse(token: string, user: UserDto)

  /** `UserDTO.fromUser`. */
  function FromUser(u: User): (d: UserDto)
    ensures d.id == u.id && d.username == u.username && d.email == u.email && d.name == u.name && d.active == u.active
    ensures d.role == RoleName(u.role)
  {
    UserDto(u.id, u.username, u.email, u.name, RoleName(u.role), u.active)
  }

  /** Two accounts with the same DTO have the same role: the role name determines the role. */
  lemma FromUserKeepsRole(u: User, v: User)
    ensures FromUser(u) == FromUser(v) ==> u.role == v.role && u.id == v.id && u.username == v.username
  {
    if FromUser(u) == FromUser(v) {
      RoleNameInjective(u.role, v.role);
    }
  }

  /** The registry's state: the two maps and the next id. */
  datatype Registry = Registry(users: map<int, User>, byUsername: map<string, int>, nextId: int)

  /**
   * Every account is stored under its own id, below the counter; every index
   * entry leads to a stored account of that name.
   */
  predicate Valid(r: Registry) {
    (forall id :: id in r.users ==> r.users[id].id == id && id < r.nextId) &&
    (forall name :: name in r.byUsername ==> r.byUsername[name] in r.users && r.users[r.byUsername[name]].username == name)
  }

  /** Both `put`s of a creation: the account under its id and under its username. */
  function Put(r: Registry, u: User): Registry {
    Registry(r.users[u.id := u], r.byUsername[u.username := u.id], r.nextId)
  }

  /** A new account as both creation paths build it: active, never logged in. */
  function NewUser(id: int, username: string, hash: string, email: Option<string>, name: Option<string>,
                   role: Role, now: int): User
  {
    User(id, username, hash, email, name, role, true, now, None)
  }

  /** The seeded accounts in id order. */
  function SeedUsers(encode: string -> string, now: int): seq<User> {
    [NewUser(1, "admin", encode("admin123"), Some("admin@city.gov"), Some("Admin User"), GovernmentAdmin, now),
     NewUser(2, "manager", encode("manager123"), Some("manager@city.gov"), Some("City Manager"), CityManager, now),
     NewUser(3, "provider_admin", encode("provider123"), Some("provideradmin@city.gov"), Some("Provider Admin"),
             ServiceProviderAdmin, now),
     NewUser(4, "provider_user", encode("user123"), Some("provideruser@city.gov"), Some("Provider User"),
             ServiceProviderUser, now)]
  }

  /** `initUsers`: the four seeded accounts, ids 1 to 4, with the counter at 5. */
  function Seed(encode: string -> string, now: int): Registry {
    var us := SeedUsers(encode, now);
    Put(Put(Put(Put(Registry(map[], map[], 5), us[0]), us[1]), us[2]), us[3])
  }

  /** The seed is a valid registry of four active accounts with four different roles and usernames, and the counter above them. */
  lemma SeedFacts(encode: string -> string, now: int)
    ensures Valid(Seed(encode, now))
    ensures Seed(encode, now).users.Keys == {1, 2, 3, 4} && Seed(encode, now).nextId == 5
    ensures Seed(encode, now).byUsername.Keys == {"admin", "manager", "provider_admin", "provider_user"}
    ensures forall id :: id in Seed(encode, now).users ==> Seed(encode, now).users[id].active
    ensures forall i, j :: i in Seed(encode, now).users && j in Seed(encode, now).users && i != j ==>
      Seed(encode, now).users[i].role != Seed(encode, now).users[j].role
  {
    SeedMaps(encode, now);
    var us := SeedUsers(encode, now);
    SeedTableFacts(us);
  }

  /** The facts of `SeedFacts`, on the two maps the seed builds. */
  lemma SeedTableFacts(us: seq<User>)
    requires |us| == 4
    requires forall i :: 0 <= i < 4 ==> us[i].id == i + 1 && us[i].active
    requires us[0].username == "admin" && us[1].username == "manager"
    requires us[2].username == "provider_admin" && us[3].username == "provider_user"
    requires us[0].role == GovernmentAdmin && us[1].role == CityManager
    requires us[2].role == ServiceProviderAdmin && us[3].role == ServiceProviderUser
    ensures var r := Registry(map[1 := us[0], 2 := us[1], 3 := us[2], 4 := us[3]],
                              map["admin" := 1, "manager" := 2, "provider_admin" := 3, "provider_user" := 4], 5);
      && Valid(r)
      && r.users.Keys == {1, 2, 3, 4}
      && r.byUsername.Keys == {"admin", "manager", "provider_admin", "provider_user"}
      && (forall id :: id in r.users ==> r.users[id].active)
      && (forall i, j :: i in r.users && j in r.users && i != j ==> r.users[i].role != r.users[j].role)
  {
    var r := Registry(map[1 := us[0], 2 := us[1], 3 := us[2], 4 := us[3]],
                      map["admin" := 1, "manager" := 2, "provider_admin" := 3, "provider_user" := 4], 5);
    assert forall id :: id in r.users ==> 1 <= id <= 4 && r.users[id] == us[id - 1];
    forall i, j | i in r.users && j in r.users && i != j
      ensures r.users[i].role != r.users[j].role
    {
      assert r.users[i] == us[i - 1] && r.users[j] == us[j - 1];
    }
  }

  lemma SeedMaps(encode: string -> string, now: int)
    ensures var us := SeedUsers(encode, now);
      && Seed(encode, now).users == map[1 := us[0], 2 := us[1], 3 := us[2], 4 := us[3]]
      && Seed(encode, now).byUsername == map["admin" := 1, "manager" := 2, "provider_admin" := 3, "provider_user" := 4]
  {
  }

  /** `findByUsername`: the account the index points at. */
  function Lookup(r: Registry, username: string): (u: Option<User>)
    requires Valid(r)
    ensures u.Some? <==> username in r.byUsername
    ensures u.Some? ==> u.value.username == username && u.value.id in r.users && r.users[u.value.id] == u.value
  {
    if username in r.byUsername then
      var id := r.byUsername[username];
      assert r.users[id].id == id;
      Some(r.users[id])
    else None
  }

  /** `createUser`: the next id is taken, and the account stored under it and under its username. */
  function Create(r: Registry, username: string, hash: string, email: Option<string>, name: Option<string>,
                  role: Role, now: int): Registry
  {
    var s := Put(r, NewUser(r.nextId, username, hash, email, name, role, now));
    s.(nextId := r.nextId + 1)
  }

  /**
   * A creation keeps the registry valid, stores an active account under a
   * fresh id above every existing one, changes no existing account, and makes
   * the username find the new account.
   */
  lemma CreateEffect(r: Registry, username: string, hash: string, email: Option<string>, name: Option<string>,
                     role: Role, now: int)
    requires Valid(r)
    ensures var s := Create(r, username, hash, email, name, role, now);
      && Valid(s)
      && r.nextId !in r.users
      && (forall id :: id in r.users ==> id < r.nextId)
      && s.nextId == r.nextId + 1
      && s.users.Keys == r.users.Keys + {r.nextId}
      && (forall id :: id in r.users ==> s.users[id] == r.users[id])
      && Lookup(s, username) == Some(NewUser(r.nextId, username, hash, email, name, role, now))
      && s.users[r.nextId].active
  {
  }

  /**
   * Nothing checks for an existing username: creating a second account with
   * a taken name keeps the first one stored under its id, while the name now
   * finds only the new one.
   */
  lemma CreateShadowsDuplicate(r: Registry, username: string, hash: string, email: Option<string>, name: Option<string>,
                               role: Role, now: int)
    requires Valid(r) && username in r.byUsername
    ensures var s := Create(r, username, hash, email, name, role, now);
      && r.byUsername[username] in s.users
      && s.users[r.byUsername[username]] == r.users[r.byUsername[username]]
      && s.users[r.byUsername[username]].username == username
      && Lookup(s, username).value.id == r.nextId != r.byUsername[username]
  {
    CreateEffect(r, username, hash, email, name, role, now);
  }

  /** The fields an update may carry; null is `None`. */
  datatype Changes = Changes(email: Option<string>, name: Option<string>, role: Option<Role>, active: bool)

  /** `updateUser`'s changes to one account: each non-null field overwrites, the active flag always does. */
  function Apply(u: User, c: Changes): (v: User)
    ensures v.id == u.id && v.username == u.username && v.password == u.password
    ensures v.createdAt == u.createdAt && v.lastLogin == u.lastLogin
    ensures c.email.Some? ==> v.email == c.email
    ensures c.email.None? ==> v.email == u.email
    ensures c.name.Some? ==> v.name == c.name
    ensures c.name.None? ==> v.name == u.name
    ensures v.role == c.role.GetOr(u.role)
    ensures v.active == c.active
  {
    u.(email := if c.email.Some? then c.email else u.email,
       name := if c.name.Some? then c.name else u.name,
       role := c.role.GetOr(u.role),
       active := c.active)
  }

  /** Applying the same changes twice is applying them once. */
  lemma ApplyIdempotent(u: User, c: Changes)
    ensures Apply(Apply(u, c), c) == Apply(u, c)
  {
  }

  /** `updateUser` on the registry: the account with that id is changed in place; an unknown id changes nothing. */
  function Update(r: Registry, id: int, c: Changes): Registry {
    if id in r.users then r.(users := r.users[id := Apply(r.users[id], c)]) else r
  }

  /** An update keeps the registry valid and touches at most the one account; the index and the counter stay. */
  lemma UpdateEffect(r: Registry, id: int, c: Changes)
    requires Valid(r)
    ensures var s := Update(r, id, c);
      && Valid(s)
      && s.byUsername == r.byUsername && s.nextId == r.nextId && s.users.Keys == r.users.Keys
      && (forall other :: other in r.users && other != id ==> s.users[other] == r.users[other])
      && (id !in r.users ==> s == r)
      && (id in r.users ==> s.users[id] == Apply(r.users[id], c))
  {
  }

  /** `deleteUser`: the account leaves the id map, and its username leaves the index. */
  function Delete(r: Registry, id: int): Registry {
    if id in r.users then Registry(r.users - {id}, r.byUsername - {r.users[id].username}, r.nextId) else r
  }

  /** A deletion keeps the registry valid, removes exactly that id, and does nothing for an unknown id. */
  lemma DeleteEffect(r: Registry, id: int)
    requires Valid(r)
    ensures var s := Delete(r, id);
      && Valid(s)
      && s.users.Keys == r.users.Keys - {id}
      && (forall other :: other in s.users ==> s.users[other] == r.users[other])
      && (id in r.users ==> r.users[id].username !in s.byUsername)
      && (id !in r.users ==> s == r)
  {
  }

  /**
   * The index entry removed is the deleted account's username, whichever
   * account it leads to: after a duplicate creation, deleting the older
   * account leaves the newer one stored but unreachable by name, so it can
   * no longer log in.
   */
  lemma DeleteShadowedOrphansNewer(r: Registry, username: string, hash: string, email: Option<string>, name: Option<string>,
                                   role: Role, now: int)
    requires Valid(r) && username in r.byUsername
    ensures var s := Create(r, username, hash, email, name, role, now);
      var t := Delete(s, r.byUsername[username]);
      && Valid(t)
      && r.nextId in t.users && t.users[r.nextId].username == username
      && Lookup(t, username).None?
  {
    var s := Create(r, username, hash, email, name, role, now);
    CreateEffect(r, username, hash, email, name, role, now);
    DeleteEffect(s, r.byUsername[username]);
  }

  /** `updateLastLogin`: the account the username finds gets the time; an unknown name changes nothing. */
  function TouchLogin(r: Registry, username: string, now: int): Registry
    requires Valid(r)
  {
    if username in r.byUsername then
      var id := r.byUsername[username];
      r.(users := r.users[id := r.users[id].(lastLogin := Some(now))])
    else r
  }

  /** Recording a login keeps the registry valid and changes only the found account's last-login time. */
  lemma TouchLoginEffect(r: Registry, username: string, now: int)
    requires Valid(r)
    ensures var s := TouchLogin(r, username, now);
      && Valid(s)
      && s.byUsername == r.byUsername && s.nextId == r.nextId && s.users.Keys == r.users.Keys
      && (username !in r.byUsername ==> s == r)
      && (username in r.byUsername ==>
            Lookup(s, username).value == Lookup(r, username).value.(lastLogin := Some(now)))
      && (forall id :: id in r.users && (username !in r.byUsername || id != r.byUsername[username]) ==>
            s.users[id] == r.users[id])
  {
  }

  /** The registry as a Spring service: two maps, a counter, and the password encoder. */
  class UserService {
    var users: map<int, User>
    var byUsername: map<string, int>
    var nextId: int
    /** `passwordEncoder.encode`. */
    const encode: string -> string
    /** `passwordEncoder.matches(raw, hash)`. */
    const matches: (string, string) -> bool

    function Value(): Registry
      reads this
    {
      Registry(users, byUsername, nextId)
    }

    /** The registry is valid and the counter is past the seeded ids. */
    predicate Inv()
      reads this
    {
      Valid(Value()) && nextId >= 5
    }

    /** The service after `initUsers`. */
    constructor (encode: string -> string, matches: (string, string) -> bool, now: int)
      ensures Value() == Seed(encode, now) && Inv()
      ensures this.encode == encode && this.matches == matches
    {
      this.encode := encode;
      this.matches := matches;
      users := map[];
      byUsername := map[];
      nextId := 5;
      new;
      var us := SeedUsers(encode, now);
      Store(us[0]);
      Store(us[1]);
      Store(us[2]);
      Store(us[3]);
      SeedFacts(encode, now);
    }

    /** The two `put`s shared by both creation paths. */
    method Store(u: User)
      modifies this
      ensures Value() == Put(old(Value()), u)
    {
      users := users[u.id := u];
      byUsername := byUsername[u.username := u.id];
    }

    method FindByUsername(username: string) returns (u: Option<User>)
      requires Inv()
      ensures u == Lookup(Value(), username)
    {
      if username in byUsername {
        u := Some(users[byUsername[username]]);
      } else {
        u := None;
      }
    }

    /** `findById`: the stored account, if any. */
    method FindById(id: int) returns (u: Option<User>)
      requires Inv()
      ensures u.Some? <==> id in users
      ensures u.Some? ==> u.value == users[id] && u.value.id == id
    {
      if id in users {
        u := Some(users[id]);
      } else {
        u := None;
      }
    }

    /** `findAll`: a copy of every stored account, one entry per id. */
    method FindAll() returns (all: seq<User>)
      requires Inv()
      ensures |all| == |users|
      ensures forall i :: 0 <= i < |all| ==> all[i] in users.Values
      ensures forall id :: id in users ==> users[id] in all
    {
      all := Values(users);
    }

    method CreateUser(username: string, password: string, email: Option<string>, name: Option<string>, role: Role,
                      now: int) returns (u: User)
      requires Inv()
      modifies this
      ensures Value() == Create(old(Value()), username, encode(password), email, name, role, now)
      ensures Inv()
      ensures u == NewUser(old(nextId), username, encode(password), email, name, role, now)
    {
      CreateEffect(Value(), username, encode(password), email, name, role, now);
      var id := nextId;
      nextId := nextId + 1;
      u := NewUser(id, username, encode(password), email, name, role, now);
      users := users[id := u];
      byUsername := byUsername[username := u.id];
    }

    method UpdateUser(id: int, c: Changes) returns (result: Option<User>)
      requires Inv()
      modifies this
      ensures Value() == Update(old(Value()), id, c)
      ensures Inv()
      ensures result.None? <==> id !in old(users)
      ensures result.Some? ==> result.value == Apply(old(users)[id], c) && users[id] == result.value
    {
      UpdateEffect(Value(), id, c);
      if id !in users {
        return None;
      }
      var updated := Apply(users[id], c);
      users := users[id := updated];
      result := Some(updated);
    }

    method DeleteUser(id: int) returns (deleted: bool)
      requires Inv()
      modifies this
      ensures Value() == Delete(old(Value()), id)
      ensures Inv()
      ensures deleted <==> id in old(users)
    {
      DeleteEffect(Value(), id);
      if id in users {
        var u := users[id];
        users := users - {id};
        byUsername := byUsername - {u.username};
        deleted := true;
      } else {
        deleted := false;
      }
    }

    /** `validatePassword`: the encoder's verdict on the raw password against the stored hash. */
    function ValidatePassword(u: User, password: string): bool {
      matches(password, u.password)
    }

    method UpdateLastLogin(username: string, now: int)
      requires Inv()
      modifies this
      ensures Value() == TouchLogin(old(Value()), username, now)
      ensures Inv()
    {
      TouchLoginEffect(Value(), username, now);
      if username in byUsername {
        var id := byUsername[username];
        users := users[id := users[id].(lastLogin := Some(now))];
      }
    }
  }
}
