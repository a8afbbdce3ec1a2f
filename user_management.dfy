/**
 * The user-management page: the list it displays (the server's, or four
 * sample users when the fetch failed or came back empty), the per-role
 * counters, the role chips, and the add/edit dialog. The dialog keeps an
 * edit flag, the id being edited (null when adding) and the form; saving
 * sends an update only in edit mode with a truthy id, and a create otherwise.
 * Roles are the unprefixed names of the typed build.
 */
module UserManagement {
  import opened Common
  import opened Palette

  /** A listed user; the optional name and department fields may be missing. */
  datatype UserProfile = UserProfile(id: string, username: string, email: string, role: string,
                                     firstName: Option<string>, lastName: Option<string>, department: Option<string>)

  /** The four sample users, one per role. */
  const MockUsers: seq<UserProfile> := [
    UserProfile("1", "admin", "admin@city.gov", RoleKey(GovernmentAdmin), Some("John"), Some("Admin"), Some("City Government")),
    UserProfile("2", "manager1", "manager@city.gov", RoleKey(CityManager), Some("Jane"), Some("Manager"), Some("City Transport Dept")),
    UserProfile("3", "provider_admin", "admin@transport.com", RoleKey(ServiceProviderAdmin), Some("Bob"), Some("Provider"), Some("City Transport Co.")),
    UserProfile("4", "user1", "user1@transport.com", RoleKey(ServiceProviderUser), Some("Alice"), Some("User"), Some("City Transport Co."))
  ]

  /** `error || users.length === 0 ? mockUsers : users`. */
  function DisplayUsers(fetched: seq<UserProfile>, failed: bool): (r: seq<UserProfile>)
    ensures failed || fetched == [] ==> r == MockUsers
    ensures !failed && fetched != [] ==> r == fetched
  {
    if failed || |fetched| == 0 then MockUsers else fetched
  }

  function RoleCount(users: seq<UserProfile>, r: Role): nat {
    Count(users, (u: UserProfile) => u.role == RoleKey(r))
  }

  predicate KnownRole(u: UserProfile) {
    exists r: Role :: u.role == RoleKey(r)
  }

  /** With every role one of the four, the four counters add up to the number of users. */
  lemma {:induction false} RoleCountsSumToTotal(users: seq<UserProfile>)
    requires forall i :: 0 <= i < |users| ==> KnownRole(users[i])
    ensures RoleCount(users, GovernmentAdmin) + RoleCount(users, CityManager) +
            RoleCount(users, ServiceProviderAdmin) + RoleCount(users, ServiceProviderUser) == |users|
  {
    if users != [] {
      RoleCountsSumToTotal(users[1..]);
      assert users == [users[0]] + users[1..];
      forall r: Role
        ensures RoleCount(users, r) == RoleCount(users[1..], r) + (if users[0].role == RoleKey(r) then 1 else 0)
      {
        CountPrepend(users[0], users[1..], (u: UserProfile) => u.role == RoleKey(r));
      }
      assert KnownRole(users[0]);
    }
  }

  predicate IsProvider(u: UserProfile) {
    u.role == RoleKey(ServiceProviderAdmin) || u.role == RoleKey(ServiceProviderUser)
  }

  /** The 'Service Providers' card, provider admins plus provider users, counts the users of either provider role. */
  lemma {:induction false} ProvidersCard(users: seq<UserProfile>)
    ensures RoleCount(users, ServiceProviderAdmin) + RoleCount(users, ServiceProviderUser) == Count(users, IsProvider)
  {
    if users != [] {
      ProvidersCard(users[1..]);
      assert users == [users[0]] + users[1..];
      CountPrepend(users[0], users[1..], (u: UserProfile) => u.role == RoleKey(ServiceProviderAdmin));
      CountPrepend(users[0], users[1..], (u: UserProfile) => u.role == RoleKey(ServiceProviderUser));
      CountPrepend(users[0], users[1..], IsProvider);
    }
  }

  /** The sample list shows one user under each role. */
  lemma MockRoleCounts(r: Role)
    ensures |MockUsers| == 4 && RoleCount(MockUsers, r) == 1
  {
    var m := MockUsers;
    assert m[1..][1..] == m[2..] && m[2..][1..] == m[3..] && m[3..][1..] == [];
  }

  /** `getRoleColor`. */
  function RoleColor(role: string): (c: Color)
    ensures c == Error <==> role == RoleKey(GovernmentAdmin)
    ensures c == Warning <==> role == RoleKey(CityManager)
    ensures c == Info <==> role == RoleKey(ServiceProviderAdmin)
    ensures c == Default <==> role != RoleKey(GovernmentAdmin) && role != RoleKey(CityManager) && role != RoleKey(ServiceProviderAdmin)
  {
    if role == RoleKey(GovernmentAdmin) then Error
    else if role == RoleKey(CityManager) then Warning
    else if role == RoleKey(ServiceProviderAdmin) then Info
    else Default
  }

  /** The dialog's form; the password is undefined until typed. */
  datatype UserForm = UserForm(username: string, email: string, firstName: string, lastName: string,
                               role: string, department: string, password: Option<string>)

  const EmptyForm := UserForm("", "", "", "", RoleKey(ServiceProviderUser), "", None)

  /** The form filled from a listed user, '' standing in for each missing optional field. */
  function FormFor(u: UserProfile): (f: UserForm)
    ensures f.username == u.username && f.email == u.email && f.role == u.role && f.password.None?
    ensures f.firstName == u.firstName.GetOr("") && f.lastName == u.lastName.GetOr("") && f.department == u.department.GetOr("")
  {
    UserForm(u.username, u.email, u.firstName.GetOr(""), u.lastName.GetOr(""), u.role, u.department.GetOr(""), None)
  }

  /** The form's text inputs. */
  datatype Field = Username | FirstName | LastName | Email | RoleField | Department | Password

  /** What an input shows; the password input shows '' while the password is undefined. */
  function Get(f: UserForm, field: Field): string {
    match field
    case Username => f.username
    case FirstName => f.firstName
    case LastName => f.lastName
    case Email => f.email
    case RoleField => f.role
    case Department => f.department
    case Password => f.password.GetOr("")
  }

  /** `{ ...currentUser, [field]: value }`. */
  function Set(f: UserForm, field: Field, value: string): (g: UserForm)
    ensures Get(g, field) == value
    ensures forall other: Field :: other != field ==> Get(g, other) == Get(f, other)
  {
    match field
    case Username => f.(username := value)
    case FirstName => f.(firstName := value)
    case LastName => f.(lastName := value)
    case Email => f.(email := value)
    case RoleField => f.(role := value)
    case Department => f.(department := value)
    case Password => f.(password := Some(value))
  }

  /** The body of an update: only the contact fields. */
  datatype UpdateData = UpdateData(email: string, firstName: string, lastName: string, department: string)

  datatype CreateData = CreateData(username: string, email: string, password: string, role: string,
                                   firstName: string, lastName: string, department: string)

  datatype Request = Update(id: string, changes: UpdateData) | Create(fields: CreateData)

  const DefaultPassword := "defaultPassword123"

  /** `handleSaveUser`'s choice: `editMode && editingUserId` picks the update, so an empty id falls back to a create. */
  function SaveRequest(editMode: bool, editingUserId: Option<string>, f: UserForm): (r: Request)
    ensures r.Update? <==> editMode && editingUserId.Some? && editingUserId.value != ""
    ensures r.Update? ==> (r.id == editingUserId.value &&
      r.changes == UpdateData(f.email, f.firstName, f.lastName, f.department))
    ensures r.Create? ==> (r.fields.username == f.username && r.fields.email == f.email && r.fields.role == f.role &&
      r.fields.firstName == f.firstName && r.fields.lastName == f.lastName && r.fields.department == f.department)
    ensures r.Create? ==> r.fields.password == if f.password.Some? && f.password.value != "" then f.password.value else DefaultPassword
  {
    if editMode && editingUserId.Some? && editingUserId.value != "" then
      Update(editingUserId.value, UpdateData(f.email, f.firstName, f.lastName, f.department))
    else
      var pw := if f.password.Some? && f.password.value != "" then f.password.value else DefaultPassword;
      Create(CreateData(f.username, f.email, pw, f.role, f.firstName, f.lastName, f.department))
  }

  /** An update never carries the username, role or password; a create always carries a non-empty password. */
  lemma SaveRequestShape(editMode: bool, editingUserId: Option<string>, f: UserForm)
    ensures SaveRequest(editMode, editingUserId, f).Create? ==> SaveRequest(editMode, editingUserId, f).fields.password != ""
    ensures SaveRequest(false, editingUserId, f).Create?
  {
  }

  /** The page's dialog state. */
  class UserDialog {
    var openDialog: bool
    var editMode: bool
    var currentUser: UserForm
    var editingUserId: Option<string>

    constructor ()
      ensures !openDialog && !editMode && currentUser == EmptyForm && editingUserId.None?
    {
      openDialog := false;
      editMode := false;
      currentUser := EmptyForm;
      editingUserId := None;
    }

    /** Opening with a user edits it; opening without one starts a blank form. */
    method HandleOpenDialog(user: Option<UserProfile>)
      modifies this
      ensures openDialog
      ensures user.Some? ==> editMode && editingUserId == Some(user.value.id) && currentUser == FormFor(user.value)
      ensures user.None? ==> !editMode && editingUserId.None? && currentUser == EmptyForm
    {
      match user {
        case Some(u) =>
          editMode := true;
          editingUserId := Some(u.id);
          currentUser := FormFor(u);
        case None =>
          editMode := false;
          editingUserId := None;
          currentUser := EmptyForm;
      }
      openDialog := true;
    }

    /** Closing clears the form and the id but keeps the edit flag. */
    method HandleCloseDialog()
      modifies this
      ensures !openDialog && currentUser == EmptyForm && editingUserId.None?
      ensures editMode == old(editMode)
    {
      openDialog := false;
      currentUser := EmptyForm;
      editingUserId := None;
    }

    method Change(field: Field, value: string)
      modifies this
      ensures currentUser == Set(old(currentUser), field, value)
      ensures openDialog == old(openDialog) && editMode == old(editMode) && editingUserId == old(editingUserId)
    {
      currentUser := Set(currentUser, field, value);
    }

    /** Sends the request; `succeeded` is the server's answer. Success closes the dialog, failure only logs. */
    method HandleSaveUser(succeeded: bool) returns (request: Request)
      modifies this
      ensures request == SaveRequest(old(editMode), old(editingUserId), old(currentUser))
      ensures succeeded ==> !openDialog && currentUser == EmptyForm && editingUserId.None? && editMode == old(editMode)
      ensures !succeeded ==> openDialog == old(openDialog) && currentUser == old(currentUser) &&
                             editingUserId == old(editingUserId) && editMode == old(editMode)
    {
      request := SaveRequest(editMode, editingUserId, currentUser);
      if succeeded {
        HandleCloseDialog();
      }
    }
  }

  /** Editing a user with a non-empty id and saving sends an update for that id with the form's contact fields. */
  lemma EditThenSave(u: UserProfile)
    requires u.id != ""
    ensures SaveRequest(true, Some(u.id), FormFor(u)) ==
      Update(u.id, UpdateData(u.email, u.firstName.GetOr(""), u.lastName.GetOr(""), u.department.GetOr("")))
  {
  }
}
