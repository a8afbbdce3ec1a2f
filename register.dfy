/**
 * The registration page. Its state is the chosen account type, the form, an
 * error message and a success message (the empty string meaning none). A
 * submit clears both messages, refuses a password that differs from its
 * confirmation, and otherwise sends the form to the endpoint of the chosen
 * account type; the server's answer comes back through the success or error
 * callback.
 */
module Register {
  import opened Common

  /** The toggle's two choices. */
  datatype UserType = CityManagerType | ServiceProviderAdminType

  datatype RegisterForm = RegisterForm(username: string, email: string, password: string, confirmPassword: string,
                                       firstName: string, lastName: string, organization: string)

  const EmptyForm := RegisterForm("", "", "", "", "", "", "")

  /** The inputs, by their `name` attribute. */
  datatype Field = Username | Email | Password | ConfirmPassword | FirstName | LastName | Organization

  function Get(f: RegisterForm, field: Field): string {
    match field
    case Username => f.username
    case Email => f.email
    case Password => f.password
    case ConfirmPassword => f.confirmPassword
    case FirstName => f.firstName
    case LastName => f.lastName
    case Organization => f.organization
  }

  /** `{ ...formData, [e.target.name]: e.target.value }`. */
  function Set(f: RegisterForm, field: Field, value: string): (g: RegisterForm)
    ensures Get(g, field) == value
    ensures forall other: Field :: other != field ==> Get(g, other) == Get(f, other)
  {
    match field
    case Username => f.(username := value)
    case Email => f.(email := value)
    case Password => f.(password := value)
    case ConfirmPassword => f.(confirmPassword := value)
    case FirstName => f.(firstName := value)
    case LastName => f.(lastName := value)
    case Organization => f.(organization := value)
  }

  /** The two registration mutations. */
  datatype Endpoint = CityManagerRegistration | ServiceProviderAdminRegistration

  function EndpointFor(t: UserType): Endpoint {
    if t == CityManagerType then CityManagerRegistration else ServiceProviderAdminRegistration
  }

  /** The role sent in the `userType` field. */
  function RoleFor(t: UserType): (role: string)
    ensures role == RoleKey(CityManager) || role == RoleKey(ServiceProviderAdmin)
  {
    if t == CityManagerType then RoleKey(CityManager) else RoleKey(ServiceProviderAdmin)
  }

  /** The endpoint and the role always agree: city managers go to the city-manager mutation, providers to the other. */
  lemma EndpointMatchesRole(t: UserType)
    ensures EndpointFor(t) == CityManagerRegistration <==> RoleFor(t) == RoleKey(CityManager)
    ensures EndpointFor(t) == ServiceProviderAdminRegistration <==> RoleFor(t) == RoleKey(ServiceProviderAdmin)
  {
  }

  /** The body sent; the confirmation is not part of it. */
  datatype Registration = Registration(username: string, email: string, password: string, firstName: string,
                                       lastName: string, userType: string, organization: string)

  datatype Submission = Submission(endpoint: Endpoint, data: Registration)

  const PasswordsDoNotMatch := "Passwords do not match"
  const RegistrationFailed := "Registration failed. Please try again."
  const RegistrationSucceeded := "Registration successful! Redirecting to login..."

  /** What a submit sends: nothing when the confirmation differs, else the form under the chosen type. */
  function Submit(f: RegisterForm, t: UserType): (r: Option<Submission>)
    ensures r.None? <==> f.password != f.confirmPassword
    ensures r.Some? ==> r.value.endpoint == EndpointFor(t) && r.value.data.userType == RoleFor(t)
    ensures r.Some? ==> r.value.data.username == f.username && r.value.data.email == f.email &&
                        r.value.data.password == f.password && r.value.data.firstName == f.firstName &&
                        r.value.data.lastName == f.lastName && r.value.data.organization == f.organization
  {
    if f.password != f.confirmPassword then None
    else Some(Submission(EndpointFor(t), Registration(f.username, f.email, f.password, f.firstName, f.lastName,
                                                      RoleFor(t), f.organization)))
  }

  /** A sent password is always the one typed twice. */
  lemma SentPasswordConfirmed(f: RegisterForm, t: UserType)
    requires Submit(f, t).Some?
    ensures Submit(f, t).value.data.password == f.confirmPassword
  {
  }

  /** The message shown after a failed registration: the server's, when it sent a non-empty one. */
  function FailureMessage(serverMessage: Option<string>): (m: string)
    ensures m != ""
    ensures serverMessage.Some? && serverMessage.value != "" ==> m == serverMessage.value
    ensures serverMessage.None? || serverMessage.value == "" ==> m == RegistrationFailed
  {
    if serverMessage.Some? && serverMessage.value != "" then serverMessage.value else RegistrationFailed
  }

  class RegisterPage {
    var userType: UserType
    var form: RegisterForm
    var showPassword: bool
    var error: string
    var success: string

    constructor ()
      ensures userType == CityManagerType && form == EmptyForm && !showPassword && error == "" && success == ""
    {
      userType := CityManagerType;
      form := EmptyForm;
      showPassword := false;
      error := "";
      success := "";
    }

    /** Typing into an input updates that field and clears the error. */
    method HandleChange(field: Field, value: string)
      modifies this
      ensures form == Set(old(form), field, value) && error == ""
      ensures userType == old(userType) && success == old(success) && showPassword == old(showPassword)
    {
      form := Set(form, field, value);
      error := "";
    }

    /** Clears both messages, then either reports the mismatch or hands back the request to send. */
    method HandleSubmit() returns (sent: Option<Submission>)
      modifies this
      ensures sent == Submit(old(form), old(userType))
      ensures success == ""
      ensures error == if sent.None? then PasswordsDoNotMatch else ""
      ensures form == old(form) && userType == old(userType) && showPassword == old(showPassword)
    {
      error := "";
      success := "";
      if form.password != form.confirmPassword {
        error := PasswordsDoNotMatch;
        return None;
      }
      sent := Some(Submission(EndpointFor(userType), Registration(form.username, form.email, form.password,
                                                                  form.firstName, form.lastName, RoleFor(userType), form.organization)));
    }

    /** The mutation's success callback; the delayed navigation to the login page is not part of this model. */
    method OnSuccess()
      modifies this
      ensures success == RegistrationSucceeded
      ensures error == old(error) && form == old(form) && userType == old(userType) && showPassword == old(showPassword)
    {
      success := RegistrationSucceeded;
    }

    /** The mutation's error callback. */
    method OnError(serverMessage: Option<string>)
      modifies this
      ensures error == FailureMessage(serverMessage)
      ensures success == old(success) && form == old(form) && userType == old(userType) && showPassword == old(showPassword)
    {
      error := FailureMessage(serverMessage);
    }

    /** The toggle: deselecting (a null value) keeps the current type. */
    method HandleUserTypeChange(newValue: Option<UserType>)
      modifies this
      ensures userType == if newValue.Some? then newValue.value else old(userType)
      ensures form == old(form) && error == old(error) && success == old(success) && showPassword == old(showPassword)
    {
      if newValue.Some? {
        userType := newValue.value;
      }
    }

    method ToggleShowPassword()
      modifies this
      ensures showPassword == !old(showPassword)
      ensures form == old(form) && error == old(error) && success == old(success) && userType == old(userType)
    {
      showPassword := !showPassword;
    }
  }
}
