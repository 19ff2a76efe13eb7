/** The login page: its two-field form, the empty-field guard in front of
    `login`, and how the reply becomes an error message or a navigation. */
module LoginPage {
  import opened Common
  import opened Auth

  const FillInAll: string := "Please fill in all fields"
  const LoginFallback: string := "Login failed"
  const AdminRoute: string := "/admin"

  datatype LoginField = EmailField | PasswordField

  /** `!formData.email || !formData.password`. */
  predicate MissingCredentials(email: string, password: string) {
    email == "" || password == ""
  }

  /** `result.error || 'Login failed'`. */
  function LoginErrorText(error: string): (text: string)
    ensures text != ""
    ensures error != "" ==> text == error
  {
    if error != "" then error else LoginFallback
  }

  /** The message a refused login shows: every refusal reads as a non-empty
      text, and the service's own messages come through unchanged. */
  lemma RefusalMessages(lookup: LookupResult, password: string)
    requires Authenticate(lookup, password).Err?
    ensures LoginErrorText(Authenticate(lookup, password).error) != ""
    ensures lookup.ServiceError? ==> LoginErrorText(Authenticate(lookup, password).error) == AuthFailed
    ensures lookup.Answered? ==> LoginErrorText(Authenticate(lookup, password).error) == BadCredentials
    ensures lookup.Thrown? && lookup.message == "" ==>
      LoginErrorText(Authenticate(lookup, password).error) == LoginFallback
  {
  }

  class Login {
    var email: string
    var password: string
    var error: string
    var isLoading: bool
    /** The route the page navigated to, if it did. */
    var navigatedTo: Option<string>

    constructor()
      ensures email == "" && password == "" && error == "" && !isLoading && navigatedTo.None?
    {
      email := "";
      password := "";
      error := "";
      isLoading := false;
      navigatedTo := None;
    }

    /** `handleChange`: the named field takes the value, the other is kept,
        and any error shown is cleared. */
    method HandleChange(field: LoginField, value: string)
      modifies this
      ensures field == EmailField ==> email == value && password == old(password)
      ensures field == PasswordField ==> password == value && email == old(email)
      ensures error == "" && isLoading == old(isLoading) && navigatedTo == old(navigatedTo)
    {
      match field {
        case EmailField => email := value;
        case PasswordField => password := value;
      }
      if error != "" {
        error := "";
      }
    }

    /** `handleSubmit`: with a field empty the guard sets its message and
        `login` is not called; otherwise `login` runs against `lookup`, a
        success navigates to the admin page and a refusal shows its message.
        The form is kept and loading is off afterwards on every path. */
    method HandleSubmit(auth: AuthContext, lookup: LookupResult)
      requires auth.Valid()
      modifies this, auth
      ensures email == old(email) && password == old(password) && !isLoading
      ensures MissingCredentials(email, password) ==>
        error == FillInAll && navigatedTo == old(navigatedTo) &&
        auth.user == old(auth.user) && auth.storage == old(auth.storage) &&
        auth.loading == old(auth.loading)
      ensures !MissingCredentials(email, password) && Authenticate(lookup, password).Ok? ==>
        error == "" && navigatedTo == Some(AdminRoute) &&
        auth.user == Some(Authenticate(lookup, password).value) &&
        auth.storage == old(auth.storage)[StorageKey := auth.user.value]
      ensures !MissingCredentials(email, password) && Authenticate(lookup, password).Err? ==>
        error == LoginErrorText(Authenticate(lookup, password).error) &&
        navigatedTo == old(navigatedTo) &&
        auth.user == old(auth.user) && auth.storage == old(auth.storage)
      ensures !MissingCredentials(email, password) ==> !auth.loading
      ensures auth.Valid()
    {
      isLoading := true;
      error := "";
      if MissingCredentials(email, password) {
        error := FillInAll;
        isLoading := false;
        return;
      }
      var reply := auth.Login(email, password, lookup);
      match reply {
        case Success =>
          navigatedTo := Some(AdminRoute);
        case Failure(message) =>
          error := LoginErrorText(message);
      }
      isLoading := false;
    }
  }
}
