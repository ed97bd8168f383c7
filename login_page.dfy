/** The sign-in form. The authentication service is outside the model: its
    answer is a parameter of the step that runs after it settles. */
module LoginPage {
  import opened Common

  datatype Credentials = Credentials(email: string, password: string)

  datatype LoginField = EmailField | PasswordField

  /** What `signIn` settles with: an error object, no error, or an
      exception. */
  datatype SignInReply = SignInFailed(message: string) | SignedIn | SignInThrew

  const EmailRequiredMessage: string := "Email is required"
  const PasswordRequiredMessage: string := "Password is required"
  const UnexpectedErrorMessage: string := "An unexpected error occurred. Please try again."
  const DashboardRoute: string := "/dashboard"

  /** The checks `handleSubmit` makes before calling `signIn`, in order. */
  function LoginError(email: string, password: string): Option<string> {
    if Trim(email) == "" then Some(EmailRequiredMessage)
    else if Trim(password) == "" then Some(PasswordRequiredMessage)
    else None
  }

  /** A blank value is one that `trim()` empties: sign-in is attempted exactly
      when neither value is blank, and a blank email is reported before a
      blank password. */
  lemma LoginErrorCases(email: string, password: string)
    ensures LoginError(email, password).None? <==> !IsBlank(email) && !IsBlank(password)
    ensures IsBlank(email) ==> LoginError(email, password) == Some(EmailRequiredMessage)
    ensures !IsBlank(email) && IsBlank(password) ==> LoginError(email, password) == Some(PasswordRequiredMessage)
  {
    TrimEmptyIffBlank(email);
    TrimEmptyIffBlank(password);
  }

  class LoginForm {
    var email: string
    var password: string
    var error: Option<string>
    var loading: bool

    constructor ()
      ensures email == "" && password == "" && error == None && !loading
    {
      email := "";
      password := "";
      error := None;
      loading := false;
    }

    /** The inputs' `onChange`: one field takes the typed value. */
    method InputChanged(field: LoginField, value: string)
      modifies this
      ensures field == EmailField ==> email == value && password == old(password)
      ensures field == PasswordField ==> password == value && email == old(email)
      ensures error == old(error) && loading == old(loading)
    {
      match field {
        case EmailField => email := value;
        case PasswordField => password := value;
      }
    }

    /** `handleSubmit` up to its `await`. The error is cleared first; a failed
        check sets its message and stops before `loading` is touched; otherwise
        `signIn` is asked with the values as typed, untrimmed. */
    method Submit() returns (call: Option<Credentials>)
      modifies this
      ensures email == old(email) && password == old(password)
      ensures error == LoginError(email, password)
      ensures error.Some? ==> call == None && loading == old(loading)
      ensures error.None? ==> call == Some(Credentials(email, password)) && loading
    {
      error := None;
      if Trim(email) == "" {
        error := Some(EmailRequiredMessage);
        return None;
      }
      if Trim(password) == "" {
        error := Some(PasswordRequiredMessage);
        return None;
      }
      loading := true;
      call := Some(Credentials(email, password));
    }

    /** `handleSubmit` after `signIn` settles: a service error is shown as
        given, success navigates to the dashboard, an exception shows the
        generic message; `loading` ends false on every path. */
    method SignInSettled(reply: SignInReply) returns (navigateTo: Option<string>)
      modifies this
      ensures !loading
      ensures email == old(email) && password == old(password)
      ensures reply.SignInFailed? ==> error == Some(reply.message) && navigateTo == None
      ensures reply.SignedIn? ==> error == old(error) && navigateTo == Some(DashboardRoute)
      ensures reply.SignInThrew? ==> error == Some(UnexpectedErrorMessage) && navigateTo == None
    {
      navigateTo := None;
      match reply {
        case SignInFailed(message) =>
          error := Some(message);
        case SignedIn =>
          navigateTo := Some(DashboardRoute);
        case SignInThrew =>
          error := Some(UnexpectedErrorMessage);
      }
      loading := false;
    }
  }

  /** A whitespace-only email is rejected before the password is looked at,
      whatever the password is. */
  lemma EmailCheckedFirst(email: string, password: string)
    requires IsBlank(email)
    ensures LoginError(email, password) == Some(EmailRequiredMessage)
    ensures LoginError(email, password) == LoginError(email, "")
  {
    LoginErrorCases(email, password);
  }
}
