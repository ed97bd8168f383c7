/** The sign-up form: the ordered checks of `validateForm` and the branching
    after `signUp` settles. String length is JavaScript's, in UTF-16 code
    units. */
module RegisterPage {
  import opened Common
  import LoginPage

  /** What `signUp` settles with: an error object, success with or without a
      session (none when the address still has to be confirmed), or an
      exception. */
  datatype SignUpReply = SignUpFailed(message: string) | SignedUp(hasSession: bool) | SignUpThrew

  const EmailRequiredMessage: string := "Email is required"
  const PasswordRequiredMessage: string := "Password is required"
  const PasswordTooShortMessage: string := "Password must be at least 6 characters"
  const PasswordMismatchMessage: string := "Passwords do not match"
  const VerifyEmailMessage: string := "Registration successful! Please check your email for verification instructions."
  const UnexpectedErrorMessage: string := "An unexpected error occurred. Please try again."
  const MinPasswordLength: nat := 6

  /** `validateForm`: `None` when every check passes, otherwise the message of
      the first check that fails. The length check counts the untrimmed
      password. */
  function RegistrationError(email: string, password: string, confirmPassword: string): Option<string> {
    if Trim(email) == "" then Some(EmailRequiredMessage)
    else if Trim(password) == "" then Some(PasswordRequiredMessage)
    else if Utf16Length(password) < MinPasswordLength then Some(PasswordTooShortMessage)
    else if password != confirmPassword then Some(PasswordMismatchMessage)
    else None
  }

  /** The details are accepted exactly when all four checks pass; otherwise
      the message is that of the first check that fails, in the order email,
      password, length, confirmation. */
  lemma RegistrationErrorCases(email: string, password: string, confirmPassword: string)
    ensures var error := RegistrationError(email, password, confirmPassword);
      && (error.None? <==>
            !IsBlank(email) && !IsBlank(password) && Utf16Length(password) >= MinPasswordLength
            && password == confirmPassword)
      && (IsBlank(email) ==> error == Some(EmailRequiredMessage))
      && (!IsBlank(email) && IsBlank(password) ==> error == Some(PasswordRequiredMessage))
      && (!IsBlank(email) && !IsBlank(password) && Utf16Length(password) < MinPasswordLength ==>
            error == Some(PasswordTooShortMessage))
      && ((!IsBlank(email) && !IsBlank(password) && Utf16Length(password) >= MinPasswordLength
           && password != confirmPassword) ==> error == Some(PasswordMismatchMessage))
  {
    TrimEmptyIffBlank(email);
    TrimEmptyIffBlank(password);
  }

  /** Registration asks for more than sign-in: details that pass the sign-up
      checks pass the sign-in checks, and the first two checks give the same
      messages on both forms. */
  lemma RegistrationImpliesLogin(email: string, password: string, confirmPassword: string)
    ensures RegistrationError(email, password, confirmPassword).None? ==> LoginPage.LoginError(email, password).None?
    ensures LoginPage.LoginError(email, password).Some? ==>
      RegistrationError(email, password, confirmPassword) == LoginPage.LoginError(email, password)
  {
    RegistrationErrorCases(email, password, confirmPassword);
    LoginPage.LoginErrorCases(email, password);
  }

  /** Three characters outside the Basic Multilingual Plane are six UTF-16
      code units: enough for the length check. */
  lemma AstralPasswordLength(password: string)
    requires |password| == 3 && forall i :: 0 <= i < |password| ==> password[i] as int > 0xFFFF
    ensures Utf16Length(password) == MinPasswordLength
  {
    Utf16LengthAstral(password);
  }

  datatype RegisterField = EmailField | PasswordField | ConfirmPasswordField

  class RegisterForm {
    var email: string
    var password: string
    var confirmPassword: string
    var error: Option<string>
    var success: Option<string>
    var loading: bool

    constructor ()
      ensures email == "" && password == "" && confirmPassword == ""
      ensures error == None && success == None && !loading
    {
      email := "";
      password := "";
      confirmPassword := "";
      error := None;
      success := None;
      loading := false;
    }

    /** The inputs' `onChange`: one field takes the typed value. */
    method InputChanged(field: RegisterField, value: string)
      modifies this
      ensures field == EmailField ==> email == value && password == old(password) && confirmPassword == old(confirmPassword)
      ensures field == PasswordField ==> password == value && email == old(email) && confirmPassword == old(confirmPassword)
      ensures field == ConfirmPasswordField ==> confirmPassword == value && email == old(email) && password == old(password)
      ensures error == old(error) && success == old(success) && loading == old(loading)
    {
      match field {
        case EmailField => email := value;
        case PasswordField => password := value;
        case ConfirmPasswordField => confirmPassword := value;
      }
    }

    /** `validateForm` on the current fields: it sets the first failing
        check's message. */
    method ValidateForm() returns (valid: bool)
      modifies this`error
      ensures valid <==> RegistrationError(email, password, confirmPassword).None?
      ensures !valid ==> error == RegistrationError(email, password, confirmPassword)
      ensures valid ==> error == old(error)
    {
      var e, p, c := email, password, confirmPassword;
      if Trim(e) == "" {
        error := Some(EmailRequiredMessage);
        assert RegistrationError(e, p, c) == error;
        return false;
      }
      if Trim(p) == "" {
        error := Some(PasswordRequiredMessage);
        assert RegistrationError(e, p, c) == error;
        return false;
      }
      if Utf16Length(p) < MinPasswordLength {
        error := Some(PasswordTooShortMessage);
        assert RegistrationError(e, p, c) == error;
        return false;
      }
      if p != c {
        error := Some(PasswordMismatchMessage);
        assert RegistrationError(e, p, c) == error;
        return false;
      }
      assert RegistrationError(e, p, c) == None;
      return true;
    }

    /** `handleSubmit` up to its `await`: both messages are cleared; a form
        that fails validation never reaches `signUp`. */
    method Submit() returns (call: Option<LoginPage.Credentials>)
      modifies this
      ensures email == old(email) && password == old(password) && confirmPassword == old(confirmPassword)
      ensures success == None
      ensures error == RegistrationError(email, password, confirmPassword)
      ensures error.Some? ==> call == None && loading == old(loading)
      ensures error.None? ==> call == Some(LoginPage.Credentials(email, password)) && loading
    {
      error := None;
      success := None;
      var valid := ValidateForm();
      if !valid {
        return None;
      }
      assert error == None;
      loading := true;
      call := Some(LoginPage.Credentials(email, password));
    }

    /** `handleSubmit` after `signUp` settles: with a session the page goes to
        the dashboard, without one it asks the member to confirm the address;
        `loading` ends false on every path. */
    method SignUpSettled(reply: SignUpReply) returns (navigateTo: Option<string>)
      modifies this
      ensures !loading
      ensures email == old(email) && password == old(password) && confirmPassword == old(confirmPassword)
      ensures reply.SignUpFailed? ==>
        error == Some(reply.message) && success == old(success) && navigateTo == None
      ensures reply == SignedUp(true) ==>
        navigateTo == Some(LoginPage.DashboardRoute) && error == old(error) && success == old(success)
      ensures reply == SignedUp(false) ==>
        navigateTo == None && success == Some(VerifyEmailMessage) && error == old(error)
      ensures reply.SignUpThrew? ==>
        error == Some(UnexpectedErrorMessage) && success == old(success) && navigateTo == None
    {
      navigateTo := None;
      match reply {
        case SignUpFailed(message) =>
          error := Some(message);
        case SignedUp(hasSession) =>
          if hasSession {
            navigateTo := Some(LoginPage.DashboardRoute);
          } else {
            success := Some(VerifyEmailMessage);
          }
        case SignUpThrew =>
          error := Some(UnexpectedErrorMessage);
      }
      loading := false;
    }
  }
}
