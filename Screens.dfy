/**
 * The registration and sign-in screens as state machines: the field values,
 * one error text per field, the loading flag and the alert last shown. Each
 * validator sets its own error text; the submit handlers run every
 * validator and call the authentication provider only when all pass.
 * Rendering and navigation are not modelled.
 */
module Screens {
  import opened Wrappers
  import opened Models
  import opened Forms
  import MockApi
  import AppAuth
  import DeviceStorage

  const RegisterFailed := "Une erreur s'est produite lors de l'inscription"
  const RegisteredTitle := "Inscription réussie"
  const LoginFailedDefault := "Identifiants incorrects"

  /** The six fields of the registration screen. */
  datatype RegisterInput = RegisterInput(
    firstName: string, lastName: string, email: string,
    password: string, confirmPassword: string, phone: string)

  /** The six error texts of the registration screen, in the same order. */
  datatype RegisterErrors = RegisterErrors(
    firstName: string, lastName: string, email: string,
    password: string, confirmPassword: string, phone: string)

  const EmptyInput := RegisterInput("", "", "", "", "", "")
  const NoErrors := RegisterErrors("", "", "", "", "", "")

  /** The error texts the six validators leave, each whatever the others found. */
  function ErrorsOf(input: RegisterInput): RegisterErrors {
    RegisterErrors(
      CheckName(input.firstName, FirstNameRequired).error,
      CheckName(input.lastName, LastNameRequired).error,
      CheckEmail(input.email, EmailRequired, EmailMalformed).error,
      CheckPassword(input.password).error,
      CheckConfirm(input.confirmPassword, input.password).error,
      CheckPhone(input.phone).error)
  }

  /** Every one of the six validators passes. */
  predicate RegisterInputValid(input: RegisterInput) {
    && CheckName(input.firstName, FirstNameRequired).valid
    && CheckName(input.lastName, LastNameRequired).valid
    && CheckEmail(input.email, EmailRequired, EmailMalformed).valid
    && CheckPassword(input.password).valid
    && CheckConfirm(input.confirmPassword, input.password).valid
    && CheckPhone(input.phone).valid
  }

  /** A check is valid exactly when it leaves no error text. */
  predicate Coherent(c: FieldCheck) {
    c.valid <==> c.error == ""
  }

  /** Every refusal message of the registration screen is non-empty, so each check is coherent. */
  lemma RegisterChecksCoherent(input: RegisterInput)
    ensures Coherent(CheckName(input.firstName, FirstNameRequired))
    ensures Coherent(CheckName(input.lastName, LastNameRequired))
    ensures Coherent(CheckEmail(input.email, EmailRequired, EmailMalformed))
    ensures Coherent(CheckPassword(input.password))
    ensures Coherent(CheckConfirm(input.confirmPassword, input.password))
    ensures Coherent(CheckPhone(input.phone))
  {
  }

  /** A registration is submitted exactly when the screen shows no field error. */
  lemma SubmittedIffNoErrors(input: RegisterInput)
    ensures RegisterInputValid(input) <==> ErrorsOf(input) == NoErrors
  {
    RegisterChecksCoherent(input);
  }

  /**
   * What the registration screen shows after the provider answers: the
   * success alert, or a general error that is never empty.
   */
  function RegisterFeedback(r: Response<AuthData>, alert: Option<string>, generalError: string)
    : (f: (Option<string>, string))
    ensures r.success ==> f == (Some(RegisteredTitle), generalError)
    ensures !r.success ==> f.0 == alert && f.1 != ""
    ensures !r.success && r.message.Some? && r.message.value != "" ==> f.1 == r.message.value
    ensures !r.success && (r.message.None? || r.message.value == "") ==> f.1 == RegisterFailed
  {
    if r.success then (Some(RegisteredTitle), generalError)
    else (alert, MessageOr(r.message, RegisterFailed))
  }

  /**
   * The alert the sign-in screen raises for an answer: none on success,
   * otherwise the answer's message, or the generic one when it has none.
   */
  function LoginAlert(r: Response<AuthData>, alert: Option<string>): (a: Option<string>)
    ensures r.success ==> a == alert
    ensures !r.success ==> a.Some? && a.value != ""
    ensures !r.success && r.message.Some? && r.message.value != "" ==> a == r.message
    ensures !r.success && (r.message.None? || r.message.value == "") ==> a == Some(LoginFailedDefault)
  {
    if r.success then alert else Some(MessageOr(r.message, LoginFailedDefault))
  }

  /** `RegisterScreen`. */
  class RegisterForm {
    var input: RegisterInput
    var errors: RegisterErrors
    var generalError: string
    var isLoading: bool
    var alert: Option<string>

    /** Every field and error empty, not loading, no alert. */
    constructor()
      ensures input == EmptyInput && errors == NoErrors
      ensures generalError == "" && !isLoading && alert.None?
    {
      input := EmptyInput;
      errors := NoErrors;
      generalError := "";
      isLoading := false;
      alert := None;
    }

    method ValidateFirstName() returns (ok: bool)
      modifies this
      ensures ok == CheckName(input.firstName, FirstNameRequired).valid
      ensures errors == old(errors).(firstName := CheckName(input.firstName, FirstNameRequired).error)
      ensures input == old(input) && generalError == old(generalError)
      ensures isLoading == old(isLoading) && alert == old(alert)
    {
      var c := CheckName(input.firstName, FirstNameRequired);
      errors := errors.(firstName := c.error);
      ok := c.valid;
    }

    method ValidateLastName() returns (ok: bool)
      modifies this
      ensures ok == CheckName(input.lastName, LastNameRequired).valid
      ensures errors == old(errors).(lastName := CheckName(input.lastName, LastNameRequired).error)
      ensures input == old(input) && generalError == old(generalError)
      ensures isLoading == old(isLoading) && alert == old(alert)
    {
      var c := CheckName(input.lastName, LastNameRequired);
      errors := errors.(lastName := c.error);
      ok := c.valid;
    }

    method ValidateEmail() returns (ok: bool)
      modifies this
      ensures ok == CheckEmail(input.email, EmailRequired, EmailMalformed).valid
      ensures errors == old(errors).(email := CheckEmail(input.email, EmailRequired, EmailMalformed).error)
      ensures input == old(input) && generalError == old(generalError)
      ensures isLoading == old(isLoading) && alert == old(alert)
    {
      var c := CheckEmail(input.email, EmailRequired, EmailMalformed);
      errors := errors.(email := c.error);
      ok := c.valid;
    }

    method ValidatePassword() returns (ok: bool)
      modifies this
      ensures ok == CheckPassword(input.password).valid
      ensures errors == old(errors).(password := CheckPassword(input.password).error)
      ensures input == old(input) && generalError == old(generalError)
      ensures isLoading == old(isLoading) && alert == old(alert)
    {
      var c := CheckPassword(input.password);
      errors := errors.(password := c.error);
      ok := c.valid;
    }

    method ValidateConfirmPassword() returns (ok: bool)
      modifies this
      ensures ok == CheckConfirm(input.confirmPassword, input.password).valid
      ensures errors == old(errors).(confirmPassword := CheckConfirm(input.confirmPassword, input.password).error)
      ensures input == old(input) && generalError == old(generalError)
      ensures isLoading == old(isLoading) && alert == old(alert)
    {
      var c := CheckConfirm(input.confirmPassword, input.password);
      errors := errors.(confirmPassword := c.error);
      ok := c.valid;
    }

    method ValidatePhone() returns (ok: bool)
      modifies this
      ensures ok == CheckPhone(input.phone).valid
      ensures errors == old(errors).(phone := CheckPhone(input.phone).error)
      ensures input == old(input) && generalError == old(generalError)
      ensures isLoading == old(isLoading) && alert == old(alert)
    {
      var c := CheckPhone(input.phone);
      errors := errors.(phone := c.error);
      ok := c.valid;
    }

    /**
     * `handleRegister`: the general error is cleared, all six validators
     * run, and only when every one passes is the provider asked to register;
     * its answer then raises the success alert or sets the general error,
     * and loading ends. The provider in use always accepts, so the general
     * error stays empty.
     */
    method HandleRegister(auth: AppAuth.AuthProvider, tokenSuffix: string, id: string, now: string)
      returns (submitted: bool)
      modifies this
      ensures input == old(input)
      ensures errors == ErrorsOf(input)
      ensures submitted <==> RegisterInputValid(input)
      ensures generalError == ""
      ensures submitted ==> !isLoading && alert == Some(RegisteredTitle)
      ensures !submitted ==> isLoading == old(isLoading) && alert == old(alert)
    {
      generalError := "";
      var firstNameOk := ValidateFirstName();
      var lastNameOk := ValidateLastName();
      var emailOk := ValidateEmail();
      var passwordOk := ValidatePassword();
      var confirmOk := ValidateConfirmPassword();
      var phoneOk := ValidatePhone();
      submitted := firstNameOk && lastNameOk && emailOk && passwordOk && confirmOk && phoneOk;
      if submitted {
        isLoading := true;
        var data := RegisterData(input.email, input.password, input.firstName, input.lastName, Some(input.phone));
        var response := auth.Register(data, tokenSuffix, id, now);
        var feedback := RegisterFeedback(response, alert, generalError);
        alert := feedback.0;
        generalError := feedback.1;
        isLoading := false;
      }
    }
  }

  /** `LoginScreen`. */
  class LoginForm {
    var email: string
    var password: string
    var emailError: string
    var passwordError: string
    var isLoading: bool
    var alert: Option<string>

    /** Both fields and both errors empty, not loading, no alert. */
    constructor()
      ensures email == "" && password == "" && emailError == "" && passwordError == ""
      ensures !isLoading && alert.None?
    {
      email := "";
      password := "";
      emailError := "";
      passwordError := "";
      isLoading := false;
      alert := None;
    }

    method ValidateEmail() returns (ok: bool)
      modifies this
      ensures ok == CheckEmail(email, LoginEmailRequired, LoginEmailMalformed).valid
      ensures emailError == CheckEmail(email, LoginEmailRequired, LoginEmailMalformed).error
      ensures email == old(email) && password == old(password) && passwordError == old(passwordError)
      ensures isLoading == old(isLoading) && alert == old(alert)
    {
      var c := CheckEmail(email, LoginEmailRequired, LoginEmailMalformed);
      emailError := c.error;
      ok := c.valid;
    }

    method ValidatePassword() returns (ok: bool)
      modifies this
      ensures ok == CheckPassword(password).valid
      ensures passwordError == CheckPassword(password).error
      ensures email == old(email) && password == old(password) && emailError == old(emailError)
      ensures isLoading == old(isLoading) && alert == old(alert)
    {
      var c := CheckPassword(password);
      passwordError := c.error;
      ok := c.valid;
    }

    /**
     * `handleLogin`: both validators run; only when both pass is the
     * provider asked to sign in (see `SignIn`).
     */
    method HandleLogin(auth: AppAuth.AuthProvider) returns (submitted: bool)
      requires auth.api.Valid()
      modifies this, auth, auth.store
      ensures email == old(email) && password == old(password)
      ensures emailError == CheckEmail(email, LoginEmailRequired, LoginEmailMalformed).error
      ensures passwordError == CheckPassword(password).error
      ensures submitted <==>
        CheckEmail(email, LoginEmailRequired, LoginEmailMalformed).valid && CheckPassword(password).valid
      ensures submitted ==> !isLoading
      ensures submitted ==>
        SignedInAsAnswered(auth, old(auth.isAuthenticated), old(alert), old(auth.store.items), old(auth.user), old(auth.isLoading))
      ensures !submitted ==>
        && isLoading == old(isLoading) && alert == old(alert)
        && auth.store.items == old(auth.store.items)
        && auth.isAuthenticated == old(auth.isAuthenticated) && auth.user == old(auth.user)
        && auth.isLoading == old(auth.isLoading)
    {
      var emailOk := ValidateEmail();
      var passwordOk := ValidatePassword();
      submitted := emailOk && passwordOk;
      if submitted {
        SignIn(auth);
      }
    }

    /**
     * The outcome of a sign-in attempt with the in-memory back-end: only
     * the demonstration account signs in, storing its token and, as the
     * provider is written, the user the provider held before the call, and
     * any other attempt raises the alert with the back-end's credentials
     * message and leaves the session and storage as they were. The
     * provider's own loading flag is not touched either way.
     */
    ghost predicate SignedInAsAnswered(auth: AppAuth.AuthProvider, wasAuthenticated: bool, alertBefore: Option<string>,
                                       itemsBefore: map<string, DeviceStorage.Stored>, userBefore: Option<User>,
                                       loadingBefore: bool)
      reads this, auth, auth.store
    {
      var accepted := email == MockApi.DemoEmail && password == MockApi.DemoPassword;
      && (auth.isAuthenticated <==> wasAuthenticated || accepted)
      && (accepted ==> auth.user == Some(SeedUser))
      && (accepted ==> auth.store.items == itemsBefore[DeviceStorage.TokenKey := DeviceStorage.Plain(MockApi.DemoToken)]
                                                      [DeviceStorage.UserDataKey := DeviceStorage.UserRecord(userBefore)])
      && (!accepted ==> auth.store.items == itemsBefore && auth.user == userBefore)
      && auth.isLoading == loadingBefore
      && alert == if accepted then alertBefore else Some(MockApi.BadCredentials)
    }

    /** The attempt itself: loading while the provider answers, and ended whatever the answer. */
    method SignIn(auth: AppAuth.AuthProvider)
      requires auth.api.Valid()
      modifies this, auth, auth.store
      ensures email == old(email) && password == old(password)
      ensures emailError == old(emailError) && passwordError == old(passwordError)
      ensures !isLoading
      ensures SignedInAsAnswered(auth, old(auth.isAuthenticated), old(alert), old(auth.store.items), old(auth.user), old(auth.isLoading))
    {
      isLoading := true;
      var response := auth.Login(email, password);
      alert := LoginAlert(response, alert);
      isLoading := false;
    }
  }
}
