/**
 * The login view: a username and password form with `required` and
 * `minLength` validators, field error messages, and submission to either
 * login or register depending on the mode.
 */
module LoginPage {
  import opened Wrappers
  import opened Http
  import opened Strings
  import opened Auth

  /**
   * The errors object of a control: the `required` key, and the
   * `minlength.requiredLength` value when that key is present. An errors
   * object with neither key stands for an error from some other validator.
   */
  datatype ValidationErrors = ValidationErrors(required: bool, minLength: Option<nat>)

  /** What `getErrorMessage` reads from a control: `errors` (null when valid) and `touched`. */
  datatype ControlState = ControlState(errors: Option<ValidationErrors>, touched: bool)

  /**
   * The message shown under a field: empty exactly when the control is
   * missing, valid or untouched; otherwise a `required` error wins over a
   * `minlength` error, which names the required length, and any other
   * error reads "Invalid input".
   */
  function ErrorMessageFor(fieldName: string, control: Option<ControlState>): (msg: string)
    ensures msg != "" <==> control.Some? && control.value.touched && control.value.errors.Some?
    ensures control.Some? && control.value.touched && control.value.errors.Some? &&
            control.value.errors.value.required ==>
              msg == Capitalize(fieldName) + " is required"
    ensures control.Some? && control.value.touched && control.value.errors.Some? &&
            !control.value.errors.value.required && control.value.errors.value.minLength.Some? ==>
              msg == Capitalize(fieldName) + " must be at least " +
                     NatToString(control.value.errors.value.minLength.value) + " characters"
    ensures control.Some? && control.value.touched && control.value.errors.Some? &&
            !control.value.errors.value.required && control.value.errors.value.minLength.None? ==>
              msg == "Invalid input"
  {
    if control.None? || control.value.errors.None? || !control.value.touched then ""
    else
      var e := control.value.errors.value;
      if e.required then Capitalize(fieldName) + " is required"
      else if e.minLength.Some? then
        Capitalize(fieldName) + " must be at least " + NatToString(e.minLength.value) + " characters"
      else "Invalid input"
  }

  /** A form field: its value (a reset field holds nothing, which the validators treat as empty) and whether it was touched. */
  datatype Field = Field(value: string, touched: bool)

  datatype LoginForm = LoginForm(username: Field, password: Field)

  const UsernameMinLength: nat := 3
  const PasswordMinLength: nat := 6
  const InvalidFormMessage := "Please fill in all fields correctly"

  /** The form after `form.reset()`. */
  const EmptyForm := LoginForm(Field("", false), Field("", false))

  /**
   * `Validators.required` then `Validators.minLength(n)`: an empty value is
   * only "required"; the length check applies to non-empty values.
   */
  function FieldErrors(value: string, minLength: nat): (e: Option<ValidationErrors>)
    ensures e.None? <==> value != "" && Utf16Length(value) >= minLength
    ensures e.Some? ==> (e.value.required <==> value == "")
    ensures e.Some? && !e.value.required ==> e.value.minLength == Some(minLength)
  {
    if value == "" then Some(ValidationErrors(true, None))
    else if Utf16Length(value) < minLength then Some(ValidationErrors(false, Some(minLength)))
    else None
  }

  /** `form.get(fieldName)`: the two controls, and none for any other name. */
  function Control(form: LoginForm, fieldName: string): (c: Option<ControlState>)
    ensures c.Some? <==> fieldName in {"username", "password"}
    ensures fieldName == "username" ==>
              c.Some? && c.value.touched == form.username.touched &&
              (c.value.errors.None? <==> Utf16Length(form.username.value) >= UsernameMinLength)
    ensures fieldName == "password" ==>
              c.Some? && c.value.touched == form.password.touched &&
              (c.value.errors.None? <==> Utf16Length(form.password.value) >= PasswordMinLength)
  {
    if fieldName == "username" then
      Some(ControlState(FieldErrors(form.username.value, UsernameMinLength), form.username.touched))
    else if fieldName == "password" then
      Some(ControlState(FieldErrors(form.password.value, PasswordMinLength), form.password.touched))
    else None
  }

  /** `form.invalid` is false exactly when neither of the two controls has errors. */
  predicate FormValid(form: LoginForm)
    ensures FormValid(form) <==>
              Control(form, "username").value.errors.None? && Control(form, "password").value.errors.None?
  {
    FieldErrors(form.username.value, UsernameMinLength).None? &&
    FieldErrors(form.password.value, PasswordMinLength).None?
  }

  /** Valid means a username of at least 3 and a password of at least 6 UTF-16 code units. */
  lemma FormValidIff(form: LoginForm)
    ensures FormValid(form) <==> Utf16Length(form.username.value) >= 3 && Utf16Length(form.password.value) >= 6
  {
  }

  /** Two emoji are four UTF-16 code units, so they pass `Validators.minLength(3)`. */
  lemma AstralUsernameAccepted()
    ensures FieldErrors("\U{1F600}\U{1F600}", UsernameMinLength) == None
  {
    assert Utf16Length("\U{1F600}") == 2;
  }

  /** `getErrorMessage(fieldName)` on the login form. */
  function GetErrorMessage(form: LoginForm, fieldName: string): (msg: string)
    ensures fieldName !in {"username", "password"} ==> msg == ""
    ensures fieldName == "username" && (!form.username.touched || Utf16Length(form.username.value) >= UsernameMinLength) ==> msg == ""
    ensures fieldName == "password" && (!form.password.touched || Utf16Length(form.password.value) >= PasswordMinLength) ==> msg == ""
  {
    ErrorMessageFor(fieldName, Control(form, fieldName))
  }

  /** A touched, empty username reads "Username is required". */
  lemma UsernameRequiredMessage(form: LoginForm)
    requires form.username.touched && form.username.value == ""
    ensures GetErrorMessage(form, "username") == "Username is required"
  {
    assert Capitalize("username") == "Username";
  }

  /** The capitalised field names and the two required lengths as text. */
  lemma MessageWords()
    ensures Capitalize("username") == "Username" && Capitalize("password") == "Password"
    ensures NatToString(3) == "3" && NatToString(6) == "6"
  {
  }

  /** The username's minimum-length message, spelled out. */
  lemma UsernameLengthText()
    ensures "Username" + " must be at least " + "3" + " characters" == "Username must be at least 3 characters"
  {
  }

  /** The password's minimum-length message, spelled out. */
  lemma PasswordLengthText()
    ensures "Password" + " must be at least " + "6" + " characters" == "Password must be at least 6 characters"
  {
  }

  /** A touched username shorter than three characters names the required length. */
  lemma UsernameTooShortMessage(form: LoginForm)
    requires form.username.touched && form.username.value != "" && Utf16Length(form.username.value) < UsernameMinLength
    ensures GetErrorMessage(form, "username") == "Username must be at least 3 characters"
  {
    assert FieldErrors(form.username.value, UsernameMinLength) == Some(ValidationErrors(false, Some(3)));
    assert Control(form, "username") == Some(ControlState(Some(ValidationErrors(false, Some(3))), true));
    MessageWords();
    UsernameLengthText();
  }

  /** A touched password shorter than six characters names the required length. */
  lemma PasswordTooShortMessage(form: LoginForm)
    requires form.password.touched && form.password.value != "" && Utf16Length(form.password.value) < PasswordMinLength
    ensures GetErrorMessage(form, "password") == "Password must be at least 6 characters"
  {
    assert "password"[0] != "username"[0];
    assert FieldErrors(form.password.value, PasswordMinLength) == Some(ValidationErrors(false, Some(6)));
    assert Control(form, "password") == Some(ControlState(Some(ValidationErrors(false, Some(6))), true));
    MessageWords();
    PasswordLengthText();
  }

  /** Which auth call a submission made. */
  datatype AuthCall = NoCall | LoginCall | RegisterCall

  class LoginComponent {
    const authService: AuthService
    var form: LoginForm
    var errorMessage: Option<string>
    var showPassword: bool
    var showRegister: bool

    constructor (authService: AuthService)
      ensures this.authService == authService
      ensures form == EmptyForm && errorMessage == None && !showPassword && !showRegister
    {
      this.authService := authService;
      form := EmptyForm;
      errorMessage := None;
      showPassword := false;
      showRegister := false;
    }

    /**
     * Submits the form. An invalid form only sets the error message;
     * a valid one goes to register in register mode and to login
     * otherwise. Success resets the form; failure copies the service's
     * error into the message.
     */
    method OnLogin(response: Outcome<TokenResponse>) returns (call: AuthCall)
      requires authService.Valid()
      modifies this`form, this`errorMessage, authService
      ensures authService.Valid()
      ensures !FormValid(old(form)) ==>
                call == NoCall && errorMessage == Some(InvalidFormMessage) &&
                form == old(form) && unchanged(authService)
      ensures FormValid(old(form)) ==>
                call == (if showRegister then RegisterCall else LoginCall) &&
                !authService.loading
      ensures FormValid(old(form)) && response.Success? ==>
                form == EmptyForm && errorMessage == old(errorMessage) &&
                authService.AuthenticatedBy(response.data.access_token) && authService.error == None
      ensures FormValid(old(form)) && response.Failure? ==>
                form == old(form) && authService.SessionUnchanged() &&
                authService.error == Some(DetailOr(response.detail, if showRegister then RegisterFailed else LoginFailed)) &&
                errorMessage == authService.error
    {
      if !FormValid(form) {
        errorMessage := Some(InvalidFormMessage);
        call := NoCall;
        return;
      }
      var result;
      if showRegister {
        call := RegisterCall;
        result := authService.Register(form.username.value, form.password.value, response);
      } else {
        call := LoginCall;
        result := authService.Login(form.username.value, form.password.value, response);
      }
      if result.Success? {
        form := EmptyForm;
      } else {
        errorMessage := authService.error;
      }
    }

    method TogglePasswordVisibility()
      modifies this`showPassword
      ensures showPassword == !old(showPassword)
    {
      showPassword := !showPassword;
    }

    /** Switches between login and register, clearing the form and the message. */
    method ToggleRegisterMode()
      modifies this`showRegister, this`form, this`errorMessage
      ensures showRegister == !old(showRegister)
      ensures form == EmptyForm && errorMessage == None
    {
      showRegister := !showRegister;
      form := EmptyForm;
      errorMessage := None;
    }
  }
}
