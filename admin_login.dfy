/**
 * The admin login page: per-field validation into an error map, the change
 * handler, and the submit handler that calls the auth service and decides
 * whether to go on to the dashboard.
 */
module AdminLogin {
  import opened Common
  import opened Text
  import opened Http
  import opened Session
  import opened AuthService

  datatype LoginField = EmailField | PasswordField

  const EmailRequiredMessage := "Email is required"
  const InvalidEmailMessage := "Please enter a valid email address"
  const PasswordRequiredMessage := "Password is required"
  const PasswordTooShortMessage := "Password must be at least 6 characters"
  const LoginFailedMessage := "Login failed. Please check your credentials."
  const LoginErrorFallback := "An error occurred during login. Please try again."

  /** The e-mail check: blank after trimming, then the pattern on the untrimmed value. */
  function EmailError(email: string): (r: Option<string>)
    ensures r == Some(EmailRequiredMessage) <==> AllSpace(email)
    ensures r == Some(InvalidEmailMessage) <==> !AllSpace(email) && !EmailLike(email)
    ensures r.None? <==> EmailLike(email)
  {
    if EmailLike(email) then EmailLikeNotBlank(email); None
    else if Trim(email) == "" then Some(EmailRequiredMessage)
    else Some(InvalidEmailMessage)
  }

  /** The password check: empty, then shorter than six characters. */
  function PasswordError(password: string): (r: Option<string>)
    ensures r == Some(PasswordRequiredMessage) <==> password == ""
    ensures r == Some(PasswordTooShortMessage) <==> 0 < |password| < 6
    ensures r.None? <==> |password| >= 6
  {
    if password == "" then Some(PasswordRequiredMessage)
    else if |password| < 6 then Some(PasswordTooShortMessage)
    else None
  }

  /** The error map `validateForm` builds: one entry per failing field, each field checked on its own. */
  function LoginErrors(email: string, password: string): (errors: map<LoginField, string>)
    ensures EmailField in errors <==> EmailError(email).Some?
    ensures EmailField in errors ==> errors[EmailField] == EmailError(email).value
    ensures PasswordField in errors <==> PasswordError(password).Some?
    ensures PasswordField in errors ==> errors[PasswordField] == PasswordError(password).value
  {
    var emailError, passwordError := EmailError(email), PasswordError(password);
    var withEmail := if emailError.Some? then map[EmailField := emailError.value] else map[];
    if passwordError.Some? then withEmail[PasswordField := passwordError.value] else withEmail
  }

  /** The form is valid exactly when the e-mail matches the pattern and the password has at least six characters. */
  lemma LoginFormValid(email: string, password: string)
    ensures LoginErrors(email, password) == map[] <==> EmailLike(email) && |password| >= 6
  {
    var errors := LoginErrors(email, password);
    if errors == map[] {
      assert EmailField !in errors && PasswordField !in errors;
    } else {
      var f :| f in errors;
      assert f == EmailField || f == PasswordField;
    }
  }

  /** The state cells of the login page. */
  class LoginForm {
    var email: string
    var password: string
    var validationErrors: map<LoginField, string>
    var error: string
    var isLoading: bool

    constructor ()
      ensures email == "" && password == "" && validationErrors == map[] && error == "" && !isLoading
    {
      email, password, validationErrors, error, isLoading := "", "", map[], "", false;
    }

    /** `validateForm()`: stores the error map and says whether it is empty. */
    method ValidateForm() returns (valid: bool)
      modifies this`validationErrors
      ensures validationErrors == LoginErrors(email, password)
      ensures valid <==> EmailLike(email) && |password| >= 6
      ensures valid <==> validationErrors == map[]
    {
      var errors: map<LoginField, string> := map[];
      if Trim(email) == "" {
        errors := errors[EmailField := EmailRequiredMessage];
        assert EmailError(email) == Some(EmailRequiredMessage);
      } else if !EmailLike(email) {
        errors := errors[EmailField := InvalidEmailMessage];
        assert EmailError(email) == Some(InvalidEmailMessage);
      } else {
        assert EmailError(email) == None;
      }
      ghost var withEmail := errors;
      assert withEmail == if EmailError(email).Some? then map[EmailField := EmailError(email).value] else map[];
      if password == "" {
        errors := errors[PasswordField := PasswordRequiredMessage];
      } else if |password| < 6 {
        errors := errors[PasswordField := PasswordTooShortMessage];
      }
      assert errors == if PasswordError(password).Some? then withEmail[PasswordField := PasswordError(password).value] else withEmail;
      validationErrors := errors;
      LoginFormValid(email, password);
      valid := |errors| == 0;
    }

    /**
     * `handleChange(e)`: stores the new value of the named field, clears the
     * banner error, and blanks that field's validation error if it had one.
     */
    method HandleChange(field: LoginField, value: string)
      modifies this
      ensures field == EmailField ==> email == value && password == old(password)
      ensures field == PasswordField ==> password == value && email == old(email)
      ensures error == "" && isLoading == old(isLoading)
      ensures validationErrors.Keys == old(validationErrors).Keys
      ensures field in validationErrors ==> validationErrors[field] == ""
      ensures forall f | f in validationErrors && f != field :: validationErrors[f] == old(validationErrors)[f]
    {
      if field == EmailField {
        email := value;
      } else {
        password := value;
      }
      error := "";
      if field in validationErrors && validationErrors[field] != "" {
        validationErrors := validationErrors[field := ""];
      }
    }

    /**
     * `handleSubmit(e)`: clears the banner, validates, and only for a valid
     * form calls `loginAdmin`; `navigate` says whether the move to the
     * dashboard is scheduled.
     */
    method HandleSubmit(store: TokenStore, reply: FetchResult) returns (sent: Option<Request>, navigate: bool)
      modifies this, store
      ensures email == old(email) && password == old(password)
      ensures validationErrors == LoginErrors(email, password)
      ensures validationErrors != map[] ==>
        sent == None && !navigate && error == "" && isLoading == old(isLoading) && store.token == old(store.token)
      ensures validationErrors == map[] ==> sent == Some(LoginRequest(email, password)) && !isLoading
      ensures navigate <==> sent.Some? && reply.Resolved? && CarriesToken(reply.envelope)
      ensures navigate ==> error == "" && store.token == Some(reply.envelope.data.value.token)
      ensures !navigate ==> store.token == old(store.token)
      ensures sent.Some? && reply.Rejected? ==> error == SubmitErrorMessage(reply.error, LoginErrorFallback)
      ensures sent.Some? && reply.Resolved? && !CarriesToken(reply.envelope) ==>
        error == SubmitErrorMessage(Thrown(InvalidFormatMessage), LoginErrorFallback)
    {
      error := "";
      var valid := ValidateForm();
      if !valid {
        return None, false;
      }
      isLoading := true;
      var r;
      r, sent := LoginAdmin(store, email, password, reply);
      match r {
        case Ok(response) =>
          // loginAdmin only returns an envelope that carries a token, so the
          // "Login failed" message is never shown.
          navigate := response.success && response.data.Some? && response.data.value.token != "";
          error := if navigate then error else MessageOr(response, LoginFailedMessage);
        case Err(e) =>
          navigate := false;
          error := SubmitErrorMessage(e, LoginErrorFallback);
      }
      isLoading := false;
    }
  }
}
