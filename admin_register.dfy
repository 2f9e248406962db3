/**
 * The admin registration page: the pre-flight checks of `handleSubmit`,
 * the call to `registerAdmin`, and how its answer is shown.
 */
module AdminRegister {
  import opened Common
  import opened Text
  import opened Http
  import opened AuthService

  const FieldsRequiredMessage := "All fields are required"
  const InvalidEmailMessage := "Please enter a valid email address"
  const PasswordTooShortMessage := "Password must be at least 6 characters"
  const RegisteredMessage := "Registration successful! Redirecting to login..."
  const RegistrationFailedMessage := "Registration failed. Please try again."
  const RegistrationErrorFallback := "An error occurred during registration. Please try again."

  /** The pre-flight checks in their order — required, e-mail pattern, length — the first failure deciding. */
  function RegisterFormError(firstName: string, lastName: string, email: string, password: string): (r: Option<string>)
    ensures r == Some(FieldsRequiredMessage) <==> firstName == "" || lastName == "" || email == "" || password == ""
    ensures r == Some(InvalidEmailMessage) <==>
      firstName != "" && lastName != "" && email != "" && password != "" && !EmailLike(email)
    ensures r == Some(PasswordTooShortMessage) <==>
      firstName != "" && lastName != "" && EmailLike(email) && 0 < |password| < 6
    ensures r.None? <==> firstName != "" && lastName != "" && EmailLike(email) && |password| >= 6
  {
    if firstName == "" || lastName == "" || email == "" || password == "" then Some(FieldsRequiredMessage)
    else if !EmailLike(email) then Some(InvalidEmailMessage)
    else if |password| < 6 then Some(PasswordTooShortMessage)
    else None
  }

  datatype RegisterField = FirstNameField | LastNameField | EmailField | PasswordField

  /** The state cells of the registration page. */
  class RegisterForm {
    var firstName: string
    var lastName: string
    var email: string
    var password: string
    var error: string
    var success: string
    var isLoading: bool

    constructor ()
      ensures firstName == "" && lastName == "" && email == "" && password == ""
      ensures error == "" && success == "" && !isLoading
    {
      firstName, lastName, email, password := "", "", "", "";
      error, success, isLoading := "", "", false;
    }

    /** The four form fields are all blank. */
    predicate Cleared()
      reads this
    {
      firstName == "" && lastName == "" && email == "" && password == ""
    }

    /** `handleChange(e)`: stores the new value of the named field and clears the banner error. */
    method HandleChange(field: RegisterField, value: string)
      modifies this
      ensures firstName == (if field == FirstNameField then value else old(firstName))
      ensures lastName == (if field == LastNameField then value else old(lastName))
      ensures email == (if field == EmailField then value else old(email))
      ensures password == (if field == PasswordField then value else old(password))
      ensures error == "" && success == old(success) && isLoading == old(isLoading)
    {
      match field {
        case FirstNameField => firstName := value;
        case LastNameField => lastName := value;
        case EmailField => email := value;
        case PasswordField => password := value;
      }
      error := "";
    }

    /**
     * `handleSubmit(e)`: clears both messages, runs the checks, calls
     * `registerAdmin` only when all pass, and on success reports it and
     * blanks the form; `redirect` says whether the move to the login page is
     * scheduled. The loading flag is off again afterwards in every case.
     */
    method HandleSubmit(reply: FetchResult) returns (sent: Option<Request>, redirect: bool)
      modifies this
      ensures !isLoading
      ensures RegisterFormError(old(firstName), old(lastName), old(email), old(password)).Some? ==>
        && error == RegisterFormError(old(firstName), old(lastName), old(email), old(password)).value
        && success == "" && sent == None && !redirect
        && firstName == old(firstName) && lastName == old(lastName) && email == old(email) && password == old(password)
      ensures RegisterFormError(old(firstName), old(lastName), old(email), old(password)).None? ==>
        sent == Some(RegisterRequest(old(firstName), old(lastName), old(email), old(password)))
      ensures redirect <==> sent.Some? && reply.Resolved? && reply.envelope.success
      ensures redirect ==> success == RegisteredMessage && error == "" && Cleared()
      ensures !redirect ==>
        && success == ""
        && firstName == old(firstName) && lastName == old(lastName) && email == old(email) && password == old(password)
      ensures sent.Some? && reply.Resolved? && !reply.envelope.success ==>
        error == MessageOr(reply.envelope, RegistrationFailedMessage)
      ensures sent.Some? && reply.Rejected? ==> error == SubmitErrorMessage(reply.error, RegistrationErrorFallback)
    {
      error := "";
      success := "";
      isLoading := true;

      if firstName == "" || lastName == "" || email == "" || password == "" {
        error := FieldsRequiredMessage;
        isLoading := false;
        return None, false;
      }
      if !EmailLike(email) {
        error := InvalidEmailMessage;
        isLoading := false;
        return None, false;
      }
      if |password| < 6 {
        error := PasswordTooShortMessage;
        isLoading := false;
        return None, false;
      }

      var r;
      r, sent := RegisterAdmin(firstName, lastName, email, password, reply);
      redirect := false;
      match r {
        case Ok(response) =>
          if response.success {
            success := RegisteredMessage;
            firstName, lastName, email, password := "", "", "", "";
            redirect := true;
          } else {
            error := MessageOr(response, RegistrationFailedMessage);
          }
        case Err(e) =>
          error := SubmitErrorMessage(e, RegistrationErrorFallback);
      }
      isLoading := false;
    }
  }
}
