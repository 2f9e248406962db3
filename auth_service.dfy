/**
 * The admin authentication service. Registration and login go through the
 * unauthenticated helper `publicFetch`, the profile and password calls
 * through the authenticated helper `apiFetch`; both helpers are outside the
 * model and appear only as the FetchResult they resolve or reject with.
 * Login is the one call that writes the token store.
 */
module AuthService {
  import opened Common
  import opened Http
  import opened Session

  const AllFieldsRequiredMessage := "All fields are required"
  const CredentialsRequiredMessage := "Email and password are required"
  const InvalidFormatMessage := "Invalid response format from server"

  /** `data.success && data.data`: the check the profile calls make. */
  predicate HasData(env: Envelope)
  {
    env.success && env.data.Some?
  }

  /** `data.success && data.data && data.data.token`: the check login makes. */
  predicate CarriesToken(env: Envelope)
  {
    env.success && env.data.Some? && env.data.value.token != ""
  }

  function RegisterRequest(firstName: string, lastName: string, email: string, password: string): Request
  {
    Request("POST", "/api/auth/register-admin", PublicFetch,
      Json([("firstName", firstName), ("lastName", lastName), ("email", email), ("password", password)]))
  }

  function LoginRequest(email: string, password: string): Request
  {
    Request("POST", "/api/auth/login-admin", PublicFetch, Json([("email", email), ("password", password)]))
  }

  /** `registerAdmin(adminData)`: checks the four fields, then returns whatever `publicFetch` gives. */
  method RegisterAdmin(firstName: string, lastName: string, email: string, password: string, reply: FetchResult)
    returns (r: Result<Envelope, JsError>, sent: Option<Request>)
    ensures firstName == "" || lastName == "" || email == "" || password == "" ==>
      r == Err(Thrown(AllFieldsRequiredMessage)) && sent == None
    ensures firstName != "" && lastName != "" && email != "" && password != "" ==>
      sent == Some(RegisterRequest(firstName, lastName, email, password))
    ensures r.Ok? <==> sent.Some? && reply.Resolved?
    ensures r.Ok? ==> r.value == reply.envelope
    ensures sent.Some? && reply.Rejected? ==> r == Err(reply.error)
  {
    if firstName == "" || lastName == "" || email == "" || password == "" {
      return Err(Thrown(AllFieldsRequiredMessage)), None;
    }
    sent := Some(RegisterRequest(firstName, lastName, email, password));
    match reply {
      case Resolved(data) => r := Ok(data);
      case Rejected(e) => r := Err(e);
    }
  }

  /**
   * `loginAdmin(credentials)`: checks both fields, posts them, and only when
   * the answer carries a token stores it and returns the envelope.
   */
  method LoginAdmin(store: TokenStore, email: string, password: string, reply: FetchResult)
    returns (r: Result<Envelope, JsError>, sent: Option<Request>)
    modifies store
    ensures email == "" || password == "" ==>
      r == Err(Thrown(CredentialsRequiredMessage)) && sent == None
    ensures email != "" && password != "" ==> sent == Some(LoginRequest(email, password))
    ensures r.Ok? <==> sent.Some? && reply.Resolved? && CarriesToken(reply.envelope)
    ensures r.Ok? ==> r.value == reply.envelope && store.token == Some(reply.envelope.data.value.token)
    ensures !r.Ok? ==> store.token == old(store.token)
    ensures sent.Some? && reply.Rejected? ==> r == Err(reply.error)
    ensures sent.Some? && reply.Resolved? && !CarriesToken(reply.envelope) ==>
      r == Err(Thrown(InvalidFormatMessage))
  {
    if email == "" || password == "" {
      return Err(Thrown(CredentialsRequiredMessage)), None;
    }
    sent := Some(LoginRequest(email, password));
    match reply {
      case Rejected(e) =>
        r := Err(e);
      case Resolved(data) =>
        if !data.success || data.data.None? || data.data.value.token == "" {
          r := Err(Thrown(InvalidFormatMessage));
        } else {
          store.SetToken(data.data.value.token);
          r := Ok(data);
        }
    }
  }

  /** `getAdminByToken()`: the profile envelope, rejected without `success` or `data`. */
  method GetAdminByToken(reply: FetchResult) returns (r: Result<Envelope, JsError>, sent: Request)
    ensures sent == Request("GET", "/api/admin/get", ApiFetch, NoBody)
    ensures r.Ok? <==> reply.Resolved? && HasData(reply.envelope)
    ensures r.Ok? ==> r.value == reply.envelope
    ensures reply.Rejected? ==> r == Err(reply.error)
    ensures reply.Resolved? && !HasData(reply.envelope) ==> r == Err(Thrown(InvalidFormatMessage))
  {
    sent := Request("GET", "/api/admin/get", ApiFetch, NoBody);
    match reply {
      case Rejected(e) =>
        r := Err(e);
      case Resolved(data) =>
        if !data.success || data.data.None? {
          r := Err(Thrown(InvalidFormatMessage));
        } else {
          r := Ok(data);
        }
    }
  }

  /** `updateAdminByToken(updateData)`: sends the fields unfiltered; same envelope check as the profile fetch. */
  method UpdateAdminByToken(update: Fields, reply: FetchResult) returns (r: Result<Envelope, JsError>, sent: Request)
    ensures sent == Request("PUT", "/api/admin/update", ApiFetch, Json(update))
    ensures r.Ok? <==> reply.Resolved? && HasData(reply.envelope)
    ensures r.Ok? ==> r.value == reply.envelope
    ensures reply.Rejected? ==> r == Err(reply.error)
    ensures reply.Resolved? && !HasData(reply.envelope) ==> r == Err(Thrown(InvalidFormatMessage))
  {
    sent := Request("PUT", "/api/admin/update", ApiFetch, Json(update));
    match reply {
      case Rejected(e) =>
        r := Err(e);
      case Resolved(data) =>
        if !data.success || data.data.None? {
          r := Err(Thrown(InvalidFormatMessage));
        } else {
          r := Ok(data);
        }
    }
  }

  /** `changePassword(passwordData)`: only the `success` flag is checked. */
  method ChangePassword(passwordData: Fields, reply: FetchResult) returns (r: Result<Envelope, JsError>, sent: Request)
    ensures sent == Request("POST", "/api/admin/change-password", ApiFetch, Json(passwordData))
    ensures r.Ok? <==> reply.Resolved? && reply.envelope.success
    ensures r.Ok? ==> r.value == reply.envelope
    ensures reply.Rejected? ==> r == Err(reply.error)
    ensures reply.Resolved? && !reply.envelope.success ==> r == Err(Thrown(InvalidFormatMessage))
  {
    sent := Request("POST", "/api/admin/change-password", ApiFetch, Json(passwordData));
    match reply {
      case Rejected(e) =>
        r := Err(e);
      case Resolved(data) =>
        if !data.success {
          r := Err(Thrown(InvalidFormatMessage));
        } else {
          r := Ok(data);
        }
    }
  }

  /** `logout()`: returns the envelope without any check and does not touch the token store. */
  method Logout(reply: FetchResult) returns (r: Result<Envelope, JsError>, sent: Request)
    ensures sent == Request("GET", "/api/admin/logout", ApiFetch, NoBody)
    ensures r.Ok? <==> reply.Resolved?
    ensures r.Ok? ==> r.value == reply.envelope
    ensures reply.Rejected? ==> r == Err(reply.error)
  {
    sent := Request("GET", "/api/admin/logout", ApiFetch, NoBody);
    match reply {
      case Rejected(e) => r := Err(e);
      case Resolved(data) => r := Ok(data);
    }
  }
}
