/**
 * The five gym-owner endpoint wrappers. Each reads the token store, fails
 * before any request when it is empty, calls `fetch`, parses the body,
 * maps a failing status to a message (clearing the token on 401), checks
 * the envelope of a 2xx answer, and turns a transport failure into a
 * network message. The decision table is stated once, as Interpret; each
 * wrapper is proved to follow it, and the lemmas state its properties.
 */
module GymOwnerService {
  import opened Common
  import opened Http
  import opened Session

  const NoTokenMessage := "No authentication token found"
  const SessionExpiredMessage := "Session expired. Please login again."
  const AccessDeniedMessage := "Access denied. Admin privileges required."
  const InvalidFormatMessage := "Invalid response format from server."
  const NetworkMessage := "Network error. Please check your connection."
  const OwnerNotFoundMessage := "Gym owner not found."
  const NoOwnersMessage := "No gym owners found."
  const EmailExistsMessage := "Email already exists."

  /** The five wrappers, with their arguments. */
  datatype Endpoint =
    | ListOwners
    | GetOwner(id: string)
    | RegisterOwner(form: Fields)
    | UpdateOwner(id: string, form: Fields)
    | DeleteOwner(id: string)

  /** The request each wrapper hands to `fetch`, carrying the bearer token. */
  function RequestFor(ep: Endpoint, token: string): Request
  {
    match ep
    case ListOwners => Request("GET", "/gym-owner/all", Direct(token, true), NoBody)
    case GetOwner(id) => Request("GET", "/gym-owner/" + id, Direct(token, true), NoBody)
    case RegisterOwner(form) => Request("POST", "/gym-owner/register", Direct(token, false), Multipart(form))
    case UpdateOwner(id, form) => Request("PUT", "/gym-owner/update/" + id, Direct(token, false), Multipart(form))
    case DeleteOwner(id) => Request("DELETE", "/gym-owner/delete/" + id, Direct(token, true), NoBody)
  }

  /** The message used for a failing status the wrapper has no special case for. */
  function Fallback(ep: Endpoint): string
  {
    match ep
    case ListOwners => "Failed to fetch gym owners"
    case GetOwner(_) => "Failed to fetch gym owner data"
    case RegisterOwner(_) => "Failed to register gym owner"
    case UpdateOwner(_, _) => "Failed to update gym owner"
    case DeleteOwner(_) => "Failed to delete gym owner"
  }

  /** The message thrown for a non-2xx status other than 401, per wrapper. */
  function StatusMessage(ep: Endpoint, status: int, env: Envelope): string
  {
    if status == 403 then AccessDeniedMessage
    else match ep
      case ListOwners =>
        if status == 404 then NoOwnersMessage else MessageOr(env, Fallback(ep))
      case GetOwner(_) =>
        if status == 404 then OwnerNotFoundMessage else MessageOr(env, Fallback(ep))
      case RegisterOwner(_) =>
        if status == 400 then MessageOr(env, "Invalid gym owner data")
        else if status == 409 then EmailExistsMessage
        else MessageOr(env, Fallback(ep))
      case UpdateOwner(_, _) =>
        if status == 400 then MessageOr(env, "Invalid update data")
        else if status == 404 then OwnerNotFoundMessage
        else MessageOr(env, Fallback(ep))
      case DeleteOwner(_) =>
        if status == 404 then OwnerNotFoundMessage else MessageOr(env, Fallback(ep))
  }

  /** Every wrapper but delete also insists on a `data` member. */
  predicate RequiresData(ep: Endpoint)
  {
    !ep.DeleteOwner?
  }

  /** The shared `catch` block: a failed fetch becomes the network message, anything else is rethrown. */
  function Catch(e: JsError): JsError
  {
    if e.name == "TypeError" && e.message == "Failed to fetch" then Thrown(NetworkMessage) else e
  }

  /** What one call does: what it returns or throws, the request it issued, and the token store afterwards. */
  datatype Outcome = Outcome(result: Result<Envelope, JsError>, sent: Option<Request>, token: Option<string>)

  /** The decision table every wrapper follows. */
  function Interpret(ep: Endpoint, token: Option<string>, reply: Reply): Outcome
  {
    if !HasToken(token) then Outcome(Err(Catch(Thrown(NoTokenMessage))), None, token)
    else
      var sent := Some(RequestFor(ep, token.value));
      match reply
      case TransportFailure(e) => Outcome(Err(Catch(e)), sent, token)
      case Responded(_, Err(e)) => Outcome(Err(Catch(e)), sent, token)
      case Responded(status, Ok(env)) =>
        if status == 401 then Outcome(Err(Catch(Thrown(SessionExpiredMessage))), sent, None)
        else if !IsOk(status) then Outcome(Err(Catch(Thrown(StatusMessage(ep, status, env)))), sent, token)
        else if !env.success || (RequiresData(ep) && env.data.None?) then
          Outcome(Err(Catch(Thrown(InvalidFormatMessage))), sent, token)
        else Outcome(Ok(env), sent, token)
  }

  // ---------------------------------------------------------------------------
  // The wrappers
  // ---------------------------------------------------------------------------

  /** `getAllGymOwners()`. */
  method GetAllGymOwners(store: TokenStore, reply: Reply)
    returns (r: Result<Envelope, JsError>, sent: Option<Request>)
    modifies store
    ensures Outcome(r, sent, store.token) == Interpret(ListOwners, old(store.token), reply)
  {
    sent := None;
    var attempt: Result<Envelope, JsError>;
    var token := store.GetToken();
    if !HasToken(token) {
      attempt := Err(Thrown(NoTokenMessage));
    } else {
      sent := Some(Request("GET", "/gym-owner/all", Direct(token.value, true), NoBody));
      match reply {
        case TransportFailure(e) =>
          attempt := Err(e);
        case Responded(status, body) =>
          match body {
            case Err(e) =>
              attempt := Err(e);
            case Ok(data) =>
              if !IsOk(status) {
                if status == 401 {
                  store.RemoveToken();
                  attempt := Err(Thrown(SessionExpiredMessage));
                } else if status == 403 {
                  attempt := Err(Thrown(AccessDeniedMessage));
                } else if status == 404 {
                  attempt := Err(Thrown(NoOwnersMessage));
                } else {
                  attempt := Err(Thrown(MessageOr(data, "Failed to fetch gym owners")));
                }
              } else if !data.success || data.data.None? {
                attempt := Err(Thrown(InvalidFormatMessage));
              } else {
                attempt := Ok(data);
              }
          }
      }
    }
    r := if attempt.Err? then Err(Catch(attempt.error)) else attempt;
  }

  /** `getGymOwnerById(id)`. */
  method GetGymOwnerById(store: TokenStore, id: string, reply: Reply)
    returns (r: Result<Envelope, JsError>, sent: Option<Request>)
    modifies store
    ensures Outcome(r, sent, store.token) == Interpret(GetOwner(id), old(store.token), reply)
  {
    sent := None;
    var attempt: Result<Envelope, JsError>;
    var token := store.GetToken();
    if !HasToken(token) {
      attempt := Err(Thrown(NoTokenMessage));
    } else {
      sent := Some(Request("GET", "/gym-owner/" + id, Direct(token.value, true), NoBody));
      match reply {
        case TransportFailure(e) =>
          attempt := Err(e);
        case Responded(status, body) =>
          match body {
            case Err(e) =>
              attempt := Err(e);
            case Ok(data) =>
              if !IsOk(status) {
                if status == 401 {
                  store.RemoveToken();
                  attempt := Err(Thrown(SessionExpiredMessage));
                } else if status == 403 {
                  attempt := Err(Thrown(AccessDeniedMessage));
                } else if status == 404 {
                  attempt := Err(Thrown(OwnerNotFoundMessage));
                } else {
                  attempt := Err(Thrown(MessageOr(data, "Failed to fetch gym owner data")));
                }
              } else if !data.success || data.data.None? {
                attempt := Err(Thrown(InvalidFormatMessage));
              } else {
                attempt := Ok(data);
              }
          }
      }
    }
    r := if attempt.Err? then Err(Catch(attempt.error)) else attempt;
  }

  /** `registerGymOwner(formData)`. */
  method RegisterGymOwner(store: TokenStore, form: Fields, reply: Reply)
    returns (r: Result<Envelope, JsError>, sent: Option<Request>)
    modifies store
    ensures Outcome(r, sent, store.token) == Interpret(RegisterOwner(form), old(store.token), reply)
  {
    sent := None;
    var attempt: Result<Envelope, JsError>;
    var token := store.GetToken();
    if !HasToken(token) {
      attempt := Err(Thrown(NoTokenMessage));
    } else {
      sent := Some(Request("POST", "/gym-owner/register", Direct(token.value, false), Multipart(form)));
      match reply {
        case TransportFailure(e) =>
          attempt := Err(e);
        case Responded(status, body) =>
          match body {
            case Err(e) =>
              attempt := Err(e);
            case Ok(data) =>
              if !IsOk(status) {
                if status == 400 {
                  attempt := Err(Thrown(MessageOr(data, "Invalid gym owner data")));
                } else if status == 401 {
                  store.RemoveToken();
                  attempt := Err(Thrown(SessionExpiredMessage));
                } else if status == 403 {
                  attempt := Err(Thrown(AccessDeniedMessage));
                } else if status == 409 {
                  attempt := Err(Thrown(EmailExistsMessage));
                } else {
                  attempt := Err(Thrown(MessageOr(data, "Failed to register gym owner")));
                }
              } else if !data.success || data.data.None? {
                attempt := Err(Thrown(InvalidFormatMessage));
              } else {
                attempt := Ok(data);
              }
          }
      }
    }
    r := if attempt.Err? then Err(Catch(attempt.error)) else attempt;
  }

  /** `updateGymOwnerById(id, formData)`. */
  method UpdateGymOwnerById(store: TokenStore, id: string, form: Fields, reply: Reply)
    returns (r: Result<Envelope, JsError>, sent: Option<Request>)
    modifies store
    ensures Outcome(r, sent, store.token) == Interpret(UpdateOwner(id, form), old(store.token), reply)
  {
    sent := None;
    var attempt: Result<Envelope, JsError>;
    var token := store.GetToken();
    if !HasToken(token) {
      attempt := Err(Thrown(NoTokenMessage));
    } else {
      sent := Some(Request("PUT", "/gym-owner/update/" + id, Direct(token.value, false), Multipart(form)));
      match reply {
        case TransportFailure(e) =>
          attempt := Err(e);
        case Responded(status, body) =>
          match body {
            case Err(e) =>
              attempt := Err(e);
            case Ok(data) =>
              if !IsOk(status) {
                if status == 400 {
                  attempt := Err(Thrown(MessageOr(data, "Invalid update data")));
                } else if status == 401 {
                  store.RemoveToken();
                  attempt := Err(Thrown(SessionExpiredMessage));
                } else if status == 403 {
                  attempt := Err(Thrown(AccessDeniedMessage));
                } else if status == 404 {
                  attempt := Err(Thrown(OwnerNotFoundMessage));
                } else {
                  attempt := Err(Thrown(MessageOr(data, "Failed to update gym owner")));
                }
              } else if !data.success || data.data.None? {
                attempt := Err(Thrown(InvalidFormatMessage));
              } else {
                attempt := Ok(data);
              }
          }
      }
    }
    r := if attempt.Err? then Err(Catch(attempt.error)) else attempt;
  }

  /** `deleteGymOwner(id)`: the only wrapper that does not insist on `data`. */
  method DeleteGymOwner(store: TokenStore, id: string, reply: Reply)
    returns (r: Result<Envelope, JsError>, sent: Option<Request>)
    modifies store
    ensures Outcome(r, sent, store.token) == Interpret(DeleteOwner(id), old(store.token), reply)
  {
    sent := None;
    var attempt: Result<Envelope, JsError>;
    var token := store.GetToken();
    if !HasToken(token) {
      attempt := Err(Thrown(NoTokenMessage));
    } else {
      sent := Some(Request("DELETE", "/gym-owner/delete/" + id, Direct(token.value, true), NoBody));
      match reply {
        case TransportFailure(e) =>
          attempt := Err(e);
        case Responded(status, body) =>
          match body {
            case Err(e) =>
              attempt := Err(e);
            case Ok(data) =>
              if !IsOk(status) {
                if status == 401 {
                  store.RemoveToken();
                  attempt := Err(Thrown(SessionExpiredMessage));
                } else if status == 403 {
                  attempt := Err(Thrown(AccessDeniedMessage));
                } else if status == 404 {
                  attempt := Err(Thrown(OwnerNotFoundMessage));
                } else {
                  attempt := Err(Thrown(MessageOr(data, "Failed to delete gym owner")));
                }
              } else if !data.success {
                attempt := Err(Thrown(InvalidFormatMessage));
              } else {
                attempt := Ok(data);
              }
          }
      }
    }
    r := if attempt.Err? then Err(Catch(attempt.error)) else attempt;
  }

  // ---------------------------------------------------------------------------
  // Properties of the decision table
  // ---------------------------------------------------------------------------

  /** With no stored token every wrapper throws before issuing any request, and the store is untouched. */
  lemma NoTokenNoRequest(ep: Endpoint, token: Option<string>, reply: Reply)
    requires !HasToken(token)
    ensures Interpret(ep, token, reply) == Outcome(Err(Thrown(NoTokenMessage)), None, token)
  {
  }

  /** Every request that is issued carries the stored token as its bearer credential. */
  lemma RequestCarriesToken(ep: Endpoint, token: Option<string>, reply: Reply)
    ensures Interpret(ep, token, reply).sent.Some? <==> HasToken(token)
    ensures HasToken(token) ==> Interpret(ep, token, reply).sent == Some(RequestFor(ep, token.value))
    ensures HasToken(token) ==> RequestFor(ep, token.value).channel.bearer == token.value
  {
  }

  /** A parsed 401 clears the token store and throws the session-expired message. */
  lemma UnauthorizedClearsToken(ep: Endpoint, token: Option<string>, env: Envelope)
    requires HasToken(token)
    ensures Interpret(ep, token, Responded(401, Ok(env))).token == None
    ensures Interpret(ep, token, Responded(401, Ok(env))).result == Err(Thrown(SessionExpiredMessage))
  {
  }

  /** Nothing but a parsed 401 changes the token store; a 401 whose body does not parse leaves it alone. */
  lemma TokenChangesOnlyOnUnauthorized(ep: Endpoint, token: Option<string>, reply: Reply)
    ensures Interpret(ep, token, reply).token != token <==>
      HasToken(token) && reply.Responded? && reply.status == 401 && reply.body.Ok?
    ensures Interpret(ep, token, reply).token == token || Interpret(ep, token, reply).token == None
  {
  }

  /** 403 throws the access-denied message and leaves the token store alone. */
  lemma ForbiddenKeepsToken(ep: Endpoint, token: Option<string>, env: Envelope)
    requires HasToken(token)
    ensures Interpret(ep, token, Responded(403, Ok(env))) ==
      Outcome(Err(Thrown(AccessDeniedMessage)), Some(RequestFor(ep, token.value)), token)
  {
  }

  /** 404 gives the list's or the single owner's not-found message; register has no 404 case. */
  lemma NotFoundMessages(ep: Endpoint, token: Option<string>, env: Envelope)
    requires HasToken(token)
    ensures Interpret(ep, token, Responded(404, Ok(env))).result == Err(Thrown(
      match ep
      case ListOwners => NoOwnersMessage
      case RegisterOwner(_) => MessageOr(env, "Failed to register gym owner")
      case _ => OwnerNotFoundMessage))
  {
  }

  /** 400 passes the server's message through for register and update; 409 is a duplicate e-mail for register. */
  lemma BadRequestAndConflict(ep: Endpoint, token: Option<string>, env: Envelope)
    requires HasToken(token)
    ensures ep.RegisterOwner? ==>
      Interpret(ep, token, Responded(400, Ok(env))).result == Err(Thrown(MessageOr(env, "Invalid gym owner data"))) &&
      Interpret(ep, token, Responded(409, Ok(env))).result == Err(Thrown(EmailExistsMessage))
    ensures ep.UpdateOwner? ==>
      Interpret(ep, token, Responded(400, Ok(env))).result == Err(Thrown(MessageOr(env, "Invalid update data")))
    ensures !ep.RegisterOwner? && !ep.UpdateOwner? ==>
      Interpret(ep, token, Responded(400, Ok(env))).result == Err(Thrown(MessageOr(env, Fallback(ep))))
  {
  }

  /** The failing statuses a wrapper gives a message of its own: 401 and 403 everywhere, 404 but on register, 400 on register and update, 409 on register. */
  predicate SpecialStatus(ep: Endpoint, status: int)
  {
    || status == 401
    || status == 403
    || (status == 404 && !ep.RegisterOwner?)
    || (status == 400 && (ep.RegisterOwner? || ep.UpdateOwner?))
    || (status == 409 && ep.RegisterOwner?)
  }

  /** Any other failing status throws the server's message, or the wrapper's fallback when there is none. */
  lemma OtherFailingStatus(ep: Endpoint, token: Option<string>, status: int, env: Envelope)
    requires HasToken(token) && !IsOk(status)
    requires !SpecialStatus(ep, status)
    ensures Interpret(ep, token, Responded(status, Ok(env))) ==
      Outcome(Err(Thrown(MessageOr(env, Fallback(ep)))), Some(RequestFor(ep, token.value)), token)
  {
  }

  /** A 2xx answer is returned unchanged exactly when its envelope passes the format check. */
  lemma SuccessfulStatusChecksFormat(ep: Endpoint, token: Option<string>, status: int, env: Envelope)
    requires HasToken(token) && IsOk(status)
    ensures Interpret(ep, token, Responded(status, Ok(env))).result ==
      if env.success && (RequiresData(ep) ==> env.data.Some?) then Ok(env)
      else Err(Thrown(InvalidFormatMessage))
    ensures Interpret(ep, token, Responded(status, Ok(env))).token == token
  {
  }

  /** A wrapper returns only a well-formed envelope from a 2xx answer, exactly as it was received. */
  lemma OnlyWellFormedEnvelopesReturned(ep: Endpoint, token: Option<string>, reply: Reply)
    requires Interpret(ep, token, reply).result.Ok?
    ensures reply.Responded? && IsOk(reply.status) && reply.body.Ok?
    ensures Interpret(ep, token, reply).result.value == reply.body.value
    ensures reply.body.value.success && (RequiresData(ep) ==> reply.body.value.data.Some?)
    ensures Interpret(ep, token, reply).token == token
  {
  }

  /** A rejected fetch "Failed to fetch" becomes the network message; any other rejection is rethrown unchanged. */
  lemma TransportFailureNormalised(ep: Endpoint, token: Option<string>, e: JsError)
    requires HasToken(token)
    ensures Interpret(ep, token, TransportFailure(e)).result ==
      Err(if e.name == "TypeError" && e.message == "Failed to fetch" then Thrown(NetworkMessage) else e)
    ensures Interpret(ep, token, TransportFailure(e)).token == token
  {
  }

  /** A body that fails to parse reaches the catch block before any status check: the parse error is rethrown and the token kept, whatever the status. */
  lemma ParseFailureRethrown(ep: Endpoint, token: Option<string>, status: int, e: JsError)
    requires HasToken(token)
    ensures Interpret(ep, token, Responded(status, Err(e))) ==
      Outcome(Err(if e.name == "TypeError" && e.message == "Failed to fetch" then Thrown(NetworkMessage) else e),
        Some(RequestFor(ep, token.value)), token)
  {
  }

  /** The errors the wrappers throw themselves pass through the catch block unchanged. */
  lemma OwnErrorsRethrown(message: string)
    ensures Catch(Thrown(message)) == Thrown(message)
  {
  }
}
