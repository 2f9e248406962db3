/**
 * The values that cross the boundary between the front end and the REST
 * back end: thrown errors, the parsed `{ success, message, data }` envelope,
 * what `fetch` delivers, and the request a service issues.
 */
module Http {
  import opened Common

  /** A JavaScript error object: its `name` and its `message`. */
  datatype JsError = JsError(name: string, message: string)

  /** `new Error(message)`. */
  function Thrown(message: string): JsError
  {
    JsError("Error", message)
  }

  /** Key/value pairs: a JSON object body, a multipart `FormData`, or the rest of a payload. */
  type Fields = seq<(string, string)>

  /**
   * The `data` member of an envelope, when present and truthy. Only its
   * `token` is ever inspected ("" stands for a missing or empty token);
   * everything else is carried along untouched.
   */
  datatype Payload = Payload(token: string, rest: Fields)

  /**
   * The parsed response body. `message` is "" when absent (both are falsy in
   * JavaScript); `data` is None when absent or falsy.
   */
  datatype Envelope = Envelope(success: bool, message: string, data: Option<Payload>)

  /** `data.message || fallback`. */
  function MessageOr(env: Envelope, fallback: string): (m: string)
    ensures m == env.message || (env.message == "" && m == fallback)
    ensures m != "" <==> env.message != "" || fallback != ""
  {
    if env.message != "" then env.message else fallback
  }

  /** `response.ok`: a status in the 2xx range. */
  predicate IsOk(status: int)
  {
    200 <= status <= 299
  }

  /**
   * What a direct call of `fetch` followed by `response.json()` delivers:
   * either the request never got a response (the promise rejected), or it
   * got one with a status and a body that did or did not parse.
   */
  datatype Reply =
    | TransportFailure(error: JsError)
    | Responded(status: int, body: Result<Envelope, JsError>)

  /** What the shared helpers `publicFetch` and `apiFetch` resolve or reject with. */
  datatype FetchResult = Resolved(envelope: Envelope) | Rejected(error: JsError)

  datatype Body = NoBody | Json(fields: Fields) | Multipart(form: Fields)

  /** How the request is sent: by `fetch` itself with a bearer token, or through one of the shared helpers. */
  datatype Channel = Direct(bearer: string, jsonContentType: bool) | PublicFetch | ApiFetch

  /** One request handed to the transport. Paths are relative to the configured API base URL. */
  datatype Request = Request(verb: string, path: string, channel: Channel, body: Body)

  /** The message the login and registration pages show for an error the service threw. */
  function SubmitErrorMessage(e: JsError, fallback: string): (m: string)
    ensures e.message == "Failed to fetch" || e.name == "NetworkError" ==>
      m == "Network error. Please check your connection and try again."
    ensures e.message != "Failed to fetch" && e.name != "NetworkError" ==>
      m == (if e.message != "" then e.message else fallback)
  {
    if e.message == "Failed to fetch" || e.name == "NetworkError" then
      "Network error. Please check your connection and try again."
    else if e.message != "" then e.message
    else fallback
  }
}
