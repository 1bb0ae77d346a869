/**
 * The user-facing message for an error raised by the identity provider or
 * by the backend (`getFirebaseErrorMessage`). The classifier works through a
 * precedence chain: the provider code, then the HTTP status of an attached
 * response, then network and timeout heuristics, then the error's own message.
 *
 * JavaScript's optional fields are modelled as follows: a string field that is
 * absent, null or empty is the empty string (all three are falsy), and the
 * `response` object is an `Option`. A null or undefined error behaves as
 * `ErrorShape("", None, "")`.
 */
module FirebaseErrorUtils {
  import opened Text

  /** The body of an HTTP error response; `message` and `error` are its two text fields. */
  datatype ResponseData = ResponseData(message: string, error: string)

  datatype HttpResponse = HttpResponse(status: int, data: Option<ResponseData>)

  /** The fields of the error object the classifier reads. */
  datatype ErrorShape = ErrorShape(code: string, response: Option<HttpResponse>, message: string)

  const AuthGenericMessage := "Authentication error. Please try again or contact support."
  const ConfigurationMessage := "Configuration error. Please contact support."
  const NetworkMessage := "Network error. Please check your internet connection."
  const TimeoutMessage := "Request timed out. Please try again."
  const UnexpectedMessage := "An unexpected error occurred. Please try again."

  /** Codes about the account and the credentials presented. */
  function AccountCodeMessage(name: string): (r: Option<string>)
    ensures r.Some? ==> r.value != ""
  {
    match name
    case "user-not-found" => Some("No account found with this email address.")
    case "wrong-password" => Some("Incorrect password. Please try again.")
    case "invalid-email" => Some("Please enter a valid email address.")
    case "user-disabled" => Some("This account has been disabled. Please contact support.")
    case "email-already-in-use" => Some("An account with this email already exists.")
    case "weak-password" => Some("Password should be at least 6 characters long.")
    case "operation-not-allowed" => Some("Email/password accounts are not enabled. Please contact support.")
    case "invalid-credential" => Some("Invalid email or password. Please check your credentials.")
    case "too-many-requests" => Some("Too many unsuccessful attempts. Please try again later.")
    case _ => None
  }

  /** Codes about the session, the configuration and one-time codes. */
  function SessionCodeMessage(name: string): (r: Option<string>)
    ensures r.Some? ==> r.value != ""
  {
    match name
    case "network-request-failed" => Some("Network error. Please check your connection and try again.")
    case "requires-recent-login" => Some("Please log out and log back in to continue.")
    case "user-token-expired" => Some("Your session has expired. Please log in again.")
    case "invalid-api-key" => Some(ConfigurationMessage)
    case "app-deleted" => Some(ConfigurationMessage)
    case "expired-action-code" => Some("This link has expired. Please request a new one.")
    case "invalid-action-code" => Some("This link is invalid. Please request a new one.")
    case "invalid-verification-code" => Some("Invalid verification code. Please try again.")
    case "invalid-verification-id" => Some("Invalid verification ID. Please try again.")
    case _ => None
  }

  /** Codes about the request itself, and the backend's own account-creation code. */
  function RequestCodeMessage(name: string): (r: Option<string>)
    ensures r.Some? ==> r.value != ""
  {
    match name
    case "missing-verification-code" => Some("Please enter the verification code.")
    case "missing-verification-id" => Some("Verification ID is missing. Please try again.")
    case "credential-already-in-use" => Some("This credential is already associated with another account.")
    case "timeout" => Some("Request timed out. Please try again.")
    case "missing-password" => Some("Please enter your password.")
    case "missing-email" => Some("Please enter your email address.")
    case "internal-error" => Some("An internal error occurred. Please try again later.")
    case "user-creation-failed" => Some("Failed to create user account. Please try again.")
    case _ => None
  }

  /**
   * The message of each provider code the classifier lists by name. Every
   * listed code is `auth/` followed by one of these names; the three tables
   * have no name in common.
   */
  function KnownAuthMessage(name: string): (r: Option<string>)
    ensures r.Some? ==> r.value != ""
  {
    match AccountCodeMessage(name)
    case Some(m) => Some(m)
    case None =>
      match SessionCodeMessage(name)
      case Some(m) => Some(m)
      case None => RequestCodeMessage(name)
  }

  function KnownCodeMessage(code: string): Option<string>
  {
    if "auth/" <= code then KnownAuthMessage(code[|"auth/"|..]) else None
  }

  /** First stage: a truthy code that is listed, or that starts with `auth/`, decides the message. */
  function CodeStage(code: string): (r: Option<string>)
    ensures r.Some? <==> "auth/" <= code
    ensures r.Some? ==> r.value != ""
  {
    if code == "" then None
    else match KnownCodeMessage(code)
      case Some(m) => Some(m)
      case None => if "auth/" <= code then Some(AuthGenericMessage) else None
  }

  /** `data?.message || data?.error`, the empty string when neither is set. */
  function ServerMessage(data: Option<ResponseData>): (r: string)
    ensures data.None? ==> r == ""
    ensures data.Some? && data.value.message != "" ==> r == data.value.message
    ensures data.Some? && data.value.message == "" ==> r == data.value.error
  {
    match data
    case None => ""
    case Some(d) => OrElse(d.message, d.error)
  }

  /** Statuses whose fixed message is shown whatever the server said. */
  predicate FixedStatus(status: int)
  {
    status in {401, 403, 404, 429, 500, 502, 503, 504}
  }

  /** Second stage: the HTTP status of an attached response. */
  function ResponseStage(response: HttpResponse): (r: string)
    ensures r != ""
  {
    var message := ServerMessage(response.data);
    match response.status
    case 400 => OrElse(message, "Invalid request. Please check your information.")
    case 401 => "Authentication failed. Please check your credentials."
    case 403 => "Access denied. Please contact support."
    case 404 => "Service not found. Please try again later."
    case 409 => OrElse(message, "This email is already registered.")
    case 422 => OrElse(message, "Invalid data provided. Please check your information.")
    case 429 => "Too many requests. Please wait a moment and try again."
    case 500 => "Server error. Please try again later."
    case 502 => "Service temporarily unavailable. Please try again later."
    case 503 => "Service temporarily unavailable. Please try again later."
    case 504 => "Service temporarily unavailable. Please try again later."
    case _ => OrElse(message, UnexpectedMessage)
  }

  predicate LooksLikeNetworkError(e: ErrorShape)
  {
    e.code == "NETWORK_ERROR" || Contains(e.message, "network")
  }

  predicate LooksLikeTimeout(e: ErrorShape)
  {
    e.code == "ECONNABORTED" || Contains(e.message, "timeout")
  }

  /** `getFirebaseErrorMessage`: every branch yields a non-empty message. */
  function GetFirebaseErrorMessage(e: ErrorShape): (r: string)
    ensures r != ""
  {
    match CodeStage(e.code)
    case Some(m) => m
    case None =>
      if e.response.Some? then ResponseStage(e.response.value)
      else if LooksLikeNetworkError(e) then NetworkMessage
      else if LooksLikeTimeout(e) then TimeoutMessage
      else OrElse(e.message, UnexpectedMessage)
  }

  /** A listed code decides the message even when a response is attached. */
  lemma ListedCodeWins(e: ErrorShape)
    requires KnownCodeMessage(e.code).Some?
    ensures GetFirebaseErrorMessage(e) == KnownCodeMessage(e.code).value
  {
  }

  /** Any code under `auth/` makes the response and the message irrelevant. */
  lemma AuthCodeIgnoresRest(e: ErrorShape, response: Option<HttpResponse>, message: string)
    requires "auth/" <= e.code
    ensures GetFirebaseErrorMessage(e) == GetFirebaseErrorMessage(ErrorShape(e.code, response, message))
  {
  }

  /** The two configuration codes share one message. */
  lemma ConfigurationCodesAgree(response: Option<HttpResponse>, message: string)
    ensures GetFirebaseErrorMessage(ErrorShape("auth/invalid-api-key", response, message))
         == GetFirebaseErrorMessage(ErrorShape("auth/app-deleted", response, message))
         == ConfigurationMessage
  {
  }

  /** An unlisted `auth/` code gets the generic authentication message. */
  lemma UnlistedAuthCode(e: ErrorShape)
    requires "auth/" <= e.code && KnownCodeMessage(e.code).None?
    ensures GetFirebaseErrorMessage(e) == AuthGenericMessage
  {
  }

  /** A code outside `auth/` does not decide anything: the later stages do. */
  lemma ForeignCodeFallsThrough(e: ErrorShape)
    requires !("auth/" <= e.code)
    ensures e.response.Some? ==> GetFirebaseErrorMessage(e) == ResponseStage(e.response.value)
    ensures e.response.None? && e.code != "NETWORK_ERROR" && e.code != "ECONNABORTED" ==>
              GetFirebaseErrorMessage(e) == GetFirebaseErrorMessage(e.(code := ""))
  {
  }

  /** For the fixed statuses the server's own text is never shown. */
  lemma FixedStatusIgnoresServer(e: ErrorShape, other: Option<ResponseData>)
    requires CodeStage(e.code).None? && e.response.Some? && FixedStatus(e.response.value.status)
    ensures GetFirebaseErrorMessage(e) == GetFirebaseErrorMessage(e.(response := Some(e.response.value.(data := other))))
    ensures GetFirebaseErrorMessage(e) == ResponseStage(HttpResponse(e.response.value.status, None))
  {
  }

  /** For 400, 409, 422 and unlisted statuses the server's text, when present, is what the user sees. */
  lemma ServerMessagePreferred(e: ErrorShape)
    requires CodeStage(e.code).None? && e.response.Some?
    requires !FixedStatus(e.response.value.status)
    requires ServerMessage(e.response.value.data) != ""
    ensures GetFirebaseErrorMessage(e) == ServerMessage(e.response.value.data)
    ensures e.response.value.data.value.message != "" ==>
              GetFirebaseErrorMessage(e) == e.response.value.data.value.message
  {
  }

  /** The network check comes before the timeout check. */
  lemma NetworkBeforeTimeout(e: ErrorShape)
    requires CodeStage(e.code).None? && e.response.None?
    requires LooksLikeNetworkError(e)
    ensures GetFirebaseErrorMessage(e) == NetworkMessage
  {
  }

  /** When nothing else matches, the error's own message, or the generic one. */
  lemma Fallback(e: ErrorShape)
    requires CodeStage(e.code).None? && e.response.None?
    requires !LooksLikeNetworkError(e) && !LooksLikeTimeout(e)
    ensures e.message != "" ==> GetFirebaseErrorMessage(e) == e.message
    ensures e.message == "" ==> GetFirebaseErrorMessage(e) == UnexpectedMessage
  {
  }
}
