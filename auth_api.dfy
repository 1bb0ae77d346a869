/**
 * The register, login and logout mutations and the current-user query of the
 * authentication API (`registerUser`, `loginUser`, `logoutUser`,
 * `getCurrentUser`): their input checks, the order of their steps, how a
 * thrown error is tagged, and the cache tags that tie them together.
 *
 * The identity provider and the backend are inputs: each step's outcome is
 * given as a `Reply`, and a mutation's result records the email the provider
 * was called with, if it was called at all.
 */
module AuthApi {
  import opened Text

  /** A thrown error: its `code` and `message` ("" when absent). */
  datatype Thrown = Thrown(code: string, message: string)

  /** What an awaited provider step gives: a value, or the error it throws. */
  datatype Reply<T> = Done(value: T) | Threw(error: Thrown)

  /** What the backend registration request gives: a response, or the error `fetch` throws. */
  datatype BackendReply = Response(ok: bool, status: nat, body: string) | FetchThrew(error: Thrown)

  datatype ErrorStatus = FirebaseError | CustomError

  /** The `{status, data, message}` record a failing mutation returns. */
  datatype ApiError = ApiError(status: ErrorStatus, data: string, message: Option<string>)

  /** The provider's user id, and the backend's user record when one was fetched. */
  datatype AuthData = AuthData(firebaseUid: string, userData: Option<string>)

  datatype Outcome = Success(data: AuthData) | Failure(error: ApiError)

  /** One call of a mutation: the email handed to the provider (if it was reached) and the result. */
  datatype Attempt = Attempt(providerEmail: Option<string>, result: Outcome)

  const RequiredMessage := "Email and password are required"
  const PasswordLengthMessage := "Password must be at least 6 characters long"
  const InvalidEmailMessage := "Please enter a valid email address"
  const BackendFailurePrefix := "Backend registration failed: "

  /** The error thrown by an input check: a plain `Error`, so it has no code. */
  function CheckError(message: string): Thrown
  {
    Thrown("", message)
  }

  /**
   * The `catch` block of both mutations: an error with a code is a provider
   * error and keeps that code as its data; anything else is a custom error
   * carrying its message, or `fallback` when it has none.
   */
  function TagError(e: Thrown, fallback: string): (r: ApiError)
    requires fallback != ""
    ensures r.status == FirebaseError <==> e.code != ""
    ensures r.status == FirebaseError ==> r.data == e.code && r.message == Some(e.message)
    ensures r.status == CustomError ==> r.message.None? && (r.data == e.message || (e.message == "" && r.data == fallback))
    ensures r.data != ""
  {
    if e.code != "" then ApiError(FirebaseError, e.code, Some(e.message))
    else ApiError(CustomError, OrElse(e.message, fallback), None)
  }

  /** The checks `registerUser` makes before reaching the provider, in order. */
  function RegistrationProblem(email: string, password: string): (r: Option<string>)
    ensures r.None? <==> email != "" && password != "" && |password| >= 6
    ensures email == "" || password == "" ==> r == Some(RequiredMessage)
    ensures email != "" && password != "" && |password| < 6 ==> r == Some(PasswordLengthMessage)
  {
    if email == "" || password == "" then Some(RequiredMessage)
    else if |password| < 6 then Some(PasswordLengthMessage)
    else None
  }

  /** The checks `loginUser` makes before reaching the provider, in order. */
  function LoginProblem(email: string, password: string): (r: Option<string>)
    ensures r.None? <==> email != "" && password != "" && Contains(email, "@")
    ensures email == "" || password == "" ==> r == Some(RequiredMessage)
    ensures email != "" && password != "" && !Contains(email, "@") ==> r == Some(InvalidEmailMessage)
  {
    ContainsChar(email, '@');

    if email == "" || password == "" then Some(RequiredMessage)
    else if '@' !in email then Some(InvalidEmailMessage)
    else None
  }

  /**
   * `registerUser`: the checks, then account creation with the trimmed email,
   * a token request, and the backend registration call.
   */
  function RegisterUser(email: string, password: string, create: Reply<string>, token: Reply<string>,
                        backend: BackendReply): (a: Attempt)
    ensures a.providerEmail.Some? <==> RegistrationProblem(email, password).None?
    ensures a.providerEmail.Some? ==> a.providerEmail.value == Trim(email)
    // It succeeds exactly when every step succeeds, with the provider's user and the backend's record.
    ensures a.result.Success? <==>
              && RegistrationProblem(email, password).None? && create.Done? && token.Done?
              && backend.Response? && backend.ok
    ensures a.result.Success? ==> a.result.data == AuthData(create.value, Some(backend.body))
    // Otherwise the first step that fails decides the error.
    ensures RegistrationProblem(email, password).Some? ==>
              a.result == Failure(TagError(CheckError(RegistrationProblem(email, password).value), "Registration failed"))
    ensures RegistrationProblem(email, password).None? && create.Threw? ==>
              a.result == Failure(TagError(create.error, "Registration failed"))
    ensures RegistrationProblem(email, password).None? && create.Done? && token.Threw? ==>
              a.result == Failure(TagError(token.error, "Registration failed"))
    ensures RegistrationProblem(email, password).None? && create.Done? && token.Done? && backend.FetchThrew? ==>
              a.result == Failure(TagError(backend.error, "Registration failed"))
    ensures RegistrationProblem(email, password).None? && create.Done? && token.Done? && backend.Response? && !backend.ok ==>
              a.result == Failure(TagError(CheckError(BackendFailurePrefix + NatToString(backend.status)), "Registration failed"))
  {
    match RegistrationProblem(email, password)
    case Some(problem) => Attempt(None, Failure(TagError(CheckError(problem), "Registration failed")))
    case None =>
      var outcome :=
        match create
        case Threw(e) => Failure(TagError(e, "Registration failed"))
        case Done(uid) =>
          match token
          case Threw(e) => Failure(TagError(e, "Registration failed"))
          case Done(_) =>
            match backend
            case FetchThrew(e) => Failure(TagError(e, "Registration failed"))
            case Response(ok, status, body) =>
              if !ok then Failure(TagError(CheckError(BackendFailurePrefix + NatToString(status)), "Registration failed"))
              else Success(AuthData(uid, Some(body)));
      Attempt(Some(Trim(email)), outcome)
  }

  /** `loginUser`: the checks, then sign-in with the trimmed email. */
  function LoginUser(email: string, password: string, signIn: Reply<string>): (a: Attempt)
    ensures a.providerEmail.Some? <==> LoginProblem(email, password).None?
    ensures a.providerEmail.Some? ==> a.providerEmail.value == Trim(email)
    ensures LoginProblem(email, password).Some? ==>
              a.result == Failure(TagError(CheckError(LoginProblem(email, password).value), "Login failed"))
    ensures LoginProblem(email, password).None? ==> (a.result.Success? <==> signIn.Done?)
    ensures LoginProblem(email, password).None? && signIn.Done? ==> a.result == Success(AuthData(signIn.value, None))
    ensures LoginProblem(email, password).None? && signIn.Threw? ==>
              a.result == Failure(TagError(signIn.error, "Login failed"))
  {
    match LoginProblem(email, password)
    case Some(problem) => Attempt(None, Failure(TagError(CheckError(problem), "Login failed")))
    case None =>
      match signIn
      case Threw(e) => Attempt(Some(Trim(email)), Failure(TagError(e, "Login failed")))
      case Done(uid) => Attempt(Some(Trim(email)), Success(AuthData(uid, None)))
  }

  datatype LogoutOutcome = LoggedOut | LogoutFailed(error: ApiError)

  /** `logoutUser`: a failing sign-out is always a custom error, whatever its code. */
  function LogoutUser(signOut: Reply<()>): (r: LogoutOutcome)
    ensures r.LogoutFailed? <==> signOut.Threw?
    ensures r.LogoutFailed? ==> r.error.status == CustomError && r.error.data != "" && r.error.message.None?
    ensures r.LogoutFailed? ==> r.error.data == OrElse(signOut.error.message, "Logout failed")
  {
    match signOut
    case Done(_) => LoggedOut
    case Threw(e) => LogoutFailed(ApiError(CustomError, OrElse(e.message, "Logout failed"), None))
  }

  /** `getCurrentUser`'s query: no request at all when nobody is signed in. */
  function CurrentUserQuery(signedIn: bool): (r: Option<string>)
    ensures r.Some? <==> signedIn
  {
    if signedIn then Some("/users/getUser") else None
  }

  datatype Tag = UserTag

  datatype Endpoint = RegisterEndpoint | LoginEndpoint | CurrentUserEndpoint | LogoutEndpoint

  predicate IsMutation(e: Endpoint)
  {
    e != CurrentUserEndpoint
  }

  function ProvidedTags(e: Endpoint): set<Tag>
  {
    if e == CurrentUserEndpoint then {UserTag} else {}
  }

  function InvalidatedTags(e: Endpoint): set<Tag>
  {
    if IsMutation(e) then {UserTag} else {}
  }

  /** Every mutation invalidates what the current-user query provides, so it is fetched again. */
  lemma MutationsRefreshCurrentUser(e: Endpoint)
    requires IsMutation(e)
    ensures ProvidedTags(CurrentUserEndpoint) <= InvalidatedTags(e)
    ensures ProvidedTags(CurrentUserEndpoint) != {}
  {
  }

  /** An empty field is reported before anything else, and the provider is never reached. */
  lemma RegisterRequiresBothFields(email: string, password: string, create: Reply<string>,
                                   token: Reply<string>, backend: BackendReply)
    requires email == "" || password == ""
    ensures RegisterUser(email, password, create, token, backend)
         == Attempt(None, Failure(ApiError(CustomError, RequiredMessage, None)))
  {
  }

  /** A short password is refused before the provider is reached, once both fields are filled. */
  lemma RegisterRejectsShortPassword(email: string, password: string, create: Reply<string>,
                                     token: Reply<string>, backend: BackendReply)
    requires email != "" && password != "" && |password| < 6
    ensures RegisterUser(email, password, create, token, backend)
         == Attempt(None, Failure(ApiError(CustomError, PasswordLengthMessage, None)))
  {
  }

  /** A rejected backend registration is reported with its status, and distinct statuses read differently. */
  lemma BackendStatusReported(email: string, password: string, uid: string, token: string,
                              s: nat, t: nat, body: string)
    requires RegistrationProblem(email, password).None?
    ensures RegisterUser(email, password, Done(uid), Done(token), Response(false, s, body)).result
         == Failure(ApiError(CustomError, BackendFailurePrefix + NatToString(s), None))
    ensures s != t ==>
              (RegisterUser(email, password, Done(uid), Done(token), Response(false, s, body))
               != RegisterUser(email, password, Done(uid), Done(token), Response(false, t, body)))
  {
    if s != t && BackendFailurePrefix + NatToString(s) == BackendFailurePrefix + NatToString(t) {
      assert NatToString(s) == (BackendFailurePrefix + NatToString(s))[|BackendFailurePrefix|..];
      NatToStringInjective(s, t);
    }
  }

  /** Login checks for an empty field first, then for an `@`. */
  lemma LoginChecksInOrder(email: string, password: string, signIn: Reply<string>)
    ensures email == "" || password == "" ==>
              LoginUser(email, password, signIn) == Attempt(None, Failure(ApiError(CustomError, RequiredMessage, None)))
    ensures email != "" && password != "" && '@' !in email ==>
              LoginUser(email, password, signIn) == Attempt(None, Failure(ApiError(CustomError, InvalidEmailMessage, None)))
  {
  }

  /** A successful sign-in carries the provider's user and no backend record. */
  lemma LoginSuccessHasNoUserData(email: string, password: string, uid: string)
    requires LoginProblem(email, password).None?
    ensures LoginUser(email, password, Done(uid)).result == Success(AuthData(uid, None))
  {
  }
}
