/**
 * The login form: its field state, the checks `handleSubmit` makes before
 * calling the login mutation, how a rejected login is turned into the message
 * shown, and which message the form displays (`getErrorMessage`).
 *
 * The form is a class whose fields are the page's state. What one submission
 * does is given by the pure function `SubmitOutcome`, and `LoginForm.Submit`
 * applies it to the fields. The provider's sign-in reply is an input.
 */
module LoginPage {
  import opened Text
  import AuthApi
  import FirebaseErrorUtils

  datatype Toast = SuccessToast(text: string) | ErrorToast(text: string)

  /** The mutation hook's `error` as the page reads it: a bare string, or a record that may hold `data`. */
  datatype SignInError = TextError(text: string) | RecordError(data: Option<string>)

  const FillMessage := "Please fill in all fields"
  const EmailMessage := "Please enter a valid email address"
  const LoginFallbackMessage := "Login failed. Please try again."
  const DashboardPath := "/dashboard"

  /**
   * The message for a rejected login: a provider error is classified by its
   * code alone; any other error shows its data, its message, or a fallback.
   */
  function FailureMessage(e: AuthApi.ApiError): (r: string)
    ensures r != ""
    ensures e.status == AuthApi.FirebaseError ==>
              r == FirebaseErrorUtils.GetFirebaseErrorMessage(FirebaseErrorUtils.ErrorShape(e.data, None, ""))
    ensures e.status == AuthApi.CustomError && e.data != "" ==> r == e.data
    ensures e.status == AuthApi.CustomError && e.data == "" && e.message.Some? && e.message.value != "" ==>
              r == e.message.value
    ensures e.status == AuthApi.CustomError && e.data == "" && (e.message.None? || e.message.value == "") ==>
              r == LoginFallbackMessage
  {
    if e.status == AuthApi.FirebaseError then
      FirebaseErrorUtils.GetFirebaseErrorMessage(FirebaseErrorUtils.ErrorShape(e.data, None, ""))
    else
      var message := if e.message.Some? then e.message.value else "";
      OrElse(e.data, OrElse(message, LoginFallbackMessage))
  }

  /** `getErrorMessage`: the form's own error first, then the hook's error, else nothing. */
  function GetErrorMessage(localError: string, signInError: Option<SignInError>): (r: Option<string>)
    ensures localError != "" ==> r == Some(localError)
    ensures localError == "" && signInError.None? ==> r.None?
    ensures localError == "" && signInError.Some? && signInError.value.TextError? ==>
              r == (if signInError.value.text != "" then Some(signInError.value.text) else None)
    ensures localError == "" && signInError.Some? && signInError.value.RecordError? ==> r == signInError.value.data
  {
    if localError != "" then Some(localError)
    else match signInError
      case None => None
      case Some(TextError(text)) => if text != "" then Some(text) else None
      case Some(RecordError(data)) => data
  }

  /** What one submission does to the page. `attempt` is the mutation call, when it is made. */
  datatype Submission = Submission(
    localError: string,
    attempt: Option<AuthApi.Attempt>,
    toast: Option<Toast>,
    navigateTo: Option<string>)

  /** `handleSubmit`, as a function of the field values and the provider's reply. */
  function SubmitOutcome(email: string, password: string, signIn: AuthApi.Reply<string>): (s: Submission)
    ensures s.attempt.None? ==> s.toast.None? && s.navigateTo.None? && s.localError != ""
    ensures s.navigateTo.Some? <==> s.attempt.Some? && s.attempt.value.result.Success?
    ensures s.navigateTo.Some? ==> s.navigateTo.value == DashboardPath && s.localError == ""
    ensures s.attempt.Some? <==> Trim(email) != "" && Trim(password) != "" && '@' in email
    ensures s.attempt.None? && s.localError == FillMessage <==> Trim(email) == "" || Trim(password) == ""
    ensures s.attempt.None? && s.localError == EmailMessage <==> Trim(email) != "" && Trim(password) != "" && '@' !in email
    ensures s.attempt.Some? ==> s.attempt.value == AuthApi.LoginUser(Trim(email), password, signIn)
    ensures s.attempt.Some? && s.attempt.value.result.Success? ==> s.toast == Some(SuccessToast("Login successful!"))
    ensures s.attempt.Some? && s.attempt.value.result.Failure? ==>
              var message := FailureMessage(s.attempt.value.result.error);
              s.localError == message && s.toast == Some(ErrorToast(message))
  {
    if Trim(email) == "" || Trim(password) == "" then Submission(FillMessage, None, None, None)
    else if '@' !in email then Submission(EmailMessage, None, None, None)
    else
      var attempt := AuthApi.LoginUser(Trim(email), password, signIn);
      match attempt.result
      case Success(_) => Submission("", Some(attempt), Some(SuccessToast("Login successful!")), Some(DashboardPath))
      case Failure(e) =>
        var message := FailureMessage(e);
        Submission(message, Some(attempt), Some(ErrorToast(message)), None)
  }

  /** The hook's error after a mutation call: the rejected record, or none after a success. */
  function HookError(attempt: AuthApi.Attempt): (r: Option<SignInError>)
    ensures r.None? <==> attempt.result.Success?
    ensures attempt.result.Failure? ==> r == Some(RecordError(Some(attempt.result.error.data)))
  {
    match attempt.result
    case Success(_) => None
    case Failure(e) => Some(RecordError(Some(e.data)))
  }

  class LoginForm {
    var email: string
    var password: string
    var localError: string
    var signInError: Option<SignInError>
    var toasts: seq<Toast>
    var location: Option<string>

    constructor ()
      ensures email == "" && password == "" && localError == ""
      ensures signInError.None? && toasts == [] && location.None?
    {
      email, password, localError := "", "", "";
      signInError, toasts, location := None, [], None;
    }

    /** The message the form currently displays. */
    function DisplayedError(): Option<string>
      reads this
    {
      GetErrorMessage(localError, signInError)
    }

    /** Typing in the email field stores the value and clears the form's own error. */
    method EditEmail(value: string)
      modifies this
      ensures email == value && localError == ""
      ensures password == old(password) && signInError == old(signInError)
      ensures toasts == old(toasts) && location == old(location)
    {
      email := value;
      localError := "";
    }

    /** Typing in the password field stores the value and clears the form's own error. */
    method EditPassword(value: string)
      modifies this
      ensures password == value && localError == ""
      ensures email == old(email) && signInError == old(signInError)
      ensures toasts == old(toasts) && location == old(location)
    {
      password := value;
      localError := "";
    }

    /** `handleSubmit`: returns the email and password the mutation was called with, if it was. */
    method Submit(signIn: AuthApi.Reply<string>) returns (request: Option<(string, string)>)
      modifies this
      ensures var s := SubmitOutcome(old(email), old(password), signIn);
        && localError == s.localError
        && (request.Some? <==> s.attempt.Some?)
        && (request.Some? ==> request.value == (Trim(old(email)), old(password)))
        && signInError == (if s.attempt.Some? then HookError(s.attempt.value) else old(signInError))
        && toasts == old(toasts) + (if s.toast.Some? then [s.toast.value] else [])
        && location == (if s.navigateTo.Some? then s.navigateTo else old(location))
      ensures email == old(email) && password == old(password)
    {
      var email, password := this.email, this.password;
      localError := "";
      if Trim(email) == "" || Trim(password) == "" {
        localError := FillMessage;
        return None;
      }
      if '@' !in email {
        localError := EmailMessage;
        return None;
      }
      request := Some((Trim(email), password));
      var attempt := AuthApi.LoginUser(Trim(email), password, signIn);
      signInError := HookError(attempt);
      match attempt.result {
        case Success(_) =>
          toasts := toasts + [SuccessToast("Login successful!")];
          location := Some(DashboardPath);
        case Failure(e) =>
          var message := FailureMessage(e);
          localError := message;
          toasts := toasts + [ErrorToast(message)];
      }
    }
  }

  /** Blank fields (after trimming) stop the submission before the mutation is called. */
  lemma BlankFieldsStopSubmission(email: string, password: string, signIn: AuthApi.Reply<string>)
    requires AllWhitespace(email) || AllWhitespace(password)
    ensures SubmitOutcome(email, password, signIn) == Submission(FillMessage, None, None, None)
  {
    TrimEmptyIff(email);
    TrimEmptyIff(password);
  }

  /** The `@` check comes only after the fill check has passed. */
  lemma EmailCheckedAfterFill(email: string, password: string, signIn: AuthApi.Reply<string>)
    requires !AllWhitespace(email) && !AllWhitespace(password) && '@' !in email
    ensures SubmitOutcome(email, password, signIn) == Submission(EmailMessage, None, None, None)
  {
    TrimEmptyIff(email);
    TrimEmptyIff(password);
  }

  /**
   * A submission that reaches the mutation always passes the mutation's own
   * checks, so the provider is called, with the email trimmed once.
   */
  lemma FormChecksCoverApiChecks(email: string, password: string, signIn: AuthApi.Reply<string>)
    requires SubmitOutcome(email, password, signIn).attempt.Some?
    ensures AuthApi.LoginProblem(Trim(email), password).None?
    ensures SubmitOutcome(email, password, signIn).attempt.value.providerEmail == Some(Trim(email))
  {
    TrimKeepsAt(email);
    TrimIdempotent(email);
    assert password != "";
  }

  /** A provider error shows the classifier's message for its code, both inline and as a toast. */
  lemma ProviderErrorShowsClassifiedMessage(email: string, password: string, code: string, message: string)
    requires !AllWhitespace(email) && !AllWhitespace(password) && '@' in email
    requires code != ""
    ensures var s := SubmitOutcome(email, password, AuthApi.Threw(AuthApi.Thrown(code, message)));
      var shown := FirebaseErrorUtils.GetFirebaseErrorMessage(FirebaseErrorUtils.ErrorShape(code, None, ""));
      s.localError == shown && s.toast == Some(ErrorToast(shown)) && s.navigateTo.None?
  {
    TrimEmptyIff(email);
    TrimEmptyIff(password);
    FormChecksCoverApiChecks(email, password, AuthApi.Threw(AuthApi.Thrown(code, message)));
  }

  /** Signing in as `a@b.com` with `secret1` against an accepting provider goes to the dashboard. */
  lemma SuccessfulLoginExample(uid: string)
    ensures var s := SubmitOutcome("a@b.com", "secret1", AuthApi.Done(uid));
      s.navigateTo == Some(DashboardPath) && s.toast == Some(SuccessToast("Login successful!"))
      && s.attempt.Some? && s.attempt.value.providerEmail == Some("a@b.com")
  {
    assert !IsWhitespace('a') && !IsWhitespace('s') && !IsWhitespace('1') && !IsWhitespace('m');
    assert Trim("a@b.com") == "a@b.com";
    assert Trim("secret1") == "secret1";
  }
}
