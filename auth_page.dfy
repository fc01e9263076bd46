/** The sign-in / sign-up page: a mode flag, a loading flag, and the submit
    flow that calls the auth service for the current mode. */
module AuthPage {
  import opened Outcomes
  import AuthService

  /** The form's values; the username and full name fields exist only in
      sign-up mode. */
  datatype AuthFormData = AuthFormData(email: string, password: string, username: Option<string>, fullName: Option<string>)

  /** The service call `onSubmit` makes. */
  datatype AuthRequest = SignUpRequest(data: AuthService.SignUpData) | SignInRequest(email: string, password: string)

  const HomePath := "/"
  const MissingFieldsMessage := "Username and full name are required"
  const AccountCreatedMessage := "Account created successfully!"

  /** The gates a submit passes before `onSubmit` runs. The browser checks
      the `type="email"` field (an empty value passes there; `isEmail` is the
      browser's address grammar). Then the form library checks its rules:
      email and password are always required, and username and full name are
      required in sign-up mode, where they are rendered. Because the email is
      required, every submitted email has passed the browser's grammar. */
  predicate PassesRules(isEmail: string -> bool, isSignUp: bool, data: AuthFormData): (ok: bool)
    ensures ok ==> isEmail(data.email) && data.email != "" && data.password != ""
  {
    // The browser's gate on the `type="email"` input.
    && (data.email == "" || isEmail(data.email))
    // The form library's gate: its `required` rules.
    && data.email != "" && data.password != ""
    && (isSignUp ==> Truthy(data.username) && Truthy(data.fullName))
  }

  /** What the submit handler does for a mode and form: the service call it
      makes, if any. A sign-up with an empty username or full name makes none. */
  function RequestFor(isSignUp: bool, data: AuthFormData): (r: Option<AuthRequest>)
    ensures isSignUp && (!Truthy(data.username) || !Truthy(data.fullName)) <==> r.None?
    ensures r.Some? && r.value.SignUpRequest? ==>
              isSignUp && r.value.data == AuthService.SignUpData(data.email, data.password, data.username.value, data.fullName.value)
    ensures !isSignUp ==> r == Some(SignInRequest(data.email, data.password))
  {
    if !isSignUp then Some(SignInRequest(data.email, data.password))
    else if !Truthy(data.username) || !Truthy(data.fullName) then None
    else Some(SignUpRequest(AuthService.SignUpData(data.email, data.password, data.username.value, data.fullName.value)))
  }

  class AuthPage {
    var isSignUp: bool
    var isLoading: bool

    constructor ()
      ensures !isSignUp && !isLoading
    {
      isSignUp, isLoading := false, false;
    }

    /** The submit button is disabled while loading. */
    function SubmitDisabled(): bool
      reads this
    {
      isLoading
    }

    /** The mode link below the form. */
    method ToggleMode()
      modifies this
      ensures isSignUp == !old(isSignUp) && isLoading == old(isLoading)
    {
      isSignUp := !isSignUp;
    }

    /** The form's submit, with how the awaited service call settled. A form
        failing the browser's or the form library's checks is not submitted
        and nothing changes. A
        successful sign-up shows a notice and stays; a successful sign-in
        navigates home; any failure, the missing-fields check included, shows
        the error's message and stays. */
    method Submit(isEmail: string -> bool, data: AuthFormData, outcome: Settled<AuthService.AuthResult>)
      returns (submitted: bool, request: Option<AuthRequest>, navigateTo: Option<string>, toast: Option<Toast>)
      modifies this
      ensures submitted == PassesRules(isEmail, isSignUp, data)
      ensures isSignUp == old(isSignUp)
      ensures !submitted ==> request == None && navigateTo == None && toast == None && isLoading == old(isLoading)
      ensures submitted ==> request == RequestFor(isSignUp, data) && !isLoading
      ensures navigateTo == if request.Some? && request.value.SignInRequest? && outcome.Returned? then Some(HomePath) else None
      ensures submitted && request.None? ==> toast == Some(ErrorToast(MissingFieldsMessage))
      ensures request.Some? && outcome.Threw? ==> toast == Some(ErrorToast(outcome.error.message))
      ensures request.Some? && request.value.SignUpRequest? && outcome.Returned? ==> toast == Some(SuccessToast(AccountCreatedMessage))
      ensures navigateTo.Some? ==> toast == None
    {
      submitted, request, navigateTo, toast := false, None, None, None;
      if !PassesRules(isEmail, isSignUp, data) {
        return;
      }
      submitted := true;
      isLoading := true;
      request := RequestFor(isSignUp, data);
      if request.None? {
        toast := Some(ErrorToast(MissingFieldsMessage));
      } else if outcome.Threw? {
        toast := Some(ErrorToast(outcome.error.message));
      } else if request.value.SignUpRequest? {
        toast := Some(SuccessToast(AccountCreatedMessage));
      } else {
        navigateTo := Some(HomePath);
      }
      isLoading := false;
    }
  }

  /** The mode alone decides which service is called: sign-up mode never
      signs in, and sign-in mode always does, whatever the extra fields hold. */
  lemma ModeDecidesRequest(data: AuthFormData)
    ensures RequestFor(true, data).None? || RequestFor(true, data).value.SignUpRequest?
    ensures RequestFor(false, data) == RequestFor(false, data.(username := None, fullName := None))
  {
  }

  /** Behind the form's rules the handler's own missing-fields check never
      fires: every submitted form makes a service call, and it is a sign-up
      exactly in sign-up mode. */
  lemma RulesMakeFieldCheckRedundant(isEmail: string -> bool, isSignUp: bool, data: AuthFormData)
    requires PassesRules(isEmail, isSignUp, data)
    ensures RequestFor(isSignUp, data).Some?
    ensures RequestFor(isSignUp, data).value.SignUpRequest? <==> isSignUp
  {
  }
}
