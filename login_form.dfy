/** The login form: e-mail and password checked as the user leaves them and
    on submit, then a request to the login endpoint whose answer either
    sends the user on or shows a general error. */
module LoginForm {
  import opened Common
  import opened AuthValidation

  datatype LoginData = LoginData(email: string, password: string)

  datatype LoginErrors = LoginErrors(email: Option<string>, password: Option<string>, general: Option<string>)

  /** The JSON body posted to `/api/auth/login`. */
  datatype LoginRequest = LoginRequest(email: string, password: string)

  const NoErrors: LoginErrors := LoginErrors(None, None, None)
  const EmptyData: LoginData := LoginData("", "")
  const DefaultRedirect: string := "/dashboard"
  const LoginFailed: string := "Wystąpił błąd podczas logowania"

  /** `validateForm`'s new errors: one per failing field. The password only
      has to be there; no length is asked for at login. */
  function ValidationErrors(d: LoginData): (e: LoginErrors)
    ensures e.general.None?
    ensures e.email.None? <==> d.email != "" && MatchesEmailPattern(d.email)
    ensures e.password.None? <==> d.password != ""
  {
    LoginErrors(EmailIssue(d.email), LoginPasswordIssue(d.password), None)
  }

  predicate Passes(d: LoginData) {
    ValidationErrors(d) == NoErrors
  }

  lemma {:induction false} PassesIff(d: LoginData)
    ensures Passes(d) <==> d.email != "" && MatchesEmailPattern(d.email) && d.password != ""
  {
    var e := ValidationErrors(d);
    if d.email != "" && MatchesEmailPattern(d.email) && d.password != "" {
      assert e.email.None? && e.password.None?;
    }
  }

  /** `isValid`: both fields filled in. */
  predicate IsValid(d: LoginData) {
    d.email != "" && d.password != ""
  }

  /** Whatever passes validation enables the button, and a one-character
      password is enough for both. */
  lemma {:induction false} PassingFormIsValid(d: LoginData)
    ensures Passes(d) ==> IsValid(d)
    ensures IsValid(d) && MatchesEmailPattern(d.email) ==> Passes(d)
  {
    PassesIff(d);
  }

  /** What a submit leaves behind: the errors shown, the request sent and
      where the browser goes. */
  datatype SubmitResult = SubmitResult(errors: LoginErrors, request: Option<LoginRequest>, redirect: Option<string>)

  /** `handleSubmit`: a failing form shows its errors and sends nothing;
      otherwise the credentials are posted, a success goes to `redirectUrl`
      and anything else shows the server's error or the default one. */
  function SubmitOutcome(d: LoginData, redirectUrl: string, answer: ApiAnswer): (r: SubmitResult)
    ensures r.request.Some? <==> Passes(d)
    ensures r.request.Some? ==> r.request.value == LoginRequest(d.email, d.password)
    ensures r.redirect.Some? <==> Passes(d) && answer.Answered? && answer.ok
    ensures r.redirect.Some? ==> r.redirect.value == redirectUrl && r.errors == NoErrors
    ensures !Passes(d) ==> r.errors == ValidationErrors(d)
    ensures Passes(d) && answer.Thrown? ==> r.errors == LoginErrors(None, None, Some(LoginFailed))
    ensures Passes(d) && answer.Answered? && !answer.ok ==>
      r.errors == LoginErrors(None, None, Some(OrDefault(answer.error, LoginFailed)))
    ensures r.errors.general.Some? ==> r.errors.general.value != ""
  {
    if !Passes(d) then SubmitResult(ValidationErrors(d), None, None)
    else
      var request := Some(LoginRequest(d.email, d.password));
      match answer
      case Thrown => SubmitResult(LoginErrors(None, None, Some(LoginFailed)), request, None)
      case Answered(ok, error, _) =>
        if !ok then SubmitResult(LoginErrors(None, None, Some(OrDefault(error, LoginFailed))), request, None)
        else SubmitResult(NoErrors, request, Some(redirectUrl))
  }

  class LoginFormState {
    const redirectUrl: string
    var data: LoginData
    var errors: LoginErrors
    var isSubmitting: bool

    /** The `redirectUrl` prop defaults to the dashboard when it is not
        given. */
    constructor(redirectProp: Option<string>)
      ensures redirectUrl == (if redirectProp.Some? then redirectProp.value else DefaultRedirect)
      ensures data == EmptyData && errors == NoErrors && !isSubmitting
    {
      redirectUrl := if redirectProp.Some? then redirectProp.value else DefaultRedirect;
      data := EmptyData;
      errors := NoErrors;
      isSubmitting := false;
    }

    method ChangeEmail(value: string)
      modifies this
      ensures data == old(data).(email := value)
      ensures errors == old(errors).(email := None)
      ensures isSubmitting == old(isSubmitting)
    {
      data := data.(email := value);
      if errors.email.Some? {
        errors := errors.(email := None);
      }
    }

    method ChangePassword(value: string)
      modifies this
      ensures data == old(data).(password := value)
      ensures errors == old(errors).(password := None)
      ensures isSubmitting == old(isSubmitting)
    {
      data := data.(password := value);
      if errors.password.Some? {
        errors := errors.(password := None);
      }
    }

    method BlurEmail()
      modifies this
      ensures errors == old(errors).(email := Blurred(old(errors.email), EmailIssue(data.email)))
      ensures data == old(data) && isSubmitting == old(isSubmitting)
    {
      var issue := EmailIssue(data.email);
      if issue.Some? {
        errors := errors.(email := issue);
      }
    }

    method BlurPassword()
      modifies this
      ensures errors == old(errors).(password := Blurred(old(errors.password), LoginPasswordIssue(data.password)))
      ensures data == old(data) && isSubmitting == old(isSubmitting)
    {
      var issue := LoginPasswordIssue(data.password);
      if issue.Some? {
        errors := errors.(password := issue);
      }
    }

    method ValidateForm() returns (ok: bool)
      modifies this
      ensures errors == ValidationErrors(data)
      ensures ok <==> Passes(data)
      ensures data == old(data) && isSubmitting == old(isSubmitting)
    {
      var newErrors := NoErrors;
      var emailError := EmailIssue(data.email);
      var passwordError := LoginPasswordIssue(data.password);
      if emailError.Some? {
        newErrors := newErrors.(email := emailError);
      }
      if passwordError.Some? {
        newErrors := newErrors.(password := passwordError);
      }
      errors := newErrors;
      ok := newErrors == NoErrors;
    }

    /** `handleSubmit`, given what the login endpoint answers. */
    method Submit(answer: ApiAnswer) returns (request: Option<LoginRequest>, redirect: Option<string>)
      modifies this
      ensures SubmitResult(errors, request, redirect) == SubmitOutcome(old(data), redirectUrl, answer)
      ensures isSubmitting == (if request.Some? then false else old(isSubmitting))
      ensures data == old(data)
    {
      var ok := ValidateForm();
      if !ok {
        request, redirect := None, None;
        return;
      }
      isSubmitting := true;
      errors := NoErrors;
      request := Some(LoginRequest(data.email, data.password));
      redirect := None;
      match answer {
        case Thrown =>
          errors := LoginErrors(None, None, Some(LoginFailed));
        case Answered(responseOk, error, _) =>
          if !responseOk {
            errors := LoginErrors(None, None, Some(OrDefault(error, LoginFailed)));
          } else {
            redirect := Some(redirectUrl);
          }
      }
      isSubmitting := false;
    }
  }
}
