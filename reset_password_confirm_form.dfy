/** The form that sets a new password with the token from a reset link:
    the two password fields follow the registration rules, and the request
    carries the token given to the form together with the new password. */
module ResetPasswordConfirmForm {
  import opened Common
  import opened AuthValidation

  datatype PasswordData = PasswordData(password: string, confirmPassword: string)

  datatype PasswordErrors = PasswordErrors(password: Option<string>, confirmPassword: Option<string>, general: Option<string>)

  /** The JSON body posted to `/api/auth/reset-password/confirm`. */
  datatype ConfirmRequest = ConfirmRequest(accessToken: string, newPassword: string)

  datatype Effect = Effect(toast: Option<string>, redirect: Option<string>)

  const NoErrors: PasswordErrors := PasswordErrors(None, None, None)
  const EmptyData: PasswordData := PasswordData("", "")
  const ChangeFailed: string := "Nie udało się zmienić hasła"
  const PasswordChanged: string := "Hasło zostało zmienione"
  const LoginLocation: string := "/login"

  /** `validateForm` looks at the two password fields only. */
  function ValidationErrors(d: PasswordData): (e: PasswordErrors)
    ensures e.general.None?
    ensures e.password.None? <==> |d.password| >= MinPasswordLength
    ensures e.confirmPassword.None? <==> d.confirmPassword != "" && d.confirmPassword == d.password
  {
    PasswordErrors(NewPasswordIssue(d.password), ConfirmIssue(d.password, d.confirmPassword), None)
  }

  predicate Passes(d: PasswordData) {
    ValidationErrors(d) == NoErrors
  }

  /** `isValid`. */
  predicate IsValid(d: PasswordData) {
    d.password != "" && d.confirmPassword != "" && d.password == d.confirmPassword && |d.password| >= MinPasswordLength
  }

  /** Here the button and the submit-time check agree exactly: both ask for
      two equal passwords of at least eight characters. */
  lemma {:induction false} IsValidIffPasses(d: PasswordData)
    ensures IsValid(d) <==> Passes(d)
    ensures Passes(d) <==> |d.password| >= MinPasswordLength && d.confirmPassword == d.password
  {
    var e := ValidationErrors(d);
    if |d.password| >= MinPasswordLength && d.confirmPassword == d.password {
      assert d.confirmPassword != "";
      assert e.password.None? && e.confirmPassword.None?;
    }
  }

  datatype SubmitResult = SubmitResult(errors: PasswordErrors, request: Option<ConfirmRequest>, effect: Effect)

  /** `handleSubmit`: a passing form posts the token and the new password;
      success shows the server's message (or a default) and goes to the login
      page, failure shows the server's error (or a default). */
  function SubmitOutcome(d: PasswordData, accessToken: string, answer: ApiAnswer): (r: SubmitResult)
    ensures r.request.Some? <==> Passes(d)
    ensures r.request.Some? ==> r.request.value == ConfirmRequest(accessToken, d.password)
    ensures r.effect.redirect.Some? <==> Passes(d) && answer.Answered? && answer.ok
    ensures r.effect.redirect.Some? ==>
      r.effect.redirect.value == LoginLocation && r.errors == NoErrors
      && r.effect.toast == Some(OrDefault(answer.message, PasswordChanged))
    ensures r.effect.redirect.None? ==> r.effect.toast.None?
    ensures !Passes(d) ==> r.errors == ValidationErrors(d)
    ensures Passes(d) && answer.Thrown? ==> r.errors == PasswordErrors(None, None, Some(ChangeFailed))
    ensures Passes(d) && answer.Answered? && !answer.ok ==>
      r.errors == PasswordErrors(None, None, Some(OrDefault(answer.error, ChangeFailed)))
  {
    if !Passes(d) then SubmitResult(ValidationErrors(d), None, Effect(None, None))
    else
      var request := Some(ConfirmRequest(accessToken, d.password));
      match answer
      case Thrown => SubmitResult(PasswordErrors(None, None, Some(ChangeFailed)), request, Effect(None, None))
      case Answered(ok, error, message) =>
        if !ok then SubmitResult(PasswordErrors(None, None, Some(OrDefault(error, ChangeFailed))), request, Effect(None, None))
        else SubmitResult(NoErrors, request, Effect(Some(OrDefault(message, PasswordChanged)), Some(LoginLocation)))
  }

  class ResetPasswordConfirmFormState {
    const accessToken: string
    var data: PasswordData
    var errors: PasswordErrors
    var isSubmitting: bool

    constructor(accessToken: string)
      ensures this.accessToken == accessToken
      ensures data == EmptyData && errors == NoErrors && !isSubmitting
    {
      this.accessToken := accessToken;
      data := EmptyData;
      errors := NoErrors;
      isSubmitting := false;
    }

    method ChangePassword(value: string)
      modifies this
      ensures data == old(data).(password := value)
      ensures errors == old(errors).(password := None)
      ensures isSubmitting == old(isSubmitting)
    {
      data := data.(password := value);
      if errors.password.Some? {
        errors := errors.(password := None);
      }
    }

    method ChangeConfirmPassword(value: string)
      modifies this
      ensures data == old(data).(confirmPassword := value)
      ensures errors == old(errors).(confirmPassword := None)
      ensures isSubmitting == old(isSubmitting)
    {
      data := data.(confirmPassword := value);
      if errors.confirmPassword.Some? {
        errors := errors.(confirmPassword := None);
      }
    }

    method BlurPassword()
      modifies this
      ensures errors == old(errors).(password := Blurred(old(errors.password), NewPasswordIssue(data.password)))
      ensures data == old(data) && isSubmitting == old(isSubmitting)
    {
      var issue := NewPasswordIssue(data.password);
      if issue.Some? {
        errors := errors.(password := issue);
      }
    }

    method BlurConfirmPassword()
      modifies this
      ensures errors == old(errors).(confirmPassword :=
        Blurred(old(errors.confirmPassword), ConfirmIssue(data.password, data.confirmPassword)))
      ensures data == old(data) && isSubmitting == old(isSubmitting)
    {
      var issue := ConfirmIssue(data.password, data.confirmPassword);
      if issue.Some? {
        errors := errors.(confirmPassword := issue);
      }
    }

    method ValidateForm() returns (ok: bool)
      modifies this
      ensures errors == ValidationErrors(data)
      ensures ok <==> Passes(data)
      ensures data == old(data) && isSubmitting == old(isSubmitting)
    {
      var newErrors := NoErrors;
      var passwordError := NewPasswordIssue(data.password);
      var confirmError := ConfirmIssue(data.password, data.confirmPassword);
      if passwordError.Some? {
        newErrors := newErrors.(password := passwordError);
      }
      if confirmError.Some? {
        newErrors := newErrors.(confirmPassword := confirmError);
      }
      errors := newErrors;
      ok := newErrors == NoErrors;
    }

    /** `handleSubmit`, given what the confirm endpoint answers. */
    method Submit(answer: ApiAnswer) returns (request: Option<ConfirmRequest>, effect: Effect)
      modifies this
      ensures SubmitResult(errors, request, effect) == SubmitOutcome(old(data), accessToken, answer)
      ensures isSubmitting == (if request.Some? then false else old(isSubmitting))
      ensures data == old(data)
    {
      var ok := ValidateForm();
      if !ok {
        request, effect := None, Effect(None, None);
        return;
      }
      isSubmitting := true;
      errors := NoErrors;
      request := Some(ConfirmRequest(accessToken, data.password));
      effect := Effect(None, None);
      match answer {
        case Thrown =>
          errors := PasswordErrors(None, None, Some(ChangeFailed));
        case Answered(responseOk, error, message) =>
          if !responseOk {
            errors := PasswordErrors(None, None, Some(OrDefault(error, ChangeFailed)));
          } else {
            effect := Effect(Some(OrDefault(message, PasswordChanged)), Some(LoginLocation));
          }
      }
      isSubmitting := false;
    }
  }
}
