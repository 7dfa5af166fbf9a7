/** The registration form: three fields checked as the user leaves them
    and again on submit, a submit button enabled by a looser test than the
    full validation, and a placeholder submission that sends the user to
    the dashboard. */
module RegisterForm {
  import opened Common
  import opened AuthValidation

  datatype RegisterData = RegisterData(email: string, password: string, confirmPassword: string)

  datatype RegisterErrors = RegisterErrors(email: Option<string>, password: Option<string>,
                                           confirmPassword: Option<string>, general: Option<string>)

  const NoErrors: RegisterErrors := RegisterErrors(None, None, None, None)
  const EmptyData: RegisterData := RegisterData("", "", "")
  const RegisteredLocation: string := "/dashboard"

  /** `validateForm`'s new errors: one per failing field, and nothing else. */
  function ValidationErrors(d: RegisterData): (e: RegisterErrors)
    ensures e.general.None?
    ensures e.email.None? <==> d.email != "" && MatchesEmailPattern(d.email)
    ensures e.password.None? <==> |d.password| >= MinPasswordLength
    ensures e.confirmPassword.None? <==> d.confirmPassword != "" && d.confirmPassword == d.password
  {
    RegisterErrors(EmailIssue(d.email), NewPasswordIssue(d.password), ConfirmIssue(d.password, d.confirmPassword), None)
  }

  /** `validateForm` returns true: no field fails. */
  predicate Passes(d: RegisterData) {
    ValidationErrors(d) == NoErrors
  }

  lemma {:induction false} PassesIff(d: RegisterData)
    ensures Passes(d) <==>
      d.email != "" && MatchesEmailPattern(d.email) && |d.password| >= MinPasswordLength && d.confirmPassword == d.password
  {
    var e := ValidationErrors(d);
    if d.email != "" && MatchesEmailPattern(d.email) && |d.password| >= MinPasswordLength && d.confirmPassword == d.password {
      assert d.confirmPassword != "";
      assert e.email.None? && e.password.None? && e.confirmPassword.None?;
    }
  }

  /** `isValid`, which with `isSubmitting` decides whether the button is
      enabled. */
  predicate IsValid(d: RegisterData) {
    d.email != "" && d.password != "" && d.confirmPassword != ""
    && d.password == d.confirmPassword && |d.password| >= MinPasswordLength
  }

  /** The button asks for the password rules in full but only that some
      e-mail was typed: its format is left to the submit-time check. */
  lemma {:induction false} IsValidIff(d: RegisterData)
    ensures IsValid(d) <==>
      d.email != "" && ValidationErrors(d).password.None? && ValidationErrors(d).confirmPassword.None?
    ensures Passes(d) ==> IsValid(d)
  {
    PassesIff(d);
  }

  /** An address without `@` enables the button but fails on submit. */
  lemma MalformedEmailEnablesSubmit()
    ensures IsValid(RegisterData("ala", "12345678", "12345678"))
    ensures ValidationErrors(RegisterData("ala", "12345678", "12345678")).email == Some(EmailMalformed)
  {
    var d := RegisterData("ala", "12345678", "12345678");
    assert |d.password| == 8;
  }

  class RegisterFormState {
    var data: RegisterData
    var errors: RegisterErrors
    var isSubmitting: bool

    constructor()
      ensures data == EmptyData && errors == NoErrors && !isSubmitting
    {
      data := EmptyData;
      errors := NoErrors;
      isSubmitting := false;
    }

    /** `handleEmailChange`: stores the text and clears only the e-mail
        error. */
    method ChangeEmail(value: string)
      modifies this
      ensures data == old(data).(email := value)
      ensures errors == old(errors).(email := None)
      ensures isSubmitting == old(isSubmitting)
    {
      data := data.(email := value);
      if errors.email.Some? {
        errors := errors.(email := None);
      }
    }

    method ChangePassword(value: string)
      modifies this
      ensures data == old(data).(password := value)
      ensures errors == old(errors).(password := None)
      ensures isSubmitting == old(isSubmitting)
    {
      data := data.(password := value);
      if errors.password.Some? {
        errors := errors.(password := None);
      }
    }

    method ChangeConfirmPassword(value: string)
      modifies this
      ensures data == old(data).(confirmPassword := value)
      ensures errors == old(errors).(confirmPassword := None)
      ensures isSubmitting == old(isSubmitting)
    {
      data := data.(confirmPassword := value);
      if errors.confirmPassword.Some? {
        errors := errors.(confirmPassword := None);
      }
    }

    /** `handleEmailBlur`: records the e-mail problem, if any. */
    method BlurEmail()
      modifies this
      ensures errors == old(errors).(email := Blurred(old(errors.email), EmailIssue(data.email)))
      ensures data == old(data) && isSubmitting == old(isSubmitting)
    {
      var issue := EmailIssue(data.email);
      if issue.Some? {
        errors := errors.(email := issue);
      }
    }

    method BlurPassword()
      modifies this
      ensures errors == old(errors).(password := Blurred(old(errors.password), NewPasswordIssue(data.password)))
      ensures data == old(data) && isSubmitting == old(isSubmitting)
    {
      var issue := NewPasswordIssue(data.password);
      if issue.Some? {
        errors := errors.(password := issue);
      }
    }

    method BlurConfirmPassword()
      modifies this
      ensures errors == old(errors).(confirmPassword :=
        Blurred(old(errors.confirmPassword), ConfirmIssue(data.password, data.confirmPassword)))
      ensures data == old(data) && isSubmitting == old(isSubmitting)
    {
      var issue := ConfirmIssue(data.password, data.confirmPassword);
      if issue.Some? {
        errors := errors.(confirmPassword := issue);
      }
    }

    /** `validateForm`: replaces the errors by the failing fields' ones. */
    method ValidateForm() returns (ok: bool)
      modifies this
      ensures errors == ValidationErrors(data)
      ensures ok <==> Passes(data)
      ensures data == old(data) && isSubmitting == old(isSubmitting)
    {
      var newErrors := NoErrors;
      var emailError := EmailIssue(data.email);
      var passwordError := NewPasswordIssue(data.password);
      var confirmError := ConfirmIssue(data.password, data.confirmPassword);
      if emailError.Some? {
        newErrors := newErrors.(email := emailError);
      }
      if passwordError.Some? {
        newErrors := newErrors.(password := passwordError);
      }
      if confirmError.Some? {
        newErrors := newErrors.(confirmPassword := confirmError);
      }
      errors := newErrors;
      ok := newErrors == NoErrors;
    }

    /** `handleSubmit`: a form that fails validation shows its errors and
        goes nowhere; one that passes clears them and moves to the
        dashboard. */
    method Submit() returns (redirect: Option<string>)
      modifies this
      ensures redirect.Some? <==> Passes(old(data))
      ensures redirect.Some? ==> redirect.value == RegisteredLocation && errors == NoErrors
      ensures redirect.None? ==> errors == ValidationErrors(old(data)) && isSubmitting == old(isSubmitting)
      ensures redirect.Some? ==> !isSubmitting
      ensures data == old(data)
    {
      var ok := ValidateForm();
      if !ok {
        redirect := None;
        return;
      }
      isSubmitting := true;
      errors := NoErrors;
      redirect := Some(RegisteredLocation);
      isSubmitting := false;
    }
  }
}
