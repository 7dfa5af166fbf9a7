/** The form that asks for a password-reset link. An invalid address sends
    nothing; a refused request shows an error; a request that succeeds and
    one that fails to reach the server end the same way, so the page never
    tells whether an account exists. */
module ResetPasswordRequestForm {
  import opened Common
  import opened AuthValidation

  const RequestFailed: string := "Wystąpił błąd podczas wysyłania linku resetującego"
  const LinkSent: string := "Jeśli konto istnieje, wysłaliśmy link resetujący na podany adres email"

  /** The form's state: the address, the one error line, and the two flags. */
  datatype RequestState = RequestState(email: string, error: Option<string>, isSubmitting: bool, isSuccess: bool)

  /** `isValid`, which with `isSubmitting` decides whether the button is
      enabled: some address, and no error showing. */
  predicate IsValid(s: RequestState) {
    s.email != "" && s.error.None?
  }

  predicate SubmitEnabled(s: RequestState) {
    IsValid(s) && !s.isSubmitting
  }

  datatype SubmitResult = SubmitResult(state: RequestState, request: Option<string>, toast: Option<string>)

  /** `handleSubmit`: the address is checked first and nothing is sent when
      it fails; otherwise it is posted, a refusal shows the server's error
      (or a default) and leaves the form, and both a success and an
      exception switch to the "check your inbox" view. */
  function SubmitOutcome(s: RequestState, answer: ApiAnswer): (r: SubmitResult)
    ensures r.request.Some? <==> EmailIssue(s.email).None?
    ensures r.request.Some? ==> r.request.value == s.email
    ensures r.request.None? ==> r.state == s.(error := EmailIssue(s.email)) && r.toast.None?
    ensures r.state.email == s.email
    ensures r.request.Some? ==> !r.state.isSubmitting
    ensures r.state.isSuccess <==> s.isSuccess || (r.request.Some? && !(answer.Answered? && !answer.ok))
    ensures r.request.Some? && answer.Answered? && !answer.ok ==>
      r.state.error == Some(OrDefault(answer.error, RequestFailed)) && r.toast.None?
    ensures r.request.Some? && answer.Thrown? ==> r.state.error.None? && r.toast == Some(LinkSent)
    ensures r.request.Some? && answer.Answered? && answer.ok ==>
      r.state.error.None? && r.toast == Some(OrDefault(answer.message, LinkSent))
  {
    var issue := EmailIssue(s.email);
    if issue.Some? then SubmitResult(s.(error := issue), None, None)
    else
      var sent := s.(error := None, isSubmitting := false);
      match answer
      case Thrown => SubmitResult(sent.(isSuccess := true), Some(s.email), Some(LinkSent))
      case Answered(ok, error, message) =>
        if !ok then SubmitResult(sent.(error := Some(OrDefault(error, RequestFailed))), Some(s.email), None)
        else SubmitResult(sent.(isSuccess := true), Some(s.email), Some(OrDefault(message, LinkSent)))
  }

  /** Whether an account exists cannot be read off the form: a success
      without a message and an exception lead to the same state and the same
      notice. */
  lemma {:induction false} SuccessIndistinguishableFromFailure(s: RequestState, error: Option<string>)
    requires EmailIssue(s.email).None?
    ensures SubmitOutcome(s, Answered(true, error, None)) == SubmitOutcome(s, Thrown)
    ensures SubmitOutcome(s, Thrown).state.isSuccess
  {
    assert OrDefault(None, LinkSent) == LinkSent;
  }

  /** An address that fails the check is never sent, whatever the server
      would have answered. */
  lemma {:induction false} InvalidEmailSendsNothing(s: RequestState, a1: ApiAnswer, a2: ApiAnswer)
    requires EmailIssue(s.email).Some?
    ensures SubmitOutcome(s, a1) == SubmitOutcome(s, a2)
    ensures SubmitOutcome(s, a1).request.None? && !IsValid(SubmitOutcome(s, a1).state)
  {
  }

  class ResetPasswordRequestFormState {
    var email: string
    var error: Option<string>
    var isSubmitting: bool
    var isSuccess: bool

    function State(): RequestState
      reads this
    {
      RequestState(email, error, isSubmitting, isSuccess)
    }

    constructor()
      ensures State() == RequestState("", None, false, false)
    {
      email := "";
      error := None;
      isSubmitting := false;
      isSuccess := false;
    }

    /** `handleEmailChange`: typing clears the error, so the button can be
        enabled again. */
    method ChangeEmail(value: string)
      modifies this
      ensures State() == old(State()).(email := value, error := None)
      ensures value != "" && !isSubmitting ==> SubmitEnabled(State())
    {
      email := value;
      if error.Some? {
        error := None;
      }
    }

    /** `handleEmailBlur`: shows the address's problem, if it has one. */
    method BlurEmail()
      modifies this
      ensures State() == old(State()).(error := Blurred(old(error), EmailIssue(email)))
      ensures EmailIssue(email).Some? ==> !SubmitEnabled(State())
    {
      var validationError := EmailIssue(email);
      if validationError.Some? {
        error := validationError;
      }
    }

    /** `handleSubmit`, given what the reset endpoint answers. */
    method Submit(answer: ApiAnswer) returns (request: Option<string>, toast: Option<string>)
      modifies this
      ensures SubmitResult(State(), request, toast) == SubmitOutcome(old(State()), answer)
    {
      var validationError := EmailIssue(email);
      if validationError.Some? {
        error := validationError;
        request, toast := None, None;
        return;
      }
      isSubmitting := true;
      error := None;
      request := Some(email);
      toast := None;
      match answer {
        case Thrown =>
          toast := Some(LinkSent);
          isSuccess := true;
        case Answered(ok, responseError, message) =>
          if !ok {
            error := Some(OrDefault(responseError, RequestFailed));
          } else {
            toast := Some(OrDefault(message, LinkSent));
            isSuccess := true;
          }
      }
      isSubmitting := false;
    }
  }
}
