/** The pet form's logic: its starting values, the name and species rules,
    change detection in edit mode, the payload it submits and how it reacts
    to the answer. */
module PetForm {
  import opened Common
  import opened PetNames

  datatype PetFormMode = CreateMode | EditMode

  /** The form's values; a species not yet chosen is `None` (the empty
      string of the form). */
  datatype PetFormValues = PetFormValues(name: string, species: Option<Species>)

  /** The pet an edit form is opened with. */
  datatype PetData = PetData(id: string, name: string, species: Species)

  /** `defaultValues`: the pet's own name and species only in edit mode with
      data, otherwise both empty. */
  function DefaultValues(mode: PetFormMode, initialData: Option<PetData>): (v: PetFormValues)
    ensures mode == EditMode && initialData.Some? ==>
      v == PetFormValues(initialData.value.name, Some(initialData.value.species))
    ensures !(mode == EditMode && initialData.Some?) ==> v == PetFormValues("", None)
  {
    if mode == EditMode && initialData.Some? then PetFormValues(initialData.value.name, Some(initialData.value.species))
    else PetFormValues("", None)
  }

  /** `initialName`: the name the edit form started from. */
  function InitialName(mode: PetFormMode, initialData: Option<PetData>): string {
    DefaultValues(mode, initialData).name
  }

  /** `isUnchanged`: in edit mode, the trimmed name equals the initial one
      (the initial name itself is not trimmed). */
  predicate IsUnchanged(mode: PetFormMode, name: string, initialName: string) {
    mode == EditMode && Trim(name) == initialName
  }

  /** An edit form opened on a pet whose stored name is already trimmed, as
      the server's validation keeps every name, starts unchanged; typing a
      name with a different trimmed form changes it; a create form is never
      unchanged. */
  lemma {:induction false} EditFormStartsUnchanged(p: PetData, name: string)
    requires Trim(p.name) == p.name
    ensures IsUnchanged(EditMode, DefaultValues(EditMode, Some(p)).name, InitialName(EditMode, Some(p)))
    ensures Trim(name) != p.name ==> !IsUnchanged(EditMode, name, InitialName(EditMode, Some(p)))
    ensures !IsUnchanged(CreateMode, name, InitialName(CreateMode, Some(p)))
  {
  }

  const NameRequiredMessage: string := "Imię jest wymagane"
  const NameTooLongMessage: string := "Imię może mieć maksymalnie 50 znaków"
  const SpeciesRequiredMessage: string := "Gatunek jest wymagany"

  /** `validateName`: the message for a name that fails, `None` for one that
      passes. */
  function NameRule(value: string): (m: Option<string>)
    ensures m.None? <==> 1 <= |Trim(value)| <= MaxNameLength
    ensures |Trim(value)| == 0 ==> m == Some(NameRequiredMessage)
    ensures |Trim(value)| > MaxNameLength ==> m == Some(NameTooLongMessage)
  {
    var trimmed := Trim(value);
    if |trimmed| == 0 then Some(NameRequiredMessage)
    else if |trimmed| > MaxNameLength then Some(NameTooLongMessage)
    else None
  }

  /** `validateSpecies`: an empty species is refused only when creating. */
  function SpeciesRule(mode: PetFormMode, species: Option<Species>): (m: Option<string>)
    ensures m.None? <==> mode.EditMode? || species.Some?
    ensures m.Some? ==> m.value == SpeciesRequiredMessage
  {
    if mode == CreateMode && species.None? then Some(SpeciesRequiredMessage) else None
  }

  /** The form accepts exactly the names the server's create validation
      accepts. */
  lemma NameRuleMatchesServer(value: string)
    ensures NameRule(value).None? <==> NameIssue(Str(value)).None?
  {
  }

  /** The name of a species parses back to it. */
  lemma SpeciesNameParses(s: Species)
    ensures ParseSpecies(Str(SpeciesName(s))) == Some(s)
  {
    match s
    case Dog =>
    case Cat =>
    case Other =>
  }

  /** The payload of a submission: a new pet's trimmed name and species, or
      an edited pet's trimmed name alone. */
  datatype PetRequest =
    | CreatePetRequest(name: string, species: Species)
    | UpdatePetRequest(petId: string, name: string)

  /** How a request ends: the saved pet's id, an API error with its status
      and body message, or an error without a status. */
  datatype PetAnswer = Saved(id: string) | ApiFailed(status: int, message: Option<string>) | Failed(isTypeError: bool)

  /** What the user sees besides the form: a toast, a redirect, and the id
      passed to the `onSuccess` callback. */
  datatype Effect = Effect(toast: Option<string>, redirect: Option<string>, callbackId: Option<string>)

  /** The form's errors: per field and the root (form-wide) error. */
  datatype PetFormErrors = PetFormErrors(name: Option<string>, species: Option<string>, root: Option<string>)

  const DuplicateName: string := "Zwierzę o tej nazwie już istnieje"

  /** `handleApiError`: the toast, the errors it sets, and the redirect. */
  function HandleApiError(errors: PetFormErrors, status: int, message: Option<string>): (r: (PetFormErrors, Effect))
    ensures r.0.name != errors.name ==> status == 409 && r.0.name == Some(DuplicateName)
    ensures status == 409 ==> r.0.name == Some(DuplicateName) && r.1.redirect.None?
    ensures r.0.root != errors.root ==> status == 400 && message.Some? && r.0.root == message
    ensures r.0.species == errors.species
    ensures r.1.redirect.Some? <==> status in {401, 403, 404}
    ensures r.1.redirect.Some? ==> r.1.redirect.value in {"/", "/dashboard"}
    ensures r.1.toast.Some? && r.1.callbackId.None?
    ensures status == 400 && message.Some? && message.value != "" ==> r.0 == errors.(root := message)
    ensures status == 400 && (message.None? || message.value == "") ==> r.0 == errors
    ensures status == 400 ==> r.1 == Effect(Some("Sprawdź poprawność danych"), None, None)
    ensures status == 401 ==> r == (errors, Effect(Some("Sesja wygasła"), Some("/"), None))
    ensures status == 403 ==> r == (errors, Effect(Some("Brak dostępu do tego zwierzęcia"), Some("/dashboard"), None))
    ensures status == 404 ==> r == (errors, Effect(Some("Zwierzę nie znalezione"), Some("/dashboard"), None))
    ensures status == 409 ==> r == (errors.(name := Some(DuplicateName)), Effect(Some(DuplicateName), None, None))
    ensures status == 500 ==> r == (errors, Effect(Some("Coś poszło nie tak. Spróbuj ponownie."), None, None))
    ensures status !in {400, 401, 403, 404, 409, 500} ==>
      r == (errors, Effect(Some("Wystąpił nieoczekiwany błąd"), None, None))
  {
    if status == 400 then
      (if message.Some? && message.value != "" then errors.(root := message) else errors,
       Effect(Some("Sprawdź poprawność danych"), None, None))
    else if status == 401 then (errors, Effect(Some("Sesja wygasła"), Some("/"), None))
    else if status == 403 then (errors, Effect(Some("Brak dostępu do tego zwierzęcia"), Some("/dashboard"), None))
    else if status == 404 then (errors, Effect(Some("Zwierzę nie znalezione"), Some("/dashboard"), None))
    else if status == 409 then (errors.(name := Some(DuplicateName)), Effect(Some(DuplicateName), None, None))
    else if status == 500 then (errors, Effect(Some("Coś poszło nie tak. Spróbuj ponownie."), None, None))
    else (errors, Effect(Some("Wystąpił nieoczekiwany błąd"), None, None))
  }

  /** The request `onSubmit` sends for values that passed the rules; `None`
      when an edit has no pet id. */
  function SubmitRequest(mode: PetFormMode, petId: Option<string>, v: PetFormValues): (r: Option<PetRequest>)
    requires SpeciesRule(mode, v.species).None?
    ensures mode == CreateMode ==> r == Some(CreatePetRequest(Trim(v.name), v.species.value))
    ensures mode == EditMode ==> (r.None? <==> petId.None? || petId.value == "")
    ensures r.Some? ==> r.value.name == Trim(v.name)
    ensures r.Some? && r.value.UpdatePetRequest? ==> r.value.petId == petId.value
  {
    match mode
    case CreateMode => Some(CreatePetRequest(Trim(v.name), v.species.value))
    case EditMode => if petId.None? || petId.value == "" then None else Some(UpdatePetRequest(petId.value, Trim(v.name)))
  }

  /** The outcome of `submitHandler`: the rules run first and block the
      submission with their messages; a request that succeeds toasts and
      hands the saved id to the callback or navigates to the pet. */
  function SubmitOutcome(mode: PetFormMode, petId: Option<string>, hasOnSuccess: bool, v: PetFormValues,
                         errors: PetFormErrors, answer: PetAnswer): (o: (PetFormErrors, Option<PetRequest>, Effect))
    ensures NameRule(v.name).Some? || SpeciesRule(mode, v.species).Some? ==>
      o == (errors.(name := NameRule(v.name), species := SpeciesRule(mode, v.species)), None, Effect(None, None, None))
    ensures o.1.Some? ==> (NameRule(v.name).None? && SpeciesRule(mode, v.species).None?
      && o.1 == SubmitRequest(mode, petId, v))
    ensures o.1.Some? && answer.Saved? ==>
      o.0 == errors && o.2.callbackId == (if hasOnSuccess then Some(answer.id) else None)
      && o.2.redirect == (if hasOnSuccess then None else Some("/pets/" + answer.id))
    ensures o.2.callbackId.Some? ==> o.1.Some? && answer.Saved?
    ensures NameRule(v.name).None? && SpeciesRule(mode, v.species).None? && SubmitRequest(mode, petId, v).None? ==>
      o == (errors, None, Effect(Some("Wystąpił błąd"), None, None))
    ensures NameRule(v.name).None? && SpeciesRule(mode, v.species).None? && SubmitRequest(mode, petId, v).Some? ==>
      o == (AnswerOutcome(mode, hasOnSuccess, errors, answer).0, SubmitRequest(mode, petId, v),
            AnswerOutcome(mode, hasOnSuccess, errors, answer).1)
  {
    var nameError := NameRule(v.name);
    var speciesError := SpeciesRule(mode, v.species);
    if nameError.Some? || speciesError.Some? then
      (errors.(name := nameError, species := speciesError), None, Effect(None, None, None))
    else
      match SubmitRequest(mode, petId, v)
      case None => (errors, None, Effect(Some("Wystąpił błąd"), None, None))
      case Some(request) =>
        var a := AnswerOutcome(mode, hasOnSuccess, errors, answer);
        (a.0, Some(request), a.1)
  }

  /** What the form does with the server's answer to a request it sent: a
      save shows its notice and hands the id to the callback or navigates to
      the pet's page; a refusal goes through `handleApiError`; a failed fetch
      shows a connection or a generic error. */
  function AnswerOutcome(mode: PetFormMode, hasOnSuccess: bool, errors: PetFormErrors, answer: PetAnswer)
    : (o: (PetFormErrors, Effect))
    ensures answer.Saved? ==>
      o.0 == errors && o.1.callbackId == (if hasOnSuccess then Some(answer.id) else None)
      && o.1.redirect == (if hasOnSuccess then None else Some("/pets/" + answer.id))
    ensures o.1.callbackId.Some? ==> answer.Saved?
    ensures answer.Saved? ==>
      o.1.toast == Some(if mode == CreateMode then "Zwierzę zostało dodane" else "Zmiany zostały zapisane")
    ensures answer.ApiFailed? ==> o == HandleApiError(errors, answer.status, answer.message)
    ensures answer.Failed? ==> o.0 == errors && o.1.redirect.None? && o.1.toast.Some?
    ensures answer.Failed? ==> o.1 == Effect(
      Some(if answer.isTypeError then "Brak połączenia. Sprawdź internet." else "Wystąpił nieoczekiwany błąd"), None, None)
  {
    match answer
    case Saved(id) =>
      (errors,
       Effect(Some(if mode == CreateMode then "Zwierzę zostało dodane" else "Zmiany zostały zapisane"),
              if hasOnSuccess then None else Some("/pets/" + id),
              if hasOnSuccess then Some(id) else None))
    case ApiFailed(status, message) => HandleApiError(errors, status, message)
    case Failed(isTypeError) =>
      (errors, Effect(Some(if isTypeError then "Brak połączenia. Sprawdź internet." else "Wystąpił nieoczekiwany błąd"), None, None))
  }

  /** Exactly which answers touch the form: only a 400 with a new non-empty
      message changes the root error, only a 409 puts the duplicate message
      on the name, and the page is left exactly after a save without a
      callback or after a 401, 403 or 404. */
  lemma {:induction false} AnswerChangesIff(mode: PetFormMode, hasOnSuccess: bool, errors: PetFormErrors, answer: PetAnswer)
    ensures var o := AnswerOutcome(mode, hasOnSuccess, errors, answer);
      && (o.0.root != errors.root <==>
            answer.ApiFailed? && answer.status == 400 && answer.message.Some? && answer.message.value != ""
            && answer.message != errors.root)
      && (o.0.name != errors.name <==>
            answer.ApiFailed? && answer.status == 409 && errors.name != Some(DuplicateName))
      && o.0.species == errors.species
      && (o.1.redirect.Some? <==>
            (answer.Saved? && !hasOnSuccess) || (answer.ApiFailed? && answer.status in {401, 403, 404}))
  {
  }

  /** A name and species the rules accept pass the server's create
      validation, which stores the same trimmed name the form sends. */
  lemma {:induction false} SubmittedPetPassesServer(v: PetFormValues, species: Species)
    requires NameRule(v.name).None? && v.species == Some(species)
    ensures SubmitRequest(CreateMode, None, v) == Some(CreatePetRequest(Trim(v.name), species))
    ensures ValidateCreatePet(Str(v.name), Str(SpeciesName(species))) == Valid(CreatePetCommand(Trim(v.name), species))
  {
    SpeciesNameParses(species);
  }

  /** The form's state as react-hook-form keeps it. */
  class PetFormState {
    const mode: PetFormMode
    const petId: Option<string>
    const hasOnSuccess: bool
    var values: PetFormValues
    var errors: PetFormErrors

    /** The form after `reset(defaultValues)`. */
    constructor (mode: PetFormMode, petId: Option<string>, initialData: Option<PetData>, hasOnSuccess: bool)
      ensures this.mode == mode && this.petId == petId && this.hasOnSuccess == hasOnSuccess
      ensures values == DefaultValues(mode, initialData)
      ensures errors == PetFormErrors(None, None, None)
    {
      this.mode, this.petId, this.hasOnSuccess := mode, petId, hasOnSuccess;
      values := DefaultValues(mode, initialData);
      errors := PetFormErrors(None, None, None);
    }

    /** Typing a name re-validates it (validation runs on change). */
    method SetName(name: string)
      modifies this
      ensures values == old(values).(name := name)
      ensures errors == old(errors).(name := NameRule(name))
    {
      values := values.(name := name);
      errors := errors.(name := NameRule(name));
    }

    /** Choosing a species re-validates it. */
    method SetSpecies(species: Species)
      modifies this
      ensures values == old(values).(species := Some(species))
      ensures errors == old(errors).(species := None)
    {
      values := values.(species := Some(species));
      errors := errors.(species := SpeciesRule(mode, Some(species)));
    }

    /** `submitHandler`, with the request's answer given. */
    method Submit(answer: PetAnswer) returns (request: Option<PetRequest>, effect: Effect)
      modifies this
      ensures values == old(values)
      ensures (errors, request, effect) == SubmitOutcome(mode, petId, hasOnSuccess, values, old(errors), answer)
    {
      ghost var outcome := SubmitOutcome(mode, petId, hasOnSuccess, values, errors, answer);
      var nameError := NameRule(values.name);
      var speciesError := SpeciesRule(mode, values.species);
      if nameError.Some? || speciesError.Some? {
        errors := errors.(name := nameError, species := speciesError);
        return None, Effect(None, None, None);
      }
      request := SubmitRequest(mode, petId, values);
      if request.None? {
        assert outcome == (errors, None, Effect(Some("Wystąpił błąd"), None, None));
        return None, Effect(Some("Wystąpił błąd"), None, None);
      }
      ghost var a := AnswerOutcome(mode, hasOnSuccess, errors, answer);
      assert outcome == (a.0, request, a.1);
      effect := ApplyAnswer(answer);
      assert (errors, effect) == a;
    }

    /** The `try` block after the request is sent, and its `catch`. */
    method ApplyAnswer(answer: PetAnswer) returns (effect: Effect)
      modifies this
      ensures values == old(values)
      ensures (errors, effect) == AnswerOutcome(mode, hasOnSuccess, old(errors), answer)
    {
      match answer {
        case Saved(id) =>
          effect := Effect(Some(if mode == CreateMode then "Zwierzę zostało dodane" else "Zmiany zostały zapisane"),
                           if hasOnSuccess then None else Some("/pets/" + id),
                           if hasOnSuccess then Some(id) else None);
        case ApiFailed(status, message) =>
          var r := HandleApiError(errors, status, message);
          errors, effect := r.0, r.1;
        case Failed(isTypeError) =>
          effect := Effect(Some(if isTypeError then "Brak połączenia. Sprawdź internet." else "Wystąpił nieoczekiwany błąd"),
                           None, None);
      }
    }
  }
}
