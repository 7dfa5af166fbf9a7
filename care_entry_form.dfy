/** The form that adds or edits one care-history entry: its validity, the
    change detection of edit mode, the command or partial update it sends,
    how it reacts to the server's answer, and the state it keeps. */
module CareEntryForm {
  import opened Common
  import CareEntries

  /** The six care categories. */
  datatype Category = VetVisit | Medication | Grooming | Food | HealthEvent | NoteCategory

  datatype Mode = Create | Edit

  /** The form's values. The date is kept as the day string the form sends
      and compares (`YYYY-MM-DD`); the date object itself is not modelled. */
  datatype FormData = FormData(category: Option<Category>, entryDay: string, note: string)

  /** A stored entry as the edit form receives it; a null note is `None`. */
  datatype StoredEntry = StoredEntry(category: Category, entryDay: string, note: Option<string>)

  /** The values the form starts from: the entry's own in edit mode with an
      entry, otherwise no category, today's date and an empty note. */
  function InitialFormData(mode: Mode, initialData: Option<StoredEntry>, today: string): (f: FormData)
    ensures f.category.Some? <==> mode == Edit && initialData.Some?
    ensures f.category.Some? ==> f == FormData(Some(initialData.value.category), initialData.value.entryDay,
                                               CareEntries.NoteText(initialData.value.note))
    ensures f.category.None? ==> f.entryDay == today && f.note == ""
  {
    if mode == Edit && initialData.Some? then
      FormData(Some(initialData.value.category), initialData.value.entryDay, CareEntries.NoteText(initialData.value.note))
    else FormData(None, today, "")
  }

  /** `isValid`: a category is chosen. */
  predicate IsValid(f: FormData) {
    f.category.Some?
  }

  /** `isUnchanged`: only in edit mode, and only when the category, the day
      and the trimmed note all equal the initial ones. */
  predicate IsUnchanged(mode: Mode, f: FormData, init: FormData) {
    mode == Edit && f.category == init.category && f.entryDay == init.entryDay && Trim(f.note) == Trim(init.note)
  }

  /** `isSubmitDisabled`. */
  predicate IsSubmitDisabled(mode: Mode, f: FormData, init: FormData, isSubmitting: bool) {
    !IsValid(f) || isSubmitting || (mode == Edit && IsUnchanged(mode, f, init))
  }

  /** A freshly opened form cannot be submitted: a new entry has no category
      yet, and an edited one has not changed. */
  lemma {:induction false} SubmitDisabledInitially(mode: Mode, initialData: Option<StoredEntry>, today: string)
    ensures var init := InitialFormData(mode, initialData, today);
      IsSubmitDisabled(mode, init, init, false)
  {
  }

  const MaxNoteLength: nat := 1000
  const CategoryRequired: string := "Wybierz kategorię"
  const NoteTooLong: string := "Notatka może mieć maksymalnie 1000 znaków"

  /** The per-field error texts; `None` for a field without an error. */
  datatype FormErrors = FormErrors(category: Option<string>, entryDate: Option<string>,
                                   note: Option<string>, general: Option<string>)

  const NoErrors: FormErrors := FormErrors(None, None, None, None)

  /** The errors `validateForm` finds: a missing category, and a note longer
      than 1000 characters (measured before trimming). */
  function ValidationErrors(f: FormData): (e: FormErrors)
    ensures e.entryDate.None? && e.general.None?
    ensures e == NoErrors <==> IsValid(f) && |f.note| <= MaxNoteLength
    ensures e.category.Some? <==> !IsValid(f)
    ensures e.note.Some? <==> |f.note| > MaxNoteLength
  {
    FormErrors(if f.category.None? then Some(CategoryRequired) else None, None,
               if |f.note| > MaxNoteLength then Some(NoteTooLong) else None, None)
  }

  /** `validateForm`: fills the error object field by field and reports
      whether it stayed empty. */
  method ValidateForm(f: FormData) returns (errors: FormErrors, ok: bool)
    ensures errors == ValidationErrors(f)
    ensures ok <==> IsValid(f) && |f.note| <= MaxNoteLength
  {
    errors := NoErrors;
    if f.category.None? {
      errors := errors.(category := Some(CategoryRequired));
    }
    if |f.note| > MaxNoteLength {
      errors := errors.(note := Some(NoteTooLong));
    }
    ok := errors == NoErrors;
  }

  /** A note of exactly 1000 characters passes; one more fails. */
  lemma NoteLengthEdge(c: Category, day: string, note: string)
    requires |note| == MaxNoteLength
    ensures ValidationErrors(FormData(Some(c), day, note)) == NoErrors
    ensures ValidationErrors(FormData(Some(c), day, note + " ")).note == Some(NoteTooLong)
  {
  }

  /** The body of a new entry: the note trimmed, and left out when empty. */
  datatype CreateCommand = CreateCommand(category: Category, entryDate: string, note: Option<string>)

  function CreateCommandOf(f: FormData): (c: CreateCommand)
    requires IsValid(f)
    ensures c.category == f.category.value && c.entryDate == f.entryDay
    ensures c.note.None? <==> Trim(f.note) == ""
    ensures c.note.Some? ==> c.note.value == Trim(f.note) && Trim(c.note.value) == c.note.value
  {
    var note := Trim(f.note);
    TrimIdempotent(f.note);
    CreateCommand(f.category.value, f.entryDay, if note == "" then None else Some(note))
  }

  /** The `note` member of an update object: absent, present but holding
      `undefined`, a string, or `null`. */
  datatype NoteField = Absent | Undefined | Text(text: string) | Null

  datatype PartialUpdate = PartialUpdate(category: Option<Category>, entryDate: Option<string>, note: NoteField)

  /** `Object.keys(update).length`: a key holding `undefined` counts. */
  function KeyCount(u: PartialUpdate): nat {
    (if u.category.Some? then 1 else 0) + (if u.entryDate.Some? then 1 else 0) + (if u.note.Absent? then 0 else 1)
  }

  /** The members `JSON.stringify` writes into the request body: it drops a
      member holding `undefined`. */
  function BodyKeys(u: PartialUpdate): set<string> {
    (if u.category.Some? then {"category"} else {})
    + (if u.entryDate.Some? then {"entry_date"} else {})
    + (if u.note.Text? || u.note.Null? then {"note"} else {})
  }

  /** The partial update with the note cleared to `null`: a field is present
      exactly when it differs from the initial value (the day compared as a
      string, the note compared trimmed); a changed note is sent trimmed. */
  function BuildPartialUpdate(f: FormData, init: FormData): (u: PartialUpdate)
    requires IsValid(f)
    ensures u.category.Some? <==> f.category != init.category
    ensures u.entryDate.Some? <==> f.entryDay != init.entryDay
    ensures u.note.Absent? <==> Trim(f.note) == Trim(init.note)
    ensures u.category.Some? ==> u.category == f.category
    ensures u.entryDate.Some? ==> u.entryDate.value == f.entryDay
    ensures u.note.Text? ==> u.note.text == Trim(f.note) && u.note.text != ""
    ensures u.note.Null? <==> Trim(f.note) != Trim(init.note) && Trim(f.note) == ""
    ensures !u.note.Undefined?
  {
    var note := Trim(f.note);
    PartialUpdate(
      if f.category != init.category then f.category else None,
      if f.entryDay != init.entryDay then Some(f.entryDay) else None,
      if note == Trim(init.note) then Absent else if note == "" then Null else Text(note))
  }

  /** `buildPartialUpdate` as written: a note cleared to empty becomes
      `undefined` instead of `null`. */
  function BuildPartialUpdateAsWritten(f: FormData, init: FormData): (u: PartialUpdate)
    requires IsValid(f)
    ensures KeyCount(u) == KeyCount(BuildPartialUpdate(f, init))
    ensures u.note.Undefined? <==> BuildPartialUpdate(f, init).note.Null?
  {
    var u := BuildPartialUpdate(f, init);
    if u.note.Null? then u.(note := Undefined) else u
  }

  /** In edit mode the update has no key exactly when the form is unchanged,
      so an enabled submit button always sends a request. */
  lemma {:induction false} UpdateEmptyIffUnchanged(f: FormData, init: FormData)
    requires IsValid(f)
    ensures KeyCount(BuildPartialUpdate(f, init)) == 0 <==> IsUnchanged(Edit, f, init)
    ensures BodyKeys(BuildPartialUpdate(f, init)) == {} <==> IsUnchanged(Edit, f, init)
    ensures !IsSubmitDisabled(Edit, f, init, false) ==> BodyKeys(BuildPartialUpdate(f, init)) != {}
  {
  }

  /** What the entry endpoint does with a PATCH body: it refuses a body that
      names no field, and otherwise overwrites the named fields, `null`
      clearing the note. */
  function ApplyPatch(e: StoredEntry, u: PartialUpdate): (r: Option<StoredEntry>)
    ensures r.None? <==> BodyKeys(u) == {}
    ensures r.Some? ==> r.value.category == (if "category" in BodyKeys(u) then u.category.value else e.category)
    ensures r.Some? ==> r.value.entryDay == (if "entry_date" in BodyKeys(u) then u.entryDate.value else e.entryDay)
    ensures r.Some? && u.note.Text? ==> r.value.note == Some(u.note.text)
    ensures r.Some? && u.note.Null? ==> r.value.note.None?
    ensures r.Some? && "note" !in BodyKeys(u) ==> r.value.note == e.note
  {
    if BodyKeys(u) == {} then None
    else Some(StoredEntry(
      if u.category.Some? then u.category.value else e.category,
      if u.entryDate.Some? then u.entryDate.value else e.entryDay,
      match u.note
      case Text(t) => Some(t)
      case Null => None
      case _ => e.note))
  }

  /** As written, clearing the note of an entry (and changing nothing else)
      sends a request whose body names no field, so the endpoint refuses it
      and the note stays. */
  lemma {:induction false} ClearedNoteIsLostAsWritten(e: StoredEntry, f: FormData, today: string)
    requires f.category == Some(e.category) && f.entryDay == e.entryDay
    requires Trim(CareEntries.NoteText(e.note)) != "" && Trim(f.note) == ""
    ensures var u := BuildPartialUpdateAsWritten(f, InitialFormData(Edit, Some(e), today));
      && KeyCount(u) == 1
      && BodyKeys(u) == {}
      && ApplyPatch(e, u).None?
  {
    var init := InitialFormData(Edit, Some(e), today);
    assert init.category == f.category && init.entryDay == f.entryDay;
    assert Trim(f.note) != Trim(init.note);
    var w := BuildPartialUpdate(f, init);
    assert w.category.None? && w.entryDate.None? && w.note.Null?;
    assert BuildPartialUpdateAsWritten(f, init) == w.(note := Undefined);
  }

  /** With the note cleared to `null`, an edited entry that the form saw as
      changed ends up with exactly the form's category and day, and a note
      that trims to the form's trimmed note (none at all for an empty one). */
  lemma {:induction false} PatchReachesForm(e: StoredEntry, f: FormData, today: string)
    requires IsValid(f)
    requires !IsUnchanged(Edit, f, InitialFormData(Edit, Some(e), today))
    ensures var r := ApplyPatch(e, BuildPartialUpdate(f, InitialFormData(Edit, Some(e), today)));
      && r.Some?
      && r.value.category == f.category.value
      && r.value.entryDay == f.entryDay
      && Trim(CareEntries.NoteText(r.value.note)) == Trim(f.note)
      && (Trim(f.note) == "" ==> r.value.note.None? || r.value.note == e.note)
  {
    var init := InitialFormData(Edit, Some(e), today);
    var u := BuildPartialUpdate(f, init);
    TrimIdempotent(f.note);
    UpdateEmptyIffUnchanged(f, init);
  }

  /** What an error answer does: a toast, possibly a general error under the
      form, possibly a redirect. */
  datatype ErrorEffect = ErrorEffect(toast: string, general: Option<string>, redirect: Option<string>)

  /** `handleApiError(status, data)`; `message` is the body's `message`,
      taken only when it is a non-empty string. */
  function HandleApiError(mode: Mode, petId: string, status: int, message: Option<string>): (e: ErrorEffect)
    ensures e.general.Some? <==> status == 400 && message.Some? && message.value != ""
    ensures e.general.Some? ==> e.general == message
    ensures e.redirect.Some? <==> status in {401, 403, 404}
    ensures status == 400 ==> e.toast == "Sprawdź poprawność danych"
    ensures status == 401 ==> e == ErrorEffect("Sesja wygasła", None, Some("/"))
    ensures status == 403 ==> e == ErrorEffect(
      if mode == Edit then "Brak dostępu do tego wpisu" else "Brak dostępu do tego zwierzęcia", None, Some("/dashboard"))
    ensures status == 404 ==> e == ErrorEffect(
      if mode == Edit then "Wpis nie znaleziony" else "Zwierzę nie znalezione",
      None, Some(if mode == Edit then "/pets/" + petId else "/dashboard"))
    ensures status == 500 ==> e == ErrorEffect("Coś poszło nie tak. Spróbuj ponownie.", None, None)
    ensures status !in {400, 401, 403, 404, 500} ==> e == ErrorEffect("Wystąpił nieoczekiwany błąd", None, None)
  {
    if status == 400 then
      ErrorEffect("Sprawdź poprawność danych", if message.Some? && message.value != "" then message else None, None)
    else if status == 401 then ErrorEffect("Sesja wygasła", None, Some("/"))
    else if status == 403 then
      ErrorEffect(if mode == Edit then "Brak dostępu do tego wpisu" else "Brak dostępu do tego zwierzęcia",
                  None, Some("/dashboard"))
    else if status == 404 then
      ErrorEffect(if mode == Edit then "Wpis nie znaleziony" else "Zwierzę nie znalezione",
                  None, Some(if mode == Edit then "/pets/" + petId else "/dashboard"))
    else if status == 500 then ErrorEffect("Coś poszło nie tak. Spróbuj ponownie.", None, None)
    else ErrorEffect("Wystąpił nieoczekiwany błąd", None, None)
  }

  /** The answer to a submitted request: ok, an error status with the body's
      `message`, or a thrown error (a `TypeError` is a lost connection). */
  datatype Response = Ok | NotOk(status: int, message: Option<string>) | Thrown(isTypeError: bool)

  datatype Request =
    | PostEntry(path: string, command: CreateCommand)
    | PatchEntry(path: string, update: PartialUpdate)

  /** What the user sees besides the form: a toast, a redirect, and whether
      the `onSuccess` callback was called. */
  datatype Effect = Effect(toast: Option<string>, redirect: Option<string>, calledBack: bool)

  const NoEffect: Effect := Effect(None, None, false)

  function EntriesPath(petId: string): string {
    "/api/pets/" + petId + "/care-entries"
  }

  function EntryPath(petId: string, entryId: string): string {
    "/api/pets/" + petId + "/care-entries/" + entryId
  }

  /** The form's state apart from its fixed inputs. */
  datatype FormSnapshot = FormSnapshot(form: FormData, errors: FormErrors, isSubmitting: bool)

  /** The part of `handleSubmit` after the request: the errors, the
      submitting flag and the effect. Success keeps the flag set while the
      page moves on. */
  function Respond(mode: Mode, petId: string, hasOnSuccess: bool, response: Response): (r: (FormErrors, bool, Effect))
    ensures r.1 <==> response.Ok?
    ensures r.0.general.Some? ==> response.NotOk? && response.status == 400
    ensures r.0.category.None? && r.0.entryDate.None? && r.0.note.None?
    ensures response.Ok? ==> r.2.calledBack == hasOnSuccess && (r.2.redirect.Some? <==> !hasOnSuccess)
    ensures response.Ok? ==> r == (NoErrors, true,
      Effect(Some(if mode == Create then "Wpis został dodany" else "Wpis został zaktualizowany"),
             if hasOnSuccess then None else Some("/pets/" + petId), hasOnSuccess))
    ensures response.NotOk? ==>
      var e := HandleApiError(mode, petId, response.status, response.message);
      r == (NoErrors.(general := e.general), false, Effect(Some(e.toast), e.redirect, false))
    ensures response.Thrown? ==> r == (NoErrors, false,
      Effect(Some(if response.isTypeError then "Brak połączenia. Sprawdź internet." else "Wystąpił nieoczekiwany błąd"),
             None, false))
  {
    match response
    case Ok =>
      (NoErrors, true, Effect(Some(if mode == Create then "Wpis został dodany" else "Wpis został zaktualizowany"),
                              if hasOnSuccess then None else Some("/pets/" + petId), hasOnSuccess))
    case NotOk(status, message) =>
      var e := HandleApiError(mode, petId, status, message);
      (NoErrors.(general := e.general), false, Effect(Some(e.toast), e.redirect, false))
    case Thrown(isTypeError) =>
      (NoErrors, false, Effect(Some(if isTypeError then "Brak połączenia. Sprawdź internet." else "Wystąpił nieoczekiwany błąd"),
                               None, false))
  }

  /** `handleSubmit` with the request's answer given: the new state, the
      request sent (if any) and the effect. An edit sends the update as
      written, so a note cleared to empty is left out of the body. */
  function SubmitOutcome(mode: Mode, petId: string, entryId: Option<string>, hasOnSuccess: bool, init: FormData,
                         s: FormSnapshot, response: Response): (o: (FormSnapshot, Option<Request>, Effect))
    ensures o.0.form == s.form
    ensures ValidationErrors(s.form) != NoErrors ==> o == (s.(errors := ValidationErrors(s.form)), None, NoEffect)
    ensures o.1.Some? ==> IsValid(s.form) && |s.form.note| <= MaxNoteLength
    ensures o.1.Some? && mode == Create ==> o.1.value == PostEntry(EntriesPath(petId), CreateCommandOf(s.form))
    ensures o.1.Some? && mode == Edit ==>
      o.1.value.PatchEntry? && KeyCount(o.1.value.update) != 0 && !IsUnchanged(mode, s.form, init)
    ensures o.1.Some? && mode == Edit && BodyKeys(o.1.value.update) == {} ==>
      s.form.category == init.category && s.form.entryDay == init.entryDay && Trim(s.form.note) == ""
    ensures o.1.Some? ==> (o.0.isSubmitting <==> response.Ok?)
    ensures o.1.None? ==> o.0.isSubmitting == (s.isSubmitting && ValidationErrors(s.form) != NoErrors)
    ensures ValidationErrors(s.form) == NoErrors ==>
      IsValid(s.form) && o == SendOutcome(mode, petId, entryId, hasOnSuccess, init, s.form, response)
  {
    var errors := ValidationErrors(s.form);
    if errors != NoErrors then (s.(errors := errors), None, NoEffect)
    else SendOutcome(mode, petId, entryId, hasOnSuccess, init, s.form, response)
  }

  /** `handleSubmit` once the form has passed validation: a create always
      posts; an edit needs an entry id and a non-empty update, and sends the
      update as written. */
  function SendOutcome(mode: Mode, petId: string, entryId: Option<string>, hasOnSuccess: bool, init: FormData,
                       form: FormData, response: Response): (o: (FormSnapshot, Option<Request>, Effect))
    requires IsValid(form)
    ensures o.0.form == form
    ensures o.1.Some? && mode == Create ==> o.1.value == PostEntry(EntriesPath(petId), CreateCommandOf(form))
    ensures mode == Create ==> o.1.Some?
    ensures o.1.Some? && mode == Edit ==>
      o.1.value.PatchEntry? && KeyCount(o.1.value.update) != 0 && !IsUnchanged(mode, form, init)
    ensures o.1.Some? && mode == Edit && BodyKeys(o.1.value.update) == {} ==>
      form.category == init.category && form.entryDay == init.entryDay && Trim(form.note) == ""
    ensures o.1.Some? ==> (o.0.isSubmitting <==> response.Ok?)
    ensures o.1.None? ==> !o.0.isSubmitting
    ensures o.1.Some? ==> (o.0.errors, o.0.isSubmitting, o.2) == Respond(mode, petId, hasOnSuccess, response)
    ensures mode == Edit && (entryId.None? || entryId.value == "") ==>
      o == (FormSnapshot(form, NoErrors, false), None, Effect(Some("Wystąpił błąd"), None, false))
    ensures mode == Edit && entryId.Some? && entryId.value != "" && KeyCount(BuildPartialUpdateAsWritten(form, init)) == 0 ==>
      o == (FormSnapshot(form, NoErrors, false), None, Effect(Some("Nie wprowadzono żadnych zmian"), None, false))
    ensures mode == Edit && entryId.Some? && entryId.value != "" && KeyCount(BuildPartialUpdateAsWritten(form, init)) != 0 ==>
      o.1 == Some(PatchEntry(EntryPath(petId, entryId.value), BuildPartialUpdateAsWritten(form, init)))
  {
    var r := Respond(mode, petId, hasOnSuccess, response);
    match mode
    case Create =>
      (FormSnapshot(form, r.0, r.1), Some(PostEntry(EntriesPath(petId), CreateCommandOf(form))), r.2)
    case Edit =>
      if entryId.None? || entryId.value == "" then
        (FormSnapshot(form, NoErrors, false), None, Effect(Some("Wystąpił błąd"), None, false))
      else
        var update := BuildPartialUpdateAsWritten(form, init);
        if KeyCount(update) == 0 then
          (FormSnapshot(form, NoErrors, false), None, Effect(Some("Nie wprowadzono żadnych zmian"), None, false))
        else
          (FormSnapshot(form, r.0, r.1), Some(PatchEntry(EntryPath(petId, entryId.value), update)), r.2)
  }

  /** After a sent request that fails (an error status or a thrown request)
      the form is left as it was and not submitting, so the submit button is
      enabled again exactly when it was before the attempt. */
  lemma {:induction false} FailedSubmitCanRetry(mode: Mode, petId: string, entryId: Option<string>, hasOnSuccess: bool,
                                                init: FormData, s: FormSnapshot, response: Response)
    requires !response.Ok?
    ensures var o := SubmitOutcome(mode, petId, entryId, hasOnSuccess, init, s, response);
      o.1.Some? ==>
        && o.0.form == s.form && !o.0.isSubmitting
        && IsSubmitDisabled(mode, o.0.form, init, o.0.isSubmitting) == IsSubmitDisabled(mode, s.form, init, false)
  {
  }

  /** The form component's state. */
  class CareEntryFormState {
    const mode: Mode
    const petId: string
    const entryId: Option<string>
    const hasOnSuccess: bool
    const initial: FormData
    var formData: FormData
    var errors: FormErrors
    var isSubmitting: bool

    function Snapshot(): FormSnapshot
      reads this
    {
      FormSnapshot(formData, errors, isSubmitting)
    }

    constructor (mode: Mode, petId: string, entryId: Option<string>, initialData: Option<StoredEntry>,
                 today: string, hasOnSuccess: bool)
      ensures this.mode == mode && this.petId == petId && this.entryId == entryId && this.hasOnSuccess == hasOnSuccess
      ensures initial == InitialFormData(mode, initialData, today)
      ensures Snapshot() == FormSnapshot(initial, NoErrors, false)
    {
      this.mode, this.petId, this.entryId, this.hasOnSuccess := mode, petId, entryId, hasOnSuccess;
      initial := InitialFormData(mode, initialData, today);
      formData := InitialFormData(mode, initialData, today);
      errors, isSubmitting := NoErrors, false;
    }

    /** `handleCategoryChange`: sets the category and clears its error. */
    method CategoryChange(c: Category)
      modifies this
      ensures formData == old(formData).(category := Some(c))
      ensures errors == old(errors).(category := None) && isSubmitting == old(isSubmitting)
    {
      formData := formData.(category := Some(c));
      errors := errors.(category := None);
    }

    /** `handleDateChange`: a cleared date picker changes nothing. */
    method DateChange(day: Option<string>)
      modifies this
      ensures day.None? ==> Snapshot() == old(Snapshot())
      ensures day.Some? ==>
        formData == old(formData).(entryDay := day.value)
        && errors == old(errors).(entryDate := None) && isSubmitting == old(isSubmitting)
    {
      if day.Some? {
        formData := formData.(entryDay := day.value);
        errors := errors.(entryDate := None);
      }
    }

    /** `handleNoteChange`: sets the note and clears its error. */
    method NoteChange(note: string)
      modifies this
      ensures formData == old(formData).(note := note)
      ensures errors == old(errors).(note := None) && isSubmitting == old(isSubmitting)
    {
      formData := formData.(note := note);
      errors := errors.(note := None);
    }

    /** `handleSubmit`, with the answer to its request given. */
    method HandleSubmit(response: Response) returns (request: Option<Request>, effect: Effect)
      modifies this
      ensures (Snapshot(), request, effect)
           == SubmitOutcome(mode, petId, entryId, hasOnSuccess, initial, old(Snapshot()), response)
    {
      var found, ok := ValidateForm(formData);
      if !ok {
        errors := found;
        return None, NoEffect;
      }
      request, effect := Send(response);
    }

    /** The request and the answer handling after a passing validation. */
    method Send(response: Response) returns (request: Option<Request>, effect: Effect)
      requires IsValid(formData)
      modifies this
      ensures (Snapshot(), request, effect)
           == SendOutcome(mode, petId, entryId, hasOnSuccess, initial, old(formData), response)
    {
      isSubmitting := true;
      errors := NoErrors;
      if mode == Edit {
        request, effect := SendEdit(response);
        return;
      }
      request := Some(PostEntry(EntriesPath(petId), CreateCommandOf(formData)));
      var answer := Respond(mode, petId, hasOnSuccess, response);
      errors, isSubmitting, effect := answer.0, answer.1, answer.2;
    }

    /** Edit mode: no entry id or an empty update sends nothing; otherwise
        the update as written is PATCHed. */
    method SendEdit(response: Response) returns (request: Option<Request>, effect: Effect)
      requires IsValid(formData) && mode == Edit
      modifies this
      ensures (Snapshot(), request, effect)
           == SendOutcome(mode, petId, entryId, hasOnSuccess, initial, old(formData), response)
    {
      if entryId.None? || entryId.value == "" {
        errors, isSubmitting := NoErrors, false;
        return None, Effect(Some("Wystąpił błąd"), None, false);
      }
      var update := BuildPartialUpdateAsWritten(formData, initial);
      if KeyCount(update) == 0 {
        errors, isSubmitting := NoErrors, false;
        return None, Effect(Some("Nie wprowadzono żadnych zmian"), None, false);
      }
      request := Some(PatchEntry(EntryPath(petId, entryId.value), update));
      var answer := Respond(mode, petId, hasOnSuccess, response);
      errors, isSubmitting, effect := answer.0, answer.1, answer.2;
    }
  }
}
