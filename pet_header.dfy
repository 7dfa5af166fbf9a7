/** The header of a pet's profile page: its entries label, its edit link and
    the state of its delete dialog. */
module PetHeader {
  import opened Common
  import PetsListHook
  import opened PetProfile

  /** The header's entries label: "Brak wpisów" for none, "1 wpis" for one,
      and the count followed by "wpisów" for every other count (no "wpisy"
      form for 2 to 4). */
  function HeaderEntriesLabel(count: int): (s: string)
    ensures count == 0 ==> s == "Brak wpisów"
    ensures count == 1 ==> s == "1 wpis"
    ensures count != 0 && count != 1 ==> s == IntToString(count) + " wpisów"
    ensures count != 0 ==> StartsWith(s, IntToString(count) + " wpis")
  {
    if count == 0 then "Brak wpisów"
    else if count == 1 then "1 wpis"
    else IntToString(count) + " wpisów"
  }

  /** The header and the dashboard card label a count alike except for 2, 3
      and 4, where the card uses the form "wpisy" and the header does not. */
  lemma {:induction false} HeaderLabelVersusCardLabel(n: int)
    ensures HeaderEntriesLabel(n) == PetsListHook.EntriesLabel(n) <==> !(2 <= n <= 4)
  {
    if n == 1 {
      assert NatToString(1) == "1";
    } else if 2 <= n <= 4 {
      assert |HeaderEntriesLabel(n)| != |PetsListHook.EntriesLabel(n)|;
    }
  }

  /** The header's edit link `/pets/{id}/edit`. */
  function PetEditHref(petId: string): (href: string)
    ensures StartsWith(href, "/pets/")
    ensures EndsWith(href, "/edit")
  {
    "/pets/" + petId + "/edit"
  }

  /** The pet id comes back out of the edit link's path segments when it
      contains no `/`. */
  lemma {:induction false} PetEditHrefSegments(petId: string)
    requires '/' !in petId
    ensures Split(PetEditHref(petId), '/') == ["", "pets", petId, "edit"]
  {
    var parts := ["", "pets", petId, "edit"];
    assert Join(parts[3..], '/') == "edit";
    assert Join(parts[2..], '/') == petId + "/edit";
    assert Join(parts[1..], '/') == "pets/" + petId + "/edit";
    assert Join(parts, '/') == PetEditHref(petId);
    SplitJoin(parts, '/');
  }

  /** The header's delete dialog: open or closed, and whether the deletion
      is shown as running (which disables both dialog buttons). */
  datatype HeaderState = HeaderState(dialogOpen: bool, isDeleting: bool)

  datatype HeaderEvent = OpenDialog | CancelDialog | Confirmed(nav: Navigation)

  /** The deletion can be confirmed while the dialog is open and no
      deletion is shown as running. */
  predicate ConfirmEnabled(h: HeaderState) {
    h.dialogOpen && !h.isDeleting
  }

  /** The handlers as written: the delete button opens the dialog, cancel
      closes it, and a confirmation marks the deletion as running for good,
      whatever the request led to. */
  function StepAsWritten(h: HeaderState, e: HeaderEvent): (t: HeaderState)
    ensures e.Confirmed? ==> t.isDeleting
    ensures !e.Confirmed? ==> t.isDeleting == h.isDeleting
  {
    match e
    case OpenDialog => h.(dialogOpen := true)
    case CancelDialog => h.(dialogOpen := false)
    case Confirmed(_) => h.(isDeleting := true)
  }

  function RunAsWritten(h: HeaderState, es: seq<HeaderEvent>): HeaderState
    decreases |es|
  {
    if es == [] then h else RunAsWritten(StepAsWritten(h, es[0]), es[1..])
  }

  /** As written, once a deletion is shown as running no later event clears
      it, so the confirm button stays disabled however the dialog is reopened. */
  lemma {:induction false} RunningDeletionNeverClears(h: HeaderState, es: seq<HeaderEvent>)
    requires h.isDeleting
    ensures RunAsWritten(h, es).isDeleting && !ConfirmEnabled(RunAsWritten(h, es))
    decreases |es|
  {
    if es != [] {
      RunningDeletionNeverClears(StepAsWritten(h, es[0]), es[1..]);
    }
  }

  /** As written, a deletion the server refuses with 500 leaves the profile
      page in place with the controller ready for another attempt, yet the
      header's confirm button stays disabled for every later sequence of
      dialog events. */
  lemma {:induction false} FailedDeletionLocksDialog(h: HeaderState, es: seq<HeaderEvent>)
    ensures DeletePetNavigation(DeleteNotOk(500)) == Stay
    ensures !ConfirmEnabled(RunAsWritten(StepAsWritten(h, Confirmed(Stay)), es))
  {
    RunningDeletionNeverClears(StepAsWritten(h, Confirmed(Stay)), es);
  }

  /** The header step with the running mark kept only while the page is
      leaving; a deletion that stays on the page clears it. */
  function Step(h: HeaderState, e: HeaderEvent): (t: HeaderState)
    ensures e.Confirmed? ==> (t.isDeleting <==> e.nav.GoTo?) && t.dialogOpen == h.dialogOpen
    ensures e == OpenDialog ==> t.dialogOpen && t.isDeleting == h.isDeleting
    ensures e == CancelDialog ==> !t.dialogOpen && t.isDeleting == h.isDeleting
  {
    match e
    case OpenDialog => h.(dialogOpen := true)
    case CancelDialog => h.(dialogOpen := false)
    case Confirmed(nav) => h.(isDeleting := nav.GoTo?)
  }

  /** With the corrected step the header's mark agrees with the controller's
      own deletion flag after every request outcome, and after a deletion
      that stayed on the page, the still open dialog can confirm again. */
  lemma {:induction false} HeaderFollowsController(h: HeaderState, response: DeleteResponse)
    ensures var nav := DeletePetNavigation(response);
      && (Step(h, Confirmed(nav)).isDeleting <==> response.DeleteOk? || response == DeleteNotOk(401))
      && (h.dialogOpen && nav == Stay ==> ConfirmEnabled(Step(h, Confirmed(nav))))
  {
  }

  /** The header's dialog state. */
  class PetHeaderState {
    var dialogOpen: bool
    var isDeleting: bool

    function State(): HeaderState
      reads this
    {
      HeaderState(dialogOpen, isDeleting)
    }

    constructor ()
      ensures State() == HeaderState(false, false)
    {
      dialogOpen, isDeleting := false, false;
    }

    /** The delete button. */
    method OpenDeleteDialog()
      modifies this
      ensures State() == Step(old(State()), OpenDialog)
    {
      dialogOpen := true;
    }

    /** Cancel, or the dialog closed from outside. */
    method CancelDelete()
      modifies this
      ensures State() == Step(old(State()), CancelDialog)
    {
      dialogOpen := false;
    }

    /** `handleDelete` as written: the header marks the deletion as running
      and the controller runs it; the mark is never cleared, whatever the
      request led to (the corrected step is `Step`). */
    method ConfirmDelete(hook: PetProfileHook, response: DeleteResponse)
      returns (nav: Navigation, notice: Option<Notice>)
      modifies this, hook
      ensures State() == StepAsWritten(old(State()), Confirmed(nav))
      ensures isDeleting && dialogOpen == old(dialogOpen)
      ensures !old(hook.isDeletingPet) ==> notice == Some(DeletePetNotice(response))
      ensures !old(hook.isDeletingPet) ==> nav == DeletePetNavigation(response)
      ensures old(hook.isDeletingPet) ==> nav == Stay && notice.None? && hook.State() == old(hook.State())
    {
      isDeleting := true;
      nav, notice := hook.DeletePet(response);
    }
  }
}
