/** The care-history list component: which view it shows, how a page
    request from its pager is dispatched to the profile controller, and the
    delete-confirmation state it keeps. */
module CareHistoryList {
  import opened Common
  import opened Pagination
  import opened CareEntries
  import opened PetProfile
  import PaginationControls

  /** Skeleton cards shown while the first page loads. */
  const SkeletonCount: nat := 5

  datatype HistoryView =
    | Skeletons(count: nat)
    | EmptyHistory
    | EntryList(items: seq<CareEntryCardView>, showPager: bool)

  /** The component's view choice: skeletons while loading with nothing to
      show, the empty state when `isEmpty`, otherwise the list, with the pager
      only when there is more than one page. */
  function SelectView(isLoading: bool, items: seq<CareEntryCardView>, isEmpty: bool,
                      pagination: Option<PaginationView>): (v: HistoryView)
    ensures isLoading && items == [] ==> v == Skeletons(SkeletonCount)
    ensures !(isLoading && items == []) && isEmpty ==> v == EmptyHistory
    ensures !(isLoading && items == []) && !isEmpty ==>
      v == EntryList(items, pagination.Some? && pagination.value.totalPages > 1)
    ensures v.EntryList? ==>
      (v.items == items && (v.showPager <==> pagination.Some? && pagination.value.totalPages > 1))
  {
    if isLoading && |items| == 0 then Skeletons(SkeletonCount)
    else if isEmpty then EmptyHistory
    else EntryList(items, pagination.Some? && pagination.value.totalPages > 1)
  }

  /** Fed by the profile controller, whose `isEmpty` is "not loading and no
      entries", the three views split the states exactly: skeletons when
      loading with no entries, the empty state when idle with no entries, the
      list (every entry, in order) whenever there are entries. */
  lemma {:induction false} ViewsPartitionProfile(s: Profile)
    ensures var v := SelectView(s.isLoading, s.entries, !s.isLoading && |s.entries| == 0, s.pagination);
      && (v.Skeletons? <==> s.isLoading && s.entries == [])
      && (v.EmptyHistory? <==> !s.isLoading && s.entries == [])
      && (v.EntryList? <==> s.entries != [])
      && (v.EntryList? ==> v.items == s.entries)
  {
  }

  /** What a page request from the pager turns into. */
  datatype PageAction = Ignore | LoadMore | GoToPage(page: int)

  /** `handlePageChange` as written: without pagination nothing happens; a
      page above the current one always loads more (appending the next page),
      whatever the viewport; any other page is a go-to-page. */
  function HandlePageChange(pagination: Option<PaginationView>, page: int): (a: PageAction)
    ensures pagination.None? ==> a == Ignore
    ensures pagination.Some? && page > pagination.value.page ==> a == LoadMore
    ensures pagination.Some? && page <= pagination.value.page ==> a == GoToPage(page)
  {
    if pagination.None? then Ignore
    else if page > pagination.value.page then LoadMore
    else GoToPage(page)
  }

  /** The dispatch the design calls for: a phone's only request is "load
      more", so it appends; on a desktop every request, forward or back,
      replaces the list with the requested page. */
  function HandlePageChangeByViewport(pagination: Option<PaginationView>, page: int, isMobile: bool): (a: PageAction)
    ensures pagination.None? ==> a == Ignore
    ensures pagination.Some? && isMobile ==> a == LoadMore
    ensures pagination.Some? && !isMobile ==> a == GoToPage(page)
  {
    if pagination.None? then Ignore
    else if isMobile then LoadMore
    else GoToPage(page)
  }

  /** The state a page action leads to once its page has arrived: the
      profile controller's own load-more or go-to-page step. */
  function Apply(s: Profile, a: PageAction, data: EntriesPage): (t: Profile)
    requires data.pagination.limit >= 1
  {
    match a
    case Ignore => s
    case LoadMore => LoadMoreStep(s, EntriesOk(data)).0
    case GoToPage(p) => GoToPageStep(s, p, EntriesOk(data)).0
  }

  /** As written, the desktop "Next" button appends: from a page with entries
      shown, the next page's entries are added after the current ones instead
      of replacing them, so the list shows more than the page the pager
      marks as current. */
  lemma {:induction false} DesktopNextAppendsAsWritten(s: Profile, data: EntriesPage)
    requires data.pagination.limit >= 1
    requires s.pagination.Some? && s.pagination.value.hasNext && !s.isLoading && s.entries != []
    ensures var next := PaginationControls.Pager(s.pagination.value, false, false).nextTarget;
      var t := Apply(s, HandlePageChange(s.pagination, next), data);
      && HandlePageChange(s.pagination, next) == LoadMore
      && t.entries[..|s.entries|] == s.entries
      && |t.entries| > |data.items|
      && t.entries != MapEntries(data.items)
  {
  }

  /** With the viewport-aware dispatch, a desktop request for any page in
      range shows exactly that page's entries, and a phone's "load more"
      keeps the shown entries and adds the next page after them. */
  lemma {:induction false} ViewportDispatchReplacesOnDesktop(s: Profile, page: int, data: EntriesPage)
    requires data.pagination.limit >= 1
    requires s.pagination.Some? && !s.isLoading
    ensures 1 <= page <= s.pagination.value.totalPages ==>
      Apply(s, HandlePageChangeByViewport(s.pagination, page, false), data).entries == MapEntries(data.items)
    ensures s.pagination.value.hasNext ==>
      var t := Apply(s, HandlePageChangeByViewport(s.pagination, page, true), data);
      t.entries == s.entries + MapEntries(data.items)
  {
  }

  /** The edit link each card gets as written: the list does not pass the
      pet id to the card, so the id renders as JavaScript's `undefined`. */
  function CardEditHrefAsWritten(petId: string, entryId: string): string {
    EditHref("undefined", entryId)
  }

  /** As written, the pet segment of every card's edit link is `undefined`,
      so the link differs from the pet's own edit link for every other pet. */
  lemma {:induction false} CardEditLinkLosesPet(petId: string, entryId: string)
    requires '/' !in petId && '/' !in entryId && petId != "undefined"
    ensures Split(CardEditHrefAsWritten(petId, entryId), '/') == ["", "pets", "undefined", "entries", entryId, "edit"]
    ensures CardEditHrefAsWritten(petId, entryId) != EditHref(petId, entryId)
  {
    EditHrefSegments("undefined", entryId);
    EditHrefSegments(petId, entryId);
  }

  /** The delete-confirmation state. */
  class DeleteConfirmation {
    var entryToDelete: Option<string>
    var isDeleting: bool

    constructor ()
      ensures entryToDelete.None? && !isDeleting
    {
      entryToDelete, isDeleting := None, false;
    }

    /** The dialog is open while an entry is selected. */
    predicate DialogOpen()
      reads this
    {
      entryToDelete.Some?
    }

    /** `handleDeleteClick(id)`: select the entry. */
    method DeleteClick(id: string)
      modifies this
      ensures entryToDelete == Some(id) && isDeleting == old(isDeleting)
    {
      entryToDelete := Some(id);
    }

    /** `handleDeleteCancel`: clear the selection. */
    method DeleteCancel()
      modifies this
      ensures entryToDelete.None? && isDeleting == old(isDeleting)
    {
      entryToDelete := None;
    }

    /** `handleDeleteConfirm`: nothing without a selection (an empty id is
      falsy too); otherwise the controller deletes that entry, then the
      flag and the selection are cleared. */
    method DeleteConfirm(hook: PetProfileHook, response: DeleteResponse)
      modifies this, hook
      ensures old(entryToDelete).None? || old(entryToDelete).value == "" ==>
        entryToDelete == old(entryToDelete) && isDeleting == old(isDeleting)
        && hook.State() == old(hook.State())
      ensures old(entryToDelete).Some? && old(entryToDelete).value != "" ==>
        entryToDelete.None? && !isDeleting
        && var mid := RemoveOptimistically(old(hook.State()), old(entryToDelete).value);
           hook.State() == if mid.1.None? then old(hook.State()) else Settle(mid.0, mid.1.value, response)
    {
      if entryToDelete.None? || entryToDelete.value == "" {
        return;
      }
      isDeleting := true;
      hook.DeleteEntry(entryToDelete.value, response);
      isDeleting := false;
      entryToDelete := None;
    }
  }
}
