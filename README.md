# Pet care app — a Dafny model of its core

The pet-care app lets a signed-in owner keep a list of pets and, for each
pet, a history of care entries (category, day, optional note). This project
models the core of that app in Dafny and proves properties of the model:

- **Pets endpoint.** `GET /api/pets` validates the query, then lists the
  caller's pets a page at a time. `POST /api/pets` validates a new pet,
  refuses a name the caller already uses, and inserts the pet. The service
  `createPet` follows the same path and also links the pet to its creator.
- **Dashboard.** The list controller `usePetsList` maps the response to
  cards, builds the request query, and appends pages on a phone. The
  dashboard screen chooses between the error, empty, skeleton and grid views
  and the pager.
- **Pager.** `generatePageNumbers` computes the page buttons and `…`
  markers the pager shows.
- **Pet profile.** The controller `usePetProfile` loads the pet and its
  entries and pages through them. It deletes the pet, deletes entries
  optimistically with a rollback, and expands notes. The care-status badge,
  the header, the history list and the entry card render this state.
- **Forms.** The care-entry form, including its partial PATCH update; the
  pet form hook; the login, registration and password-reset forms.
- **Request middleware.** Auth-cookie detection, the two-step Supabase
  sign-in check, and the route guard with its `encodeURIComponent` redirect.
  The Supabase client factory supplies cookie parsing, credentials and the
  bearer-token fetch wrapper.
- **Test runner's `.env` reader.**

Network answers, the clock and the viewport width are parameters of the
operations: each request's outcome is an input, and nothing is awaited.
React state becomes the fields of a class whose methods update them in
place. Server handlers become functions of the database state before the
call. The methods that write to the tables are proved equal to those
functions.

One module per source file; shared text helpers (JavaScript's `trim`,
`split`, `join`, number rendering) live in `Common`. `encodeURIComponent`
follows section 19.2.6.5 of ECMA-262 and lives in `UriComponent`.

## Model

| member | source | states |
|---|---|---|
| Pagination.CeilDiv | src/lib/hooks/usePetProfile.ts:70 | `Math.ceil(total / limit)`: enough pages of `limit` rows for `total` rows, and one page fewer would not be enough |
| Pagination.CeilDivUnique | src/lib/hooks/usePetProfile.ts:70 | exactly one page count has both properties, so the ceiling is pinned down |
| Pagination.ToView | src/lib/hooks/usePetProfile.ts:68-81 | page, limit and total are copied; `totalPages` is the ceiling; `hasPrev` iff page > 1; `hasNext` iff page < totalPages |
| Pagination.EmptyHasNoPages | src/lib/hooks/usePetsList.ts:32-38 | zero rows give zero pages and no next page; page 1 of nothing has neither neighbour |
| Pagination.HasNextMeansMoreRows | src/lib/hooks/usePetsList.ts:32-38 | `hasNext` holds iff rows lie beyond the served page (`page * limit < total`) |
| Pagination.PagesStartBelowTotal | src/lib/hooks/usePetsList.ts:32 | every page from 1 to `totalPages` starts below `total`, so no listed page is empty |
| PaginationControls.Run | src/components/PaginationControls.tsx:120-122 | the consecutive pages `a..b`, empty when `a > b` |
| PaginationControls.GeneratePageNumbers | src/components/PaginationControls.tsx:114-146 | the loop of `push`es builds exactly the slot sequence `PageNumbers` specifies |
| PaginationControls.PushRange | src/components/PaginationControls.tsx:131-136 | the `for` loop appends the pages from its first to its last bound, in order, to what was pushed before |
| PaginationControls.SmallListsEveryPage | src/components/PaginationControls.tsx:118-122 | with at most 7 pages every page `1..totalPages` is listed in order, with no marker |
| PaginationControls.CompactAt | src/components/PaginationControls.tsx:124-143 | slot by position: page 1, then an optional marker, then the window around the current page, then an optional marker, then the last page |
| PaginationControls.CompactBounds | src/components/PaginationControls.tsx:116-143 | above 7 pages at most 7 slots; the first is page 1 and the last is `totalPages`; every page lies in `1..totalPages` |
| PaginationControls.CompactIncreasing | src/components/PaginationControls.tsx:131-136 | page numbers strictly increase along the pager |
| PaginationControls.CompactNoSilentGap | src/components/PaginationControls.tsx:127-140 | two neighbouring page slots are consecutive pages: a gap is always shown by a marker |
| PaginationControls.CompactMarkersHidePages | src/components/PaginationControls.tsx:127-140 | every marker stands between two pages and hides at least one page |
| PaginationControls.CompactMarkers | src/components/PaginationControls.tsx:127-143 | for an in-range current page the current page is shown, and a marker appears on each side exactly when `current > 3` or `current < totalPages - 2` |
| PaginationControls.Examples | src/components/PaginationControls.tsx:114-146 | the slot lists for (5, 10), (1, 10) and a short list, as the component's tests fix them |
| PaginationControls.ButtonsFor | src/components/PaginationControls.tsx:69-95 | one button per slot; the current page's button is marked and disabled, and loading disables all of them |
| PaginationControls.Pager | src/components/PaginationControls.tsx:25-111 | phone: end-of-list or a load-more button for page + 1. Desktop: prev/next disabled iff no neighbour or loading; the buttons are exactly one per slot of `PageNumbers`, in order (`ButtonsFor`); the current button is disabled |
| CareStatus.DaysSince | src/components/CareStatusBadge.tsx:24-25 | whole days between the two instants, rounded down as `Math.floor` does for negative values too |
| CareStatus.CalculateCareStatus | src/components/CareStatusBadge.tsx:9-51 | no entry gives outdated; otherwise current up to 30 days, attention up to 90, outdated beyond; label and emoji per status |
| CareStatus.StatusBoundaries | src/components/CareStatusBadge.tsx:25-43 | the bucket limits in milliseconds: current iff the age is under 31 days, attention iff it is from 31 days up to (not including) 91 |
| CareStatus.StatusMonotone | src/components/CareStatusBadge.tsx:27-50 | an older last entry never gives a fresher status |
| CareStatus.DayEdges | src/components/CareStatusBadge.tsx:27-43 | exactly 30 days is current, 31 is attention, 90 is attention, 91 is outdated |
| CareEntries.NoteText | src/lib/hooks/usePetProfile.ts:53 | a null note reads as the empty note |
| CareEntries.MapEntry | src/lib/hooks/usePetProfile.ts:52-65 | `hasMore` iff the note is over 100 characters; the preview is the first 100 characters plus `...` in that case and the whole note otherwise; the full note is kept only when previewed |
| CareEntries.PreviewKeepsNote | src/lib/hooks/usePetProfile.ts:53-63 | the preview of a long note is its prefix, and the full note is the note itself |
| CareEntries.MapEntries | src/lib/hooks/usePetProfile.ts:142 | one card per record, in order |
| CareEntries.DisplayNote | src/components/CareEntryCard.tsx:14 | an expanded card with a full note shows it; otherwise the preview |
| CareEntries.ToggleLabel | src/components/CareEntryCard.tsx:47 | "Zwiń" when expanded, "Rozwiń" otherwise |
| CareEntries.CardShowsNote | src/components/CareEntryCard.tsx:14-49 | for a mapped record, expanded shows exactly the note; collapsed shows the note or its 100-character preview |
| CareEntries.EditHref | src/components/CareEntryCard.tsx:16-18 | the edit link `/pets/{petId}/entries/{id}/edit` |
| CareEntries.EditHrefSegments | src/components/CareEntryCard.tsx:17 | for slash-free ids, the pet id and entry id come back out of the link's path segments |
| CareHistoryList.SelectView | src/components/CareHistoryList.tsx:68-124 | skeletons while loading with no items; otherwise the empty state when `isEmpty`; otherwise exactly the list of the given items, with the pager iff there is more than one page |
| CareHistoryList.ViewsPartitionProfile | src/components/CareHistoryList.tsx:68-96 | fed by the profile controller, exactly one of skeleton, empty state or list is shown, and the list is never empty |
| CareHistoryList.HandlePageChange | src/components/CareHistoryList.tsx:38-48 | as written: nothing without pagination; a page above the current one loads more (append), any other page goes to that page |
| CareHistoryList.HandlePageChangeByViewport | src/components/CareHistoryList.tsx:37-48 | corrected dispatch: a phone loads more and a desktop goes to the page |
| CareHistoryList.DesktopNextAppendsAsWritten | src/components/CareHistoryList.tsx:38-48 | as written, desktop "Next" appends the next page to the shown entries instead of replacing them |
| CareHistoryList.ViewportDispatchReplacesOnDesktop | src/components/CareHistoryList.tsx:38-48 | with the corrected dispatch, a desktop request for an in-range page shows exactly that page's entries |
| CareHistoryList.CardEditLinkLosesPet | src/components/CareHistoryList.tsx:107-112 | as written the list passes no `petId` to the card, so the edit link's pet segment is `undefined` and differs from the corrected link |
| CareHistoryList.DeleteConfirmation.constructor | src/components/CareHistoryList.tsx:34-35 | no entry selected, not deleting |
| CareHistoryList.DeleteConfirmation.DeleteClick | src/components/CareHistoryList.tsx:50-52 | selects the entry; the dialog opens |
| CareHistoryList.DeleteConfirmation.DeleteCancel | src/components/CareHistoryList.tsx:63-65 | clears the selection |
| CareHistoryList.DeleteConfirmation.DeleteConfirm | src/components/CareHistoryList.tsx:54-61 | without a selection nothing happens; otherwise the controller deletes the entry and the selection is cleared |
| PetsListView.SelectPetsView | src/components/PetsList.tsx:15-40 | the skeleton while loading with no cards; otherwise the empty state when empty and idle; otherwise exactly the grid of the given cards, with the small skeleton iff loading (also when `isEmpty` is passed as true with cards while loading) |
| PetsListView.PetsViewPartition | src/components/PetsList.tsx:17-32 | with `isEmpty` as the dashboard computes it, the empty state shows iff there are no cards and nothing is loading |
| PetsListHook.EntriesLabel | src/lib/hooks/usePetsList.ts:61-66 | 0 gives "Brak wpisów", 1 gives "1 wpis", 2 to 4 give `{n} wpisy`, every other count `{n} wpisów` |
| PetsListHook.CountLabel | src/lib/hooks/usePetsList.ts:68-73 | 0 gives "Nie masz jeszcze zwierząt", 1 gives "Masz 1 zwierzę", 2 to 4 give `Masz {n} zwierzęta`, every other count `Masz {n} zwierząt` |
| PetsListHook.EntriesLabelNamesCount | src/lib/hooks/usePetsList.ts:61-66 | the label's first word read as a decimal is the count |
| PetsListHook.CountLabelNamesCount | src/lib/hooks/usePetsList.ts:68-73 | the label's second word read as a decimal is the count |
| PetsListHook.EntriesLabelExamples | src/lib/hooks/usePetsList.ts:61-66 | the labels for 1, 4, 12 and 22 |
| PetsListHook.CountLabelExamples | src/lib/hooks/usePetsList.ts:68-73 | the header labels for 1, 2 and 22 |
| PetsListHook.MapCard | src/lib/hooks/usePetsList.ts:22-29 | the card copies the pet's fields, labels its count and links to `/pets/{id}` |
| PetsListHook.MapCards | src/lib/hooks/usePetsList.ts:22-29 | one card per pet, in response order |
| PetsListHook.MapPetsToViewModel | src/lib/hooks/usePetsList.ts:18-59 | the cards, the pagination view of the window, and the header count label of the total |
| PetsListHook.CardLinksDistinct | src/lib/hooks/usePetsList.ts:28 | cards of pets with different ids link to different pages |
| PetsListHook.InitialQuery | src/lib/hooks/usePetsList.ts:79-83 | a missing or zero page becomes 1 and a missing or zero limit becomes 20 (`\|\|` defaults); the summary is always asked for |
| PetsListHook.QueryParams | src/lib/hooks/usePetsList.ts:103-106 | one pair per truthy parameter and no pair for a falsy one; page first, limit right after the pairs before it, include last; each with its rendered value |
| PetsListHook.RenderParams | src/lib/hooks/usePetsList.ts:103-108 | each pair written as `name=value` |
| PetsListHook.QueryStringRoundTrip | src/lib/hooks/usePetsList.ts:103-108 | splitting the query string on `&` and `=` gives back exactly the present parameters |
| PetsListHook.ErrorMessage | src/lib/hooks/usePetsList.ts:110-113 | the server's message when it has one; otherwise `HTTP {status}` |
| PetsListHook.Merge | src/lib/hooks/usePetsList.ts:118-130 | append mode keeps the earlier cards and adds the new ones after them; otherwise the new data replaces the old |
| PetsListHook.AppendKeepsEarlierCards | src/lib/hooks/usePetsList.ts:118-126 | after an append the earlier cards are a prefix of the shown cards |
| PetsListHook.LoadError | src/lib/hooks/usePetsList.ts:110-132 | a failed load keeps an error: the server message, `HTTP {status}`, or the fallback for a thrown request |
| PetsListHook.PetsListController.constructor | src/lib/hooks/usePetsList.ts:76-84 | loading, no data, no error, the initial query, desktop |
| PetsListHook.PetsListController.CheckMobile | src/lib/hooks/usePetsList.ts:88-90 | mobile iff the width is below 768 |
| PetsListHook.PetsListController.FetchPets | src/lib/hooks/usePetsList.ts:98-137 | requests the query's URL; on success merges (appending on a phone past page 1) and clears the error; on failure keeps the data and sets the error; loading ends |
| PetsListHook.PetsListController.LoadMore | src/lib/hooks/usePetsList.ts:143-147 | with a next page and not loading, the query's page becomes (page or 1) + 1; otherwise nothing changes |
| PetsListHook.PetsListController.SetPage | src/lib/hooks/usePetsList.ts:149-151 | sets the page, unchecked |
| Dashboard.ErrorToast | src/components/Dashboard.tsx:18-32 | the first of "HTTP 400", "HTTP 500", "Failed to fetch" found in the message picks the toast, else the generic one |
| Dashboard.ToastForBadRequest | src/components/Dashboard.tsx:20-21 | a 400 without a server message shows the bad-parameters toast |
| Dashboard.ToastForServerError | src/components/Dashboard.tsx:22-23 | a 500 without a server message shows the server-error toast |
| Dashboard.ToastForOffline | src/components/Dashboard.tsx:24-25 | a request that could not be sent shows the no-connection toast |
| Dashboard.ServerMessageHidesStatus | src/components/Dashboard.tsx:20-26 | a server message naming none of the markers gives the generic toast, whatever the status |
| Dashboard.DashboardPageChange | src/components/Dashboard.tsx:51-62 | a phone always loads more, whatever page was asked for; a desktop sets the page |
| Dashboard.SelectScreen | src/components/Dashboard.tsx:64-125 | error screen iff error and no data; blank with neither; otherwise content: add button iff pets, pager iff more than one page, sticky button iff phone and pets |
| Dashboard.ScreenConsistent | src/components/Dashboard.tsx:84-122 | data stays on screen after a later error; when idle, the add button shows iff the list is not the empty state; never beside the skeleton or the empty state |
| Dashboard.DashboardScreen.constructor | src/components/Dashboard.tsx:15 | desktop at first |
| Dashboard.DashboardScreen.CheckMobile | src/components/Dashboard.tsx:34-41 | mobile iff the width is below 768 |
| Dashboard.DashboardScreen.HandlePageChange | src/components/Dashboard.tsx:51-62 | on a phone, the controller's load-more; on a desktop, its set-page |
| PetHeader.HeaderEntriesLabel | src/components/PetHeader.tsx:22-27 | 0 gives "Brak wpisów", 1 gives "1 wpis", every other count `{n} wpisów` |
| PetHeader.HeaderLabelVersusCardLabel | src/components/PetHeader.tsx:22-27 | the header and the dashboard card label a count alike except for 2, 3 and 4 |
| PetHeader.PetEditHref | src/components/PetHeader.tsx:58 | the edit link `/pets/{id}/edit` |
| PetHeader.PetEditHrefSegments | src/components/PetHeader.tsx:58 | a slash-free pet id comes back out of the link's segments |
| PetHeader.StepAsWritten | src/components/PetHeader.tsx:13-20 | as written: confirm sets `isDeleting` and nothing ever clears it |
| PetHeader.RunningDeletionNeverClears | src/components/PetHeader.tsx:16-20 | as written, once deleting, no sequence of later events clears the mark |
| PetHeader.FailedDeletionLocksDialog | src/components/PetHeader.tsx:16-20 | as written, a deletion refused by the server leaves the profile open and the dialog's deleting mark set |
| PetHeader.Step | src/components/PetHeader.tsx:16-20 | corrected: the mark is kept only while the controller's deletion is running |
| PetHeader.HeaderFollowsController | src/components/PetHeader.tsx:16-20 | with the corrected step the header's mark equals the controller's deletion flag after any answer |
| PetHeader.PetHeaderState.constructor | src/components/PetHeader.tsx:13-14 | dialog closed, not deleting |
| PetHeader.PetHeaderState.OpenDeleteDialog | src/components/PetHeader.tsx:67 | opens the dialog |
| PetHeader.PetHeaderState.CancelDelete | src/components/PetHeader.tsx:83 | closes the dialog |
| PetHeader.PetHeaderState.ConfirmDelete | src/components/PetHeader.tsx:16-20 | as written: marks the deletion as running, runs the controller's deletion and leaves the mark set whatever the navigation; the dialog stays as it was |
| PetProfile.MapPet | src/lib/hooks/usePetProfile.ts:39-49 | the header copies the pet's fields with the given count and last date |
| PetProfile.FirstEntryDate | src/lib/hooks/usePetProfile.ts:155-156 | the date of the first record, none for an empty page or a record without a date |
| PetProfile.ReceiveEntries | src/lib/hooks/usePetProfile.ts:140-158 | entries replaced or appended; pagination from the window; the header's count and last date updated when a pet is shown |
| PetProfile.ReceiveEntriesSyncsCount | src/lib/hooks/usePetProfile.ts:151-158 | after a load the header count is the server total |
| PetProfile.LoadMoreStep | src/lib/hooks/usePetProfile.ts:229-240 | ignored without a next page or while loading; otherwise requests page + 1 in append mode; a received page gives exactly the state `fetchEntries` installs in append mode (entries appended, pagination and header count from the page), not loading; a failure keeps the state; the failure is thrown on unless it is a 404 |
| PetProfile.GoToPageStep | src/lib/hooks/usePetProfile.ts:243-257 | ignored outside `1..totalPages` or while loading; otherwise requests that page in replace mode; a received page gives exactly the state `fetchEntries` installs in replace mode, not loading; a failure keeps the state; the failure is thrown on unless it is a 404 |
| PetProfile.FetchEntriesStep | src/lib/hooks/usePetProfile.ts:121-169 | a page is installed; a 404 changes nothing; any other failure changes nothing and is rethrown |
| PetProfile.FindEntry | src/lib/hooks/usePetProfile.ts:307 | the first record with the id, none iff no record has it |
| PetProfile.RemoveId | src/lib/hooks/usePetProfile.ts:311 | none with the id; every record with another id kept; the length drops by the number of records with the id |
| PetProfile.RemoveIdAppend | src/lib/hooks/usePetProfile.ts:311 | the filter distributes over concatenation, so kept records keep their order |
| PetProfile.RemoveIdKeepsPlace | src/lib/hooks/usePetProfile.ts:311 | a record with another id lands at the index given by the kept records before it |
| PetProfile.RemoveAbsent | src/lib/hooks/usePetProfile.ts:311 | removing an id nobody carries changes nothing |
| PetProfile.RollbackRestoresEntries | src/lib/hooks/usePetProfile.ts:325-329 | when one record carries the id, removal followed by re-appending gives the same multiset of records |
| PetProfile.RemoveOptimistically | src/lib/hooks/usePetProfile.ts:304-316 | an unknown id changes nothing; otherwise the record is saved and removed and the header count drops by one |
| PetProfile.Settle | src/lib/hooks/usePetProfile.ts:318-361 | success keeps the removal; a refusal or a thrown request re-appends the saved record and restores the count |
| PetProfile.FailedDeleteRestores | src/lib/hooks/usePetProfile.ts:323-361 | a failed delete gives back the same records up to order and the same count |
| PetProfile.Toggle | src/lib/hooks/usePetProfile.ts:367-377 | flips the membership of one id and leaves every other id alone |
| PetProfile.ToggleTwice | src/lib/hooks/usePetProfile.ts:367-377 | toggling twice is the identity |
| PetProfile.DeletePetNavigation | src/lib/hooks/usePetProfile.ts:260-301 | the dashboard after success, the start page after 401, staying put for every other refusal and a thrown request |
| PetProfile.DeletePetNotice | src/lib/hooks/usePetProfile.ts:270-297 | the toast per outcome: success; 404, 403 and 401 each with their text; any other status; a `TypeError` (no connection); any other thrown error |
| PetProfile.NoticeMatchesNavigation | src/lib/hooks/usePetProfile.ts:270-297 | the success toast iff the page goes to the dashboard; the session toast iff it goes to the start page; every other toast stays on the page |
| PetProfile.PetProfileHook.constructor | src/lib/hooks/usePetProfile.ts:30-36 | loading, nothing shown, nothing expanded, not deleting |
| PetProfile.PetProfileHook.FetchEntries | src/lib/hooks/usePetProfile.ts:121-169 | the state becomes `FetchEntriesStep`'s |
| PetProfile.PetProfileHook.LoadMoreEntries | src/lib/hooks/usePetProfile.ts:229-240 | the new state, request and thrown flag are `LoadMoreStep`'s |
| PetProfile.PetProfileHook.GoToPage | src/lib/hooks/usePetProfile.ts:243-257 | the new state, request and thrown flag are `GoToPageStep`'s |
| PetProfile.PetProfileHook.FetchAll | src/lib/hooks/usePetProfile.ts:172-226 | pet and first page loaded; a failed entries request shows the pet with count 0 and an empty page; a failed pet request sets the error; loading ends |
| PetProfile.PetProfileHook.DeletePet | src/lib/hooks/usePetProfile.ts:260-301 | ignored while a deletion runs (no toast); otherwise navigates as `DeletePetNavigation` says, shows `DeletePetNotice`'s toast and clears the flag on failure (not on 401) |
| PetProfile.PetProfileHook.BeginDeleteEntry | src/lib/hooks/usePetProfile.ts:304-316 | the state and saved record of `RemoveOptimistically` |
| PetProfile.PetProfileHook.SettleDeleteEntry | src/lib/hooks/usePetProfile.ts:318-361 | the state becomes `Settle`'s |
| PetProfile.PetProfileHook.DeleteEntry | src/lib/hooks/usePetProfile.ts:304-364 | both halves in one step |
| PetProfile.PetProfileHook.ToggleExpandEntry | src/lib/hooks/usePetProfile.ts:367-377 | the expanded set becomes `Toggle`'s |
| PetNames.ParseSpecies | src/pages/api/pets.ts:281-283 | exactly "dog", "cat" or "other" parse |
| PetNames.NameIssue | src/pages/api/pets.ts:276-280 | a string whose trimmed length is 1 to 50 passes; a non-string, an empty or a too long name gets its message |
| PetNames.ValidateCreatePet | src/pages/api/pets.ts:275-284 | valid iff both fields pass, giving the trimmed name and the species; otherwise one error per failing field, name first |
| PetNames.ValidNameIsTrimmed | src/pages/api/pets.ts:276-280 | a validated name is trimmed and 1 to 50 characters long |
| PetNames.ValidateBody | src/pages/api/pets.ts:409-430 | a non-object body is one error at the empty path; an object goes to the schema |
| PetNames.Fold | src/pages/api/pets.ts:440 | ASCII upper-case letters fold to lower case; other characters stay |
| PetNames.WildcardsMatchOtherNames | src/pages/api/pets.ts:440 | as written, the raw names `R_x`, `R*` and `%` used as the `.ilike` value each match an existing "Rex", which is not the same name ignoring case |
| PetNames.StarsAsPercent | src/pages/api/pets.ts:440 | the REST layer's reading of an `.ilike` value: each `*` becomes `%`, every other character is kept |
| PetNames.PercentMatchesAll | src/pages/api/pets.ts:440 | the value `%` matches every name |
| PetNames.PlainNameMatchIsEquality | src/pages/api/pets.ts:436-441 | for a name with no `%`, `_`, backslash or `*`, the raw `.ilike` match is exactly equality ignoring case |
| PetNames.EscapeLike | src/pages/api/pets.ts:440 | each `%`, `_` and backslash is preceded by a backslash; other characters are kept |
| PetNames.EscapedLikeIsEquality | src/pages/api/pets.ts:436-441 | under SQL `ILIKE` alone, the escaped name matches exactly the names equal to it ignoring case |
| PetNames.EscapedMatchIsEquality | src/pages/api/pets.ts:436-441 | corrected: for a name without `*`, the escaped `.ilike` match is exactly equality ignoring case |
| PetStore.FirstActiveMatch | src/pages/api/pets.ts:436-441 | a found pet is active and its name matches the value under `.ilike`; none iff no active pet matches; the first pet when it is an active match |
| PetStore.DuplicateQuery | src/pages/api/pets.ts:436-446 | a failed check finds nothing and the insert goes ahead; otherwise the first active match |
| PetStore.ConflictIsRealDuplicate | src/pages/api/pets.ts:448-468 | for a plain name (no `%`, `_`, backslash or `*`), a conflict means some active pet has the same name ignoring case and the caller owns it |
| PetStore.OwnDuplicateIsFound | src/pages/api/pets.ts:436-468 | for a plain name, when the query sees only the caller's pets, an existing same-name pet is always reported |
| PetStore.PercentNameConflicts | src/pages/api/pets.ts:436-468 | as written, the name `%` is an owned duplicate whenever the first stored pet is active and the caller's |
| PetStore.PetTables.constructor | src/pages/api/pets.ts:436-482 | the tables hold the given store |
| PetStore.PetTables.InsertPet | src/pages/api/pets.ts:474-482 | appends one pet record and changes nothing else |
| PetStore.PetTables.InsertOwnership | src/lib/services/petService.ts:127-130 | appends one owner link and changes nothing else |
| PetsApi.Param | src/pages/api/pets.ts:69-72 | a missing or empty parameter is absent; any other value is kept |
| PetsApi.CoerceInt | src/pages/api/pets.ts:293-299 | a decimal numeral (white space around it trimmed) reads as its value |
| PetsApi.PageIssue | src/pages/api/pets.ts:293 | an absent page passes; a present one passes iff it is an integer of at least 1 |
| PetsApi.LimitIssue | src/pages/api/pets.ts:294-299 | an absent limit passes; a present one passes iff it is an integer from 1 to 100 |
| PetsApi.IncludeIssue | src/pages/api/pets.ts:300 | absent or exactly "summary" |
| PetsApi.ValidateListQuery | src/pages/api/pets.ts:292-301 | valid iff all three rules pass, with page default 1 and limit default 20 and in range; otherwise 1 to 3 details naming the failing fields |
| PetsApi.EmptyParamsGiveDefaults | src/pages/api/pets.ts:69-73 | empty parameters count as absent and give the defaults |
| PetsApi.CoerceRendered | src/pages/api/pets.ts:293-299 | a rendered non-negative number reads back as itself |
| PetsApi.PageBoundary | src/pages/api/pets.ts:293 | a rendered page passes iff it is at least 1 |
| PetsApi.LimitBoundary | src/pages/api/pets.ts:294-299 | a rendered limit passes iff it is from 1 to 100 |
| PetsApi.RenderedQueryValid | src/pages/api/pets.ts:292-301 | rendered in-range numbers with the summary are accepted unchanged |
| PetsApi.SearchParam | src/pages/api/pets.ts:68-72 | the value of the first pair with that name, none if there is none |
| PetsApi.ClientQueryAccepted | src/pages/api/pets.ts:68-96 | the dashboard's query string, read back by the endpoint, is accepted with the same page and limit |
| PetsApi.Window | src/pages/api/pets.ts:167 | `.range(offset, offset + limit - 1)`: at most `limit` rows, the rows from `(page - 1) * limit` on, in order |
| PetsApi.RowOnItsPage | src/pages/api/pets.ts:101 | row `i` is item `i % limit` of page `i / limit + 1`, which lies within the page count |
| PetsApi.ToSummary | src/pages/api/pets.ts:228-238 | the columns are copied and a null entry count reads as 0 |
| PetsApi.MapRows | src/pages/api/pets.ts:216-238 | only complete rows are kept, each mapped; with no null column, one item per row in order |
| PetsApi.OwnedPetIds | src/pages/api/pets.ts:104-128 | an id is listed iff the user owns that pet |
| PetsApi.RowsOf | src/pages/api/pets.ts:165 | a row is kept iff its id is one of the ids; no ids keep nothing |
| PetsApi.Get | src/pages/api/pets.ts:32-268 | the early answers in order (500 thrown, 500 no client, 401, 400 with the schema's details); status is 200, 400, 401 or 500; a page holds at most `limit` items |
| PetsApi.NoPetsShortcutAgrees | src/pages/api/pets.ts:131-145 | the early empty answer for a user without pets is what the full path would give |
| PetsApi.ListShowsOwnPets | src/pages/api/pets.ts:104-247 | with no faults the list is the complete rows of the requested window of the user's view rows, mapped; every listed pet is the user's; the total counts the user's view rows |
| PetsApi.PostOutcome | src/pages/api/pets.ts:317-548 | early answers in order; created iff valid, not an owned duplicate and inserted; status in {201, 400, 401, 409, 500}; only a creation changes the store, appending the new pet |
| PetsApi.ConflictNamesOwnedPet | src/pages/api/pets.ts:448-468 | for a plain name, a 409 means the body was valid and some active pet of the caller's has that name ignoring case |
| PetsApi.PercentNameGetsConflict | src/pages/api/pets.ts:436-468 | as written, a signed-in caller creating a pet named `%` gets 409 when the first stored pet is active and theirs, although that pet's name differs |
| PetsApi.CreatedPetIsOnlyChange | src/pages/api/pets.ts:474-532 | a creation appends one active pet with a trimmed 1..50-character name; links and the earlier pets are unchanged |
| PetsApi.CreatedRecord | src/pages/api/pets.ts:474-527 | the appended record is the one the 201 answer describes |
| PetsApi.Post | src/pages/api/pets.ts:317-548 | the handler's response and new tables are `PostOutcome`'s |
| PetsApi.CreateOutcome | src/pages/api/pets.ts:436-530 | after validation: 409 exactly for an owned duplicate; created exactly when there is none and the insert returns a row, with the validated name; only a creation changes the store, by appending the new active pet |
| PetsApi.Create | src/pages/api/pets.ts:436-530 | the validated part of the handler answers and updates the tables as `CreateOutcome` says |
| PetService.CreatePetOutcome | src/lib/services/petService.ts:17-149 | 500 when thrown, 400 with details when invalid; 409 iff an owned duplicate or a unique violation; success iff valid, no owned duplicate and inserted; a failure changes nothing |
| PetService.ServiceAgreesWithEndpoint | src/lib/services/petService.ts:17-124 | for a signed-in caller the service and the endpoint give the same status, except that the service turns a unique violation into 409 |
| PetService.CreatorSeesPetIffLinked | src/lib/services/petService.ts:126-135 | after a creation the creator owns the new pet iff the owner link was written |
| PetService.CreatePet | src/lib/services/petService.ts:17-149 | the service's result and new tables are `CreatePetOutcome`'s |
| PetService.CreateValidated | src/lib/services/petService.ts:53-140 | after validation: 409 exactly for an owned duplicate or a unique violation; success exactly when there is no duplicate and the insert returns a row; a success appends the pet and, unless the link insert fails, the ownership |
| PetService.CreateCommand | src/lib/services/petService.ts:53-140 | the validated part of the service answers and updates the tables as `CreateValidated` says |
| PetService.ValidatedAgree | src/lib/services/petService.ts:97-106 | after validation the service and the endpoint give the same status, except that a unique violation is 409 for the service and 500 for the endpoint |
| CareEntryForm.InitialFormData | src/components/CareEntryForm.tsx:40-53 | edit mode with data starts from exactly the entry's category, day and note (null note as empty); otherwise no category, today, empty note |
| CareEntryForm.SubmitDisabledInitially | src/components/CareEntryForm.tsx:322 | a freshly opened form cannot be submitted: a new entry has no category, and an edited one is unchanged |
| CareEntryForm.ValidationErrors | src/components/CareEntryForm.tsx:118-131 | a category error iff none is chosen; a note error iff the note is over 1000 characters |
| CareEntryForm.ValidateForm | src/components/CareEntryForm.tsx:118-131 | the errors are `ValidationErrors`; ok iff there are none |
| CareEntryForm.NoteLengthEdge | src/components/CareEntryForm.tsx:125-127 | a note of exactly 1000 characters passes and one of 1001 fails |
| CareEntryForm.CreateCommandOf | src/components/CareEntryForm.tsx:216-220 | the category and day; the note trimmed, left out when it trims to empty |
| CareEntryForm.BuildPartialUpdate | src/components/CareEntryForm.tsx:179-199 | corrected: each field is present iff it changed; a cleared note is sent as `null` |
| CareEntryForm.BuildPartialUpdateAsWritten | src/components/CareEntryForm.tsx:192-196 | as written, a note cleared to empty becomes `undefined` and is dropped from the JSON body |
| CareEntryForm.UpdateEmptyIffUnchanged | src/components/CareEntryForm.tsx:258-265 | the corrected update has no key exactly when the form is unchanged |
| CareEntryForm.ApplyPatch | src/components/CareEntryForm.tsx:267-273 | the entry endpoint this PATCH reaches refuses a body with no field; otherwise each field in the body replaces the stored one (`null` clearing the note) and each absent field keeps it |
| CareEntryForm.ClearedNoteIsLostAsWritten | src/components/CareEntryForm.tsx:192-196 | as written, clearing only the note sends `{}`, which the endpoint refuses |
| CareEntryForm.PatchReachesForm | src/components/CareEntryForm.tsx:179-199 | with the corrected update, the stored entry after the PATCH shows up in a new edit form as exactly what the user left |
| CareEntryForm.HandleApiError | src/components/CareEntryForm.tsx:134-176 | the exact toast, general error and redirect per status: 400 "Sprawdź poprawność danych"; 401 "Sesja wygasła" and `/`; 403 the entry or pet wording and `/dashboard`; 404 the entry or pet wording and the pet page or `/dashboard`; 500 the retry notice; any other status the unexpected-error notice |
| CareEntryForm.Respond | src/components/CareEntryForm.tsx:230-302 | a refusal is exactly `HandleApiError` with submitting cleared; success toasts "Wpis został dodany" or "Wpis został zaktualizowany", keeps submitting set and calls back or goes to `/pets/<petId>`; a thrown fetch clears submitting and toasts the connection notice for a `TypeError`, the unexpected-error notice otherwise |
| CareEntryForm.SubmitOutcome | src/components/CareEntryForm.tsx:202-304 | an invalid form sends nothing and shows its errors; a form with no validation error is valid and the outcome is exactly `SendOutcome`; an edit that sends has at least one key and a changed form, and one whose body would be empty only cleared the note |
| CareEntryForm.SendOutcome | src/components/CareEntryForm.tsx:210-304 | create posts the command; edit without an id sends nothing and toasts "Wystąpił błąd"; edit with no key sends nothing and toasts "Nie wprowadzono żadnych zmian"; otherwise a PATCH to the entry path with the update as written; whenever a request is sent, errors, submitting and effect are exactly `Respond` |
| CareEntryForm.FailedSubmitCanRetry | src/components/CareEntryForm.tsx:230-302 | after a sent request that fails, the form keeps its input, submitting is cleared and the submit button is enabled exactly as before the submit |
| CareEntryForm.CareEntryFormState.constructor | src/components/CareEntryForm.tsx:55-63 | data and initial data from `InitialFormData`, no errors, not submitting |
| CareEntryForm.CareEntryFormState.CategoryChange | src/components/CareEntryForm.tsx:87-93 | sets the category and clears only its error |
| CareEntryForm.CareEntryFormState.DateChange | src/components/CareEntryForm.tsx:96-105 | a cleared picker changes nothing; a day sets the date and clears its error |
| CareEntryForm.CareEntryFormState.NoteChange | src/components/CareEntryForm.tsx:108-115 | sets the note and clears only its error |
| CareEntryForm.CareEntryFormState.HandleSubmit | src/components/CareEntryForm.tsx:202-304 | the request, effect and new state are `SubmitOutcome`'s |
| CareEntryForm.CareEntryFormState.Send | src/components/CareEntryForm.tsx:207-304 | a valid form's request, effect and new state are `SendOutcome`'s |
| CareEntryForm.CareEntryFormState.SendEdit | src/components/CareEntryForm.tsx:248-293 | in edit mode, the request, effect and new state are `SendOutcome`'s |
| PetForm.DefaultValues | src/components/hooks/usePetForm.ts:18-29 | the pet's name and species in edit mode with data; otherwise empty |
| PetForm.EditFormStartsUnchanged | src/components/hooks/usePetForm.ts:44-55 | an edit form opened on a pet with a trimmed name starts unchanged |
| PetForm.NameRule | src/components/hooks/usePetForm.ts:57-66 | fails iff the trimmed name is empty or over 50 characters, with the matching message |
| PetForm.SpeciesRule | src/components/hooks/usePetForm.ts:68-76 | an empty species fails only when creating |
| PetForm.NameRuleMatchesServer | src/components/hooks/usePetForm.ts:57-66 | the form accepts exactly the names the server's create schema accepts |
| PetForm.HandleApiError | src/components/hooks/usePetForm.ts:78-117 | per status the exact toast, redirect and field errors: 400 sets the root error iff the message is non-empty; 401 "Sesja wygasła" and `/`; 403 and 404 the pet wording and `/dashboard`; 409 the duplicate-name error on `name`; 500 and other statuses a notice only |
| PetForm.SubmitRequest | src/components/hooks/usePetForm.ts:119-142 | create posts the trimmed name and species; edit patches the trimmed name; edit without an id sends nothing |
| PetForm.SubmitOutcome | src/components/hooks/usePetForm.ts:119-168 | the rules block first; an edit without an id sends nothing and toasts "Wystąpił błąd"; otherwise the request is `SubmitRequest` and errors and effect are exactly `AnswerOutcome` |
| PetForm.SubmittedPetPassesServer | src/components/hooks/usePetForm.ts:119-125 | a name and species the form accepts pass the server's create validation with the same trimmed name |
| PetForm.PetFormState.constructor | src/components/hooks/usePetForm.ts:31-42 | the form reset to the default values, no errors |
| PetForm.PetFormState.SetName | src/components/hooks/usePetForm.ts:31-35 | typing a name re-validates it |
| PetForm.PetFormState.SetSpecies | src/components/hooks/usePetForm.ts:31-35 | choosing a species re-validates it |
| PetForm.PetFormState.Submit | src/components/hooks/usePetForm.ts:153-168 | the request, effect and new errors are `SubmitOutcome`'s |
| PetForm.AnswerOutcome | src/components/hooks/usePetForm.ts:119-168 | a save toasts "Zwierzę zostało dodane" or "Zmiany zostały zapisane", keeps the errors and either hands the id to the callback or navigates to `/pets/<id>`; an API refusal is exactly `HandleApiError`; a failed fetch keeps the errors and toasts the connection notice for a `TypeError`, the unexpected-error notice otherwise |
| PetForm.AnswerChangesIff | src/components/hooks/usePetForm.ts:78-168 | the root error changes iff a 400 brings a new non-empty message; the name error changes iff a 409 finds no duplicate-name error there yet; the species error never changes; the page navigates iff a save has no callback or the refusal is 401, 403 or 404 |
| PetForm.PetFormState.ApplyAnswer | src/components/hooks/usePetForm.ts:153-168 | the errors and effect after the request are `AnswerOutcome`'s |
| SupabaseClient.ParseCookie | src/db/supabase.client.ts:14-17 | the name is the trimmed piece before its first `=`; the value is everything after it, further `=` kept |
| SupabaseClient.ParseCookies | src/db/supabase.client.ts:14-17 | one cookie per piece, in order |
| SupabaseClient.ParseCookieHeader | src/db/supabase.client.ts:13-18 | one cookie per `;`-separated piece |
| SupabaseClient.CookieCount | src/db/supabase.client.ts:14 | one cookie more than the number of `;` in the header |
| SupabaseClient.CookieRoundTrip | src/db/supabase.client.ts:13-18 | a cookie written as `name=value` parses back to itself |
| SupabaseClient.SpacedCookieRoundTrip | src/db/supabase.client.ts:13-18 | so does one preceded by a space |
| SupabaseClient.CookieHeaderRoundTrip | src/db/supabase.client.ts:13-18 | cookies without `;`, `=` in the name or edge space, written as a header, parse back to the same list |
| SupabaseClient.SemicolonSplitsValue | src/db/supabase.client.ts:14 | a `;` inside a value splits it, and the text after it becomes a cookie of its own |
| SupabaseClient.Lookup | src/db/supabase.client.ts:29-30 | an environment gives a value only when the variable is set to a non-empty string |
| SupabaseClient.ResolveCredentials | src/db/supabase.client.ts:29-38 | URL and key each from the runtime environment, falling back to the build environment; none iff either is missing |
| SupabaseClient.OutgoingHeaders | src/db/supabase.client.ts:46-60 | with a token, a request off `/auth/v1/` gets `Authorization: Bearer {token}`; every other header is kept |
| SupabaseClient.TokenOnlyOffAuthPaths | src/db/supabase.client.ts:50-52 | a request to an auth endpoint never gets the token, and any other request gets exactly it |
| UriComponent.EncodeUriComponent | src/middleware/index.ts:85 | every character of the result is `%` or unreserved, and it is at least as long as the input |
| UriComponent.UnreservedUnchanged | src/middleware/index.ts:85 | a string of unreserved characters encodes to itself |
| UriComponent.DecodeEncodedChar | src/middleware/index.ts:85 | an ASCII character's encoding decodes back to it |
| UriComponent.EncodeDecodeAscii | src/middleware/index.ts:85 | percent-decoding the encoding of an ASCII string gives back the string |
| Middleware.AuthCookieSeenByClient | src/middleware/index.ts:31-35 | the middleware sees an auth cookie iff a cookie the client parses from the same header has an auth-cookie name |
| Middleware.ProjectEnv | src/middleware/index.ts:12-17 | only `SUPABASE_URL`, `SUPABASE_KEY` and `DEBUG_ERRORS` are kept, each with its runtime value |
| Middleware.RoutesDisjoint | src/middleware/index.ts:78-81 | no path is both protected and sign-in-only |
| Middleware.LoginLocation | src/middleware/index.ts:85 | `/login?redirect=` followed by the encoded path |
| Middleware.Guard | src/middleware/index.ts:77-93 | redirect to login iff protected and signed out; to the dashboard iff sign-in-only and signed in; otherwise next |
| Middleware.LoginLocationCarriesPath | src/middleware/index.ts:85 | the encoded path has no `&`, `#`, `=` or `/`, and decodes back to an ASCII path |
| Middleware.DashboardLoginLocation | src/middleware/index.ts:84-86 | a signed-out visit to `/dashboard` is sent to `/login?redirect=%2Fdashboard` |
| Middleware.SlashPathLoginLocation | src/middleware/index.ts:84-86 | a signed-out visit to a protected `/x`, with `x` free of reserved characters, is sent to `/login?redirect=%2Fx` |
| Middleware.HandleRequest | src/middleware/index.ts:6-104 | without credentials: no client, no user, next; without an auth cookie: an anonymous client, no user, and the guard; the auth server is asked iff both are there; a throwing `getUser`, or a throwing `getSession` after a user, empties the locals and lets the request through; a completed lookup keeps a client and exactly the user returned, and the guard decides; the client carries the session token iff there is a user and a non-empty token |
| Middleware.AnonymousSkipsAuth | src/middleware/index.ts:29-38 | without an auth cookie the outcome does not depend on the auth server's answers and there is no user |
| Middleware.ProtectedServedOnlyToUsers | src/middleware/index.ts:84-103 | a protected path is served to a signed-out visitor only through the error path, with no client |
| Middleware.Locals.constructor | src/middleware/index.ts:4 | empty environment, no client, no user |
| Middleware.OnRequest | src/middleware/index.ts:3-105 | assigns the locals step by step and ends in `HandleRequest`'s locals, action and auth flag |
| AuthValidation.EmailShapeMatchesPattern | src/components/auth/RegisterForm.tsx:27 | the split-at-`@` reading of `^[^\s@]+@[^\s@]+\.[^\s@]+$` matches exactly the strings the pattern matches |
| AuthValidation.EmailIssue | src/components/auth/RegisterForm.tsx:25-29 | "required" iff empty; "malformed" iff non-empty and not matching; none iff non-empty and matching |
| AuthValidation.GoodEmailExample | src/components/auth/RegisterForm.tsx:27 | `ala@kot.pl` passes |
| AuthValidation.NoDotEmailExample | src/components/auth/RegisterForm.tsx:27 | `ala@kot` is malformed |
| AuthValidation.NewPasswordIssue | src/components/auth/RegisterForm.tsx:31-35 | "required" iff empty; "too short" iff 1 to 7 characters |
| AuthValidation.LoginPasswordIssue | src/components/auth/LoginForm.tsx:32-35 | "required" iff empty, no length rule |
| AuthValidation.ConfirmIssue | src/components/auth/RegisterForm.tsx:37-41 | "required" iff empty; "differ" iff non-empty and different |
| AuthValidation.Blurred | src/components/auth/RegisterForm.tsx:51-56 | a blur sets the field's error when it has one and otherwise leaves the shown error |
| AuthValidation.OrDefault | src/components/auth/LoginForm.tsx:103 | `value \|\| fallback`: the value when it is a non-empty string, the fallback otherwise |
| RegisterForm.ValidationErrors | src/components/auth/RegisterForm.tsx:88-100 | one error per failing field, each iff its rule fails; no general error |
| RegisterForm.PassesIff | src/components/auth/RegisterForm.tsx:88-100 | passes iff the e-mail matches, the password has 8 characters and the confirmation equals it |
| RegisterForm.IsValidIff | src/components/auth/RegisterForm.tsx:130-135 | the button asks for the password rules in full but only for some e-mail; whatever passes enables it |
| RegisterForm.MalformedEmailEnablesSubmit | src/components/auth/RegisterForm.tsx:130-135 | `ala` with good passwords enables the button and fails on submit |
| RegisterForm.RegisterFormState.constructor | src/components/auth/RegisterForm.tsx:8-21 | empty fields, no errors, not submitting |
| RegisterForm.RegisterFormState.ChangeEmail | src/components/auth/RegisterForm.tsx:43-49 | stores the text and clears only the e-mail error |
| RegisterForm.RegisterFormState.ChangePassword | src/components/auth/RegisterForm.tsx:58-64 | stores the text and clears only the password error |
| RegisterForm.RegisterFormState.ChangeConfirmPassword | src/components/auth/RegisterForm.tsx:73-79 | stores the text and clears only the confirmation error |
| RegisterForm.RegisterFormState.BlurEmail | src/components/auth/RegisterForm.tsx:51-56 | the e-mail error after `Blurred` |
| RegisterForm.RegisterFormState.BlurPassword | src/components/auth/RegisterForm.tsx:66-71 | the password error after `Blurred` |
| RegisterForm.RegisterFormState.BlurConfirmPassword | src/components/auth/RegisterForm.tsx:81-86 | the confirmation error after `Blurred` |
| RegisterForm.RegisterFormState.ValidateForm | src/components/auth/RegisterForm.tsx:88-100 | errors become `ValidationErrors`; ok iff it passes |
| RegisterForm.RegisterFormState.Submit | src/components/auth/RegisterForm.tsx:102-128 | goes to `/dashboard` with no errors iff the form passes; otherwise shows the validation errors |
| LoginForm.ValidationErrors | src/components/auth/LoginForm.tsx:67-77 | one error per failing field; the password only has to be present |
| LoginForm.PassesIff | src/components/auth/LoginForm.tsx:67-77 | passes iff the e-mail matches and the password is non-empty |
| LoginForm.PassingFormIsValid | src/components/auth/LoginForm.tsx:118 | whatever passes enables the button; with a matching e-mail an enabled button means the form passes |
| LoginForm.SubmitOutcome | src/components/auth/LoginForm.tsx:79-116 | sends iff the form passes; redirects to `redirectUrl` iff the answer is ok; otherwise the server's error or the default one |
| LoginForm.LoginFormState.constructor | src/components/auth/LoginForm.tsx:11-23 | `redirectUrl` defaults to `/dashboard` when not given; empty fields, no errors |
| LoginForm.LoginFormState.ChangeEmail | src/components/auth/LoginForm.tsx:37-43 | stores the text and clears only the e-mail error |
| LoginForm.LoginFormState.ChangePassword | src/components/auth/LoginForm.tsx:52-58 | stores the text and clears only the password error |
| LoginForm.LoginFormState.BlurEmail | src/components/auth/LoginForm.tsx:45-50 | the e-mail error after `Blurred` |
| LoginForm.LoginFormState.BlurPassword | src/components/auth/LoginForm.tsx:60-65 | the password error after `Blurred` |
| LoginForm.LoginFormState.ValidateForm | src/components/auth/LoginForm.tsx:67-77 | errors become `ValidationErrors`; ok iff it passes |
| LoginForm.LoginFormState.Submit | src/components/auth/LoginForm.tsx:79-116 | errors, request and redirect are `SubmitOutcome`'s; not submitting once a request was sent |
| ResetPasswordConfirmForm.ValidationErrors | src/components/auth/ResetPasswordConfirmForm.tsx:70-80 | a password error iff under 8 characters; a confirmation error iff empty or different |
| ResetPasswordConfirmForm.IsValidIffPasses | src/components/auth/ResetPasswordConfirmForm.tsx:124 | the button and the submit-time check agree exactly |
| ResetPasswordConfirmForm.SubmitOutcome | src/components/auth/ResetPasswordConfirmForm.tsx:82-122 | sends the token and new password iff the form passes; success toasts and goes to `/login`; failure shows the server's error or the default |
| ResetPasswordConfirmForm.ResetPasswordConfirmFormState.constructor | src/components/auth/ResetPasswordConfirmForm.tsx:12-24 | keeps the token; empty fields, no errors |
| ResetPasswordConfirmForm.ResetPasswordConfirmFormState.ChangePassword | src/components/auth/ResetPasswordConfirmForm.tsx:40-46 | stores the text and clears only the password error |
| ResetPasswordConfirmForm.ResetPasswordConfirmFormState.ChangeConfirmPassword | src/components/auth/ResetPasswordConfirmForm.tsx:55-61 | stores the text and clears only the confirmation error |
| ResetPasswordConfirmForm.ResetPasswordConfirmFormState.BlurPassword | src/components/auth/ResetPasswordConfirmForm.tsx:48-53 | the password error after `Blurred` |
| ResetPasswordConfirmForm.ResetPasswordConfirmFormState.BlurConfirmPassword | src/components/auth/ResetPasswordConfirmForm.tsx:63-68 | the confirmation error after `Blurred` |
| ResetPasswordConfirmForm.ResetPasswordConfirmFormState.ValidateForm | src/components/auth/ResetPasswordConfirmForm.tsx:70-80 | errors become `ValidationErrors`; ok iff it passes |
| ResetPasswordConfirmForm.ResetPasswordConfirmFormState.Submit | src/components/auth/ResetPasswordConfirmForm.tsx:82-122 | errors, request and effect are `SubmitOutcome`'s |
| ResetPasswordRequestForm.SubmitOutcome | src/components/auth/ResetPasswordRequestForm.tsx:34-75 | sends the address iff it passes; a refusal shows the server's error or the default; success and a thrown request both switch to the inbox view |
| ResetPasswordRequestForm.SuccessIndistinguishableFromFailure | src/components/auth/ResetPasswordRequestForm.tsx:59-71 | a success without a message and a thrown request end in the same state with the same notice |
| ResetPasswordRequestForm.InvalidEmailSendsNothing | src/components/auth/ResetPasswordRequestForm.tsx:37-41 | a failing address sends nothing, whatever the server would answer, and disables the button |
| ResetPasswordRequestForm.ResetPasswordRequestFormState.constructor | src/components/auth/ResetPasswordRequestForm.tsx:8-11 | empty address, no error, both flags off |
| ResetPasswordRequestForm.ResetPasswordRequestFormState.ChangeEmail | src/components/auth/ResetPasswordRequestForm.tsx:19-25 | stores the text and clears the error; a non-empty address enables the button when idle |
| ResetPasswordRequestForm.ResetPasswordRequestFormState.BlurEmail | src/components/auth/ResetPasswordRequestForm.tsx:27-32 | shows the address's problem, which disables the button |
| ResetPasswordRequestForm.ResetPasswordRequestFormState.Submit | src/components/auth/ResetPasswordRequestForm.tsx:34-75 | state, request and toast are `SubmitOutcome`'s |
| EnvFile.StripQuotes | tests/e2e/index.cjs:17 | one quote is removed from each end independently; a lone quote is removed once |
| EnvFile.LineEntry | tests/e2e/index.cjs:13-19 | a setting's key is non-empty and has no `=` |
| EnvFile.LineEntryMeaning | tests/e2e/index.cjs:13-19 | a line sets something iff its trimmed text is neither empty nor a comment and has a key before an `=`; the value is the rest, quotes stripped |
| EnvFile.Entries | tests/e2e/index.cjs:12 | one entry per line, in order |
| EnvFile.KeySetIff | tests/e2e/index.cjs:12-21 | a key is set iff some line sets it |
| EnvFile.LastLineWins | tests/e2e/index.cjs:12-21 | a key's value is the one the last line setting it gives |
| EnvFile.LoadEnv | tests/e2e/index.cjs:12-21 | the loop builds exactly the settings of the file's lines |
| EnvFile.SpacesAroundEqualsKept | tests/e2e/index.cjs:15-18 | `K = v` sets `K ` to ` v` |
| EnvFile.MismatchedQuotesStripped | tests/e2e/index.cjs:17 | `"abc'` becomes `abc` |
| EnvFile.InnerEqualsKept | tests/e2e/index.cjs:15-17 | `URL="a=b"` sets `URL` to `a=b` |
| EnvFile.SkippedLines | tests/e2e/index.cjs:14-16 | comment lines and lines without a key set nothing |
| Common.Trim | src/db/supabase.client.ts:15 | `trim()`: the middle of the string with white space removed from both ends, starting and ending with non-space |
| Common.TrimIdempotent | src/db/supabase.client.ts:15 | trimming twice is trimming once |
| Common.JoinSplit | src/db/supabase.client.ts:15-16 | joining the pieces of a split with the same separator gives back the string |
| Common.SplitJoin | src/db/supabase.client.ts:15-16 | splitting a join of separator-free pieces gives back the pieces |
| Common.SplitAtFirst | tests/e2e/index.cjs:15-17 | the text before the first separator and, iff there is one, the text after it, glued back to the string |
| Common.NatToString | src/lib/hooks/usePetsList.ts:104 | `toString()` of a number: non-empty decimal digits, no leading zero |
| Common.DecimalRoundTrip | src/lib/hooks/usePetsList.ts:104 | reading the rendering back gives the number |

## Left out

- Network, timers, toasts and navigation are not performed. Each request's answer is an input; each timer-delayed redirect, including the 2-second wait before the password-reset form goes to `/login`, is an immediate effect. A toast is a returned value where a member names it (the pet deletion's `DeletePetNotice`, the forms' effects, the dashboard's `ErrorToast`); the care-entry deletion's toasts are not modelled.
- `console` logging everywhere, including the middleware's, is not modelled.
- Dates are day strings or integer milliseconds. Formatting with date-fns and the time zone of `toISOString` are not modelled.
- PetsApi.CoerceInt: reads only decimal numerals. Zod's `Number(s)` coercion also accepts forms such as `1e2`, `0x10` or `1.0`. Zod's exact messages for non-numbers are approximated.
- String lengths count characters (code points), not UTF-16 units; case folding for `ILIKE` covers ASCII letters only.
- `POST /api/pets` (src/pages/api/pets.ts) writes no owner link; the model follows the code. Linking is left to the database, which is not part of this model.
- PetsApi.Get: each database call's failure is one input flag, and the count query is read as the number of visible rows. `.single()` is read as "some link exists".
- The header and the dashboard card label counts 2 to 4 differently. PetHeader.HeaderLabelVersusCardLabel states this and the model keeps both.
- CareHistoryList paging: the design calls for desktop paging to replace the list, but the code appends. The model follows the code (see Findings).
- `response.json()` failing on an ok answer is folded into the thrown case.
- The calendar popover's open flag, the note's character counter, the header texts and the show-password toggles are not modelled.
- PetForm: react-hook-form's own state (dirty tracking, button disabling in the form context) is reduced to the rules, the errors and the submit outcome.
- Headers are a map keyed by lower-case name; `Headers` merging order is not modelled.
- The middleware's unit tests mock `cookies.getAll`, but the code reads the `Cookie` header; the model follows the code.
- UriComponent.EncodeDecodeAscii: the decoding round trip is proved for ASCII strings only. Multi-byte UTF-8 is encoded but not proved to decode back.
- RegisterForm.RegisterFormState.Submit: submission is a placeholder in the source (log line, one-second wait, `alert`), none of which is modelled. Its `catch` branch cannot be reached, so it is left out.
- `Object.assign(process.env, …)` and the rest of tests/e2e/index.cjs (running Playwright) are not part of this model.
- The validators the auth forms each repeat are modelled once, in `AuthValidation`.
- Of the care-entry route src/pages/api/pets/[petId]/care-entries/[entryId].ts, only what its PATCH does with a body is modelled (in `CareEntryForm.ApplyPatch`): authentication, ownership checks and the database calls are not part of this model.
- CareEntryForm.ApplyPatch: models the `refine` of the entry route's update schema (lines 44-52 of src/pages/api/pets/[petId]/care-entries/[entryId].ts) and its field overwrite. Its Model row cites the form's PATCH call because a row cannot cite a path with brackets, so the route lines are cited here only.
- PetNames.Ilike: `.ilike` is modelled as PostgREST documents it: each `*` in the value becomes `%`, then SQL `ILIKE` with `%`, `_` and backslash escapes applies. Database collations are not modelled.
- PetNames.EscapedMatchIsEquality: the corrected check is proved only for names without `*`. PostgREST reads every `*` as `%`, and no backslash escape turns it back into a literal `*`, so even an escaped name keeps `*` as a wildcard.
- PetStore.ConflictIsRealDuplicate: holds as written only for plain names (no `%`, `_`, backslash or `*`); for other names the check also matches other names (see `PetStore.PercentNameConflicts` and Findings).
- PetStore.OwnDuplicateIsFound: stated for plain names only, for the same reason.
- PetsApi.ConflictNamesOwnedPet: stated for plain names only; `PetsApi.PercentNameGetsConflict` shows the 409 a `%` name gets from a pet with another name.
- Dashboard.ToastForOffline: relies on the browser's network-failure message containing "Failed to fetch", which is Chromium's wording. Browsers with other wording get the generic toast, and the model does not cover them.
- PetHeader.PetHeaderState.ConfirmDelete: runs the handler as written, so the mark is never cleared. The corrected `PetHeader.Step` is stated and proved as a function (`PetHeader.HeaderFollowsController`); no method runs it.

## Findings

| source | as written | input that shows it | evidently intended | confidence | as-written member | corrected member |
|---|---|---|---|---|---|---|
| src/components/CareHistoryList.tsx:38-48 | a page above the current one always loads more (append), on a desktop too | desktop, page 1 of 3 shown, "Next" (page 2) | desktop navigation replaces the list with the requested page | not executed | CareHistoryList.DesktopNextAppendsAsWritten | CareHistoryList.ViewportDispatchReplacesOnDesktop |
| src/components/CareHistoryList.tsx:107-112 | the card gets no `petId`, so its edit link is `/pets/undefined/entries/{id}/edit` | any entry card's edit button | `/pets/{petId}/entries/{id}/edit` | not executed | CareHistoryList.CardEditLinkLosesPet | CareEntries.EditHrefSegments |
| src/components/PetHeader.tsx:16-20 | `isDeleting` is set and never cleared | delete confirmed, server answers 500 | the dialog is usable again after a failed deletion | not executed | PetHeader.FailedDeletionLocksDialog | PetHeader.HeaderFollowsController |
| src/pages/api/pets.ts:440 | the name is passed to `.ilike` unescaped, so `%`, `_` and `*` are wildcards | a new pet named `%` while the first stored pet is the caller's active "Burek" gives 409 | the duplicate check compares names ignoring case only | not executed | PetsApi.PercentNameGetsConflict | PetNames.EscapedMatchIsEquality |
| src/components/CareEntryForm.tsx:192-196 | a note cleared to empty becomes `undefined`, which `JSON.stringify` drops | edit an entry with note "x", clear the note only: the body is `{}` and the endpoint answers 400 | the note is cleared (`null` is sent) | not executed | CareEntryForm.ClearedNoteIsLostAsWritten | CareEntryForm.PatchReachesForm |
