/** The pet-profile controller (`usePetProfile`): the pet header, the care
    history shown so far, its pagination, the loading flag, the expanded
    notes and the pet-delete flag, with the operations that load pages
    (append or replace), delete an entry optimistically with rollback, and
    delete the pet. Every request is one atomic step whose outcome is an
    input; toasts, timers and navigation are reduced to returned values. */
module PetProfile {
  import opened Common
  import opened Pagination
  import opened CareEntries

  /** Page size the profile always asks for. */
  const EntriesPageSize: int := 20

  const LoadError: string := "Wystąpił błąd podczas ładowania danych"

  datatype PetDto = PetDto(id: string, name: string, speciesEmoji: string, speciesDisplay: string)

  datatype PetHeaderView = PetHeaderView(
    id: string, name: string, speciesEmoji: string, speciesDisplay: string,
    entriesCount: int, lastEntryDate: Option<int>)

  /** A page of care history as the server sends it. */
  datatype EntriesPage = EntriesPage(items: seq<CareEntryDto>, pagination: PageWindow)

  /** Outcome of a care-history request: a page, a non-2xx status, or a thrown
      error (no connection, unreadable body). */
  datatype EntriesResponse = EntriesOk(data: EntriesPage) | EntriesNotOk(status: int) | EntriesThrown

  /** Outcome of the pet request; `PetFailed` is any other non-2xx status or a
      thrown error. */
  datatype PetResponse = PetOk(pet: PetDto) | PetNotFound | PetForbidden | PetUnauthorized | PetFailed

  /** Outcome of a DELETE request; a thrown error is a `TypeError` (no
      connection) or anything else. */
  datatype DeleteResponse = DeleteOk | DeleteNotOk(status: int) | DeleteThrown(typeError: bool)

  /** A toast: a success notice or an error notice with its text. */
  datatype Notice = Success(text: string) | Failure(text: string)

  /** The query `?page=<page>&limit=20&order=desc` a load sends. */
  datatype EntriesRequest = EntriesRequest(page: int, limit: int, append: bool)

  /** The whole state of the hook. */
  datatype Profile = Profile(
    pet: Option<PetHeaderView>, entries: seq<CareEntryCardView>, pagination: Option<PaginationView>,
    isLoading: bool, error: Option<string>, expanded: set<string>, isDeletingPet: bool)

  /** The server always reports a page size of at least one. */
  predicate WellFormed(r: EntriesResponse) {
    r.EntriesOk? ==> r.data.pagination.limit >= 1
  }

  function MapPet(p: PetDto, entriesCount: int, lastEntryDate: Option<int>): (h: PetHeaderView)
    ensures h.id == p.id && h.name == p.name && h.speciesEmoji == p.speciesEmoji
    ensures h.speciesDisplay == p.speciesDisplay
    ensures h.entriesCount == entriesCount && h.lastEntryDate == lastEntryDate
  {
    PetHeaderView(p.id, p.name, p.speciesEmoji, p.speciesDisplay, entriesCount, lastEntryDate)
  }

  /** The date of the first (newest) record of a page, if it has one. */
  function FirstEntryDate(items: seq<CareEntryDto>): (d: Option<int>)
    ensures items == [] ==> d.None?
    ensures items != [] ==> d == items[0].entryDate
  {
    if items == [] then None else items[0].entryDate
  }

  /** The header count agrees with the server's total. */
  predicate CountMatchesTotal(s: Profile) {
    s.pet.Some? && s.pagination.Some? ==> s.pet.value.entriesCount == s.pagination.value.total
  }

  /** The state change of a successful care-history load: the mapped records
      are appended after the shown ones or replace them, the pagination
      becomes the view of the page just received, and a pet header takes the
      server's total and the date of the page's first record. */
  function ReceiveEntries(s: Profile, data: EntriesPage, append: bool): (t: Profile)
    requires data.pagination.limit >= 1
    ensures append ==> (|t.entries| == |s.entries| + |data.items|
      && t.entries[..|s.entries|] == s.entries && t.entries[|s.entries|..] == MapEntries(data.items))
    ensures !append ==> t.entries == MapEntries(data.items)
    ensures t.pagination == Some(ToView(data.pagination))
    ensures t.pet.Some? <==> s.pet.Some?
    ensures t.pet.Some? ==> t.pet.value == s.pet.value.(
      entriesCount := data.pagination.total, lastEntryDate := FirstEntryDate(data.items))
    ensures t.isLoading == s.isLoading && t.error == s.error
    ensures t.expanded == s.expanded && t.isDeletingPet == s.isDeletingPet
  {
    var mapped := MapEntries(data.items);
    var pet := match s.pet
      case None => None
      case Some(p) => Some(p.(entriesCount := data.pagination.total, lastEntryDate := FirstEntryDate(data.items)));
    s.(entries := if append then s.entries + mapped else mapped,
       pagination := Some(ToView(data.pagination)),
       pet := pet)
  }

  /** After any successful load the header count equals the server total. */
  lemma ReceiveEntriesSyncsCount(s: Profile, data: EntriesPage, append: bool)
    requires data.pagination.limit >= 1
    ensures CountMatchesTotal(ReceiveEntries(s, data, append))
  {
  }

  /** `fetchEntries`: a page is installed; a 404 is ignored (the pet request
      already reports it); any other failure leaves the state as it was and
      is thrown on. */
  function FetchEntriesStep(s: Profile, response: EntriesResponse, append: bool): (r: (Profile, bool))
    requires WellFormed(response)
    ensures r.1 <==> (response.EntriesNotOk? && response.status != 404) || response.EntriesThrown?
    ensures !response.EntriesOk? ==> r.0 == s
    ensures response.EntriesOk? ==> r.0 == ReceiveEntries(s, response.data, append)
  {
    match response
    case EntriesOk(data) => (ReceiveEntries(s, data, append), false)
    case EntriesNotOk(status) => (s, status != 404)
    case EntriesThrown => (s, true)
  }

  /** `loadMoreEntries` as one step: ignored without pagination, without a
      next page or while a load runs; otherwise page `page + 1` is fetched in
      append mode and the load ends with `isLoading` false whatever the
      outcome. The result is the new state, the request sent and whether the
      failure is thrown on. */
  function LoadMoreStep(s: Profile, response: EntriesResponse): (r: (Profile, Option<EntriesRequest>, bool))
    requires WellFormed(response)
    ensures s.pagination.None? || !s.pagination.value.hasNext || s.isLoading ==> r == (s, None, false)
    ensures s.pagination.Some? && s.pagination.value.hasNext && !s.isLoading ==>
      && r.1 == Some(EntriesRequest(s.pagination.value.page + 1, EntriesPageSize, true))
      && !r.0.isLoading
      && (r.2 <==> FetchEntriesStep(s, response, true).1)
      && (response.EntriesOk? ==> r.0.entries == s.entries + MapEntries(response.data.items))
      && (response.EntriesOk? ==> r.0 == ReceiveEntries(s, response.data, true).(isLoading := false))
      && (!response.EntriesOk? ==> r.0 == s)
  {
    if s.pagination.None? || !s.pagination.value.hasNext || s.isLoading then (s, None, false)
    else
      var f := FetchEntriesStep(s, response, true);
      (f.0.(isLoading := false), Some(EntriesRequest(s.pagination.value.page + 1, EntriesPageSize, true)), f.1)
  }

  /** `goToPage(page)` as one step: ignored without pagination, for a page
      outside `1..totalPages` or while a load runs; otherwise that page is
      fetched in replace mode and the load ends with `isLoading` false. */
  function GoToPageStep(s: Profile, page: int, response: EntriesResponse): (r: (Profile, Option<EntriesRequest>, bool))
    requires WellFormed(response)
    ensures s.pagination.None? || page < 1 || page > s.pagination.value.totalPages || s.isLoading ==>
      r == (s, None, false)
    ensures s.pagination.Some? && 1 <= page <= s.pagination.value.totalPages && !s.isLoading ==>
      && r.1 == Some(EntriesRequest(page, EntriesPageSize, false))
      && !r.0.isLoading
      && (r.2 <==> FetchEntriesStep(s, response, false).1)
      && (response.EntriesOk? ==> r.0.entries == MapEntries(response.data.items))
      && (response.EntriesOk? ==> r.0 == ReceiveEntries(s, response.data, false).(isLoading := false))
      && (!response.EntriesOk? ==> r.0 == s)
  {
    if s.pagination.None? || page < 1 || page > s.pagination.value.totalPages || s.isLoading then (s, None, false)
    else
      var f := FetchEntriesStep(s, response, false);
      (f.0.(isLoading := false), Some(EntriesRequest(page, EntriesPageSize, false)), f.1)
  }

  /** The first record with the given id, if any (`entries.find`). */
  function FindEntry(entries: seq<CareEntryCardView>, id: string): (r: Option<CareEntryCardView>)
    ensures r.None? <==> forall i :: 0 <= i < |entries| ==> entries[i].id != id
    ensures r.Some? ==> exists i :: (0 <= i < |entries| && entries[i] == r.value
      && forall j :: 0 <= j < i ==> entries[j].id != id)
    ensures r.Some? ==> r.value.id == id
  {
    if entries == [] then None
    else if entries[0].id == id then Some(entries[0])
    else
      var r := FindEntry(entries[1..], id);
      if r.Some? then
        var k :| 0 <= k < |entries[1..]| && entries[1..][k] == r.value
          && forall j :: 0 <= j < k ==> entries[1..][j].id != id;
        assert entries[k + 1] == r.value;
        r
      else r
  }

  /** How many records carry the given id. */
  function CountId(entries: seq<CareEntryCardView>, id: string): nat {
    if entries == [] then 0 else (if entries[0].id == id then 1 else 0) + CountId(entries[1..], id)
  }

  /** `entries.filter(e => e.id !== id)`: every record with another id, in
      order. */
  function RemoveId(entries: seq<CareEntryCardView>, id: string): (r: seq<CareEntryCardView>)
    ensures |r| == |entries| - CountId(entries, id)
    ensures forall i :: 0 <= i < |r| ==> r[i].id != id
    ensures forall e :: e in entries && e.id != id ==> e in r
    ensures forall e :: e in r ==> e in entries
  {
    if entries == [] then []
    else if entries[0].id == id then RemoveId(entries[1..], id)
    else [entries[0]] + RemoveId(entries[1..], id)
  }

  /** Filtering keeps order: filtering a concatenation is the concatenation
      of the filtered parts, so the kept records keep their relative order. */
  lemma {:induction false} RemoveIdAppend(a: seq<CareEntryCardView>, b: seq<CareEntryCardView>, id: string)
    ensures RemoveId(a + b, id) == RemoveId(a, id) + RemoveId(b, id)
  {
    if a == [] {
      assert a + b == b;
    } else {
      var ab := a + b;
      assert ab[0] == a[0] && ab[1..] == a[1..] + b;
      RemoveIdAppend(a[1..], b, id);
      if a[0].id == id {
        calc {
          RemoveId(ab, id);
          RemoveId(a[1..] + b, id);
          RemoveId(a[1..], id) + RemoveId(b, id);
          RemoveId(a, id) + RemoveId(b, id);
        }
      } else {
        calc {
          RemoveId(ab, id);
          [a[0]] + RemoveId(a[1..] + b, id);
          [a[0]] + (RemoveId(a[1..], id) + RemoveId(b, id));
          ([a[0]] + RemoveId(a[1..], id)) + RemoveId(b, id);
          RemoveId(a, id) + RemoveId(b, id);
        }
      }
    }
  }

  /** A record with another id survives at the place its position among the
      kept records says: everything before it is filtered on its own. */
  lemma {:induction false} RemoveIdKeepsPlace(entries: seq<CareEntryCardView>, id: string, i: int)
    requires 0 <= i < |entries| && entries[i].id != id
    ensures var r := RemoveId(entries, id);
      var k := |RemoveId(entries[..i], id)|;
      k < |r| && r[k] == entries[i]
  {
    assert entries == entries[..i] + ([entries[i]] + entries[i + 1..]);
    RemoveIdAppend(entries[..i], [entries[i]] + entries[i + 1..], id);
    assert ([entries[i]] + entries[i + 1..])[1..] == entries[i + 1..];
  }

  lemma {:induction false} RemoveAbsent(entries: seq<CareEntryCardView>, id: string)
    requires CountId(entries, id) == 0
    ensures RemoveId(entries, id) == entries
  {
    if entries != [] {
      RemoveAbsent(entries[1..], id);
      assert [entries[0]] + entries[1..] == entries;
    }
  }

  /** The rollback restores the list up to order: when the id is carried by
      exactly one record, removing it and appending the saved copy gives back
      the same records. */
  lemma {:induction false} RollbackRestoresEntries(entries: seq<CareEntryCardView>, id: string)
    requires CountId(entries, id) == 1
    ensures FindEntry(entries, id).Some?
    ensures multiset(RemoveId(entries, id) + [FindEntry(entries, id).value]) == multiset(entries)
  {
    var e := entries[0];
    var rest := entries[1..];
    assert entries == [e] + rest;
    if e.id == id {
      RemoveAbsent(rest, id);
    } else {
      RollbackRestoresEntries(rest, id);
      var f := FindEntry(rest, id).value;
      assert RemoveId(entries, id) + [f] == [e] + (RemoveId(rest, id) + [f]);
    }
  }

  /** The optimistic half of `deleteEntry`: the record is saved, every record
      with its id is removed and the header count drops by one. An unknown id
      changes nothing. */
  function RemoveOptimistically(s: Profile, id: string): (r: (Profile, Option<CareEntryCardView>))
    ensures r.1 == FindEntry(s.entries, id)
    ensures r.1.None? ==> r.0 == s
    ensures r.1.Some? ==> (r.0.entries == RemoveId(s.entries, id)
      && |r.0.entries| < |s.entries|
      && (r.0.pet.Some? <==> s.pet.Some?)
      && (s.pet.Some? ==> r.0.pet.value == s.pet.value.(entriesCount := s.pet.value.entriesCount - 1))
      && r.0.pagination == s.pagination && r.0.isLoading == s.isLoading && r.0.error == s.error
      && r.0.expanded == s.expanded && r.0.isDeletingPet == s.isDeletingPet)
  {
    var saved := FindEntry(s.entries, id);
    match saved
    case None => (s, None)
    case Some(entry) =>
      var pet := match s.pet
        case None => None
        case Some(p) => Some(p.(entriesCount := p.entriesCount - 1));
      assert CountId(s.entries, id) >= 1 by { CountIdPositive(s.entries, id); }
      (s.(entries := RemoveId(s.entries, id), pet := pet), saved)
  }

  lemma {:induction false} CountIdPositive(entries: seq<CareEntryCardView>, id: string)
    requires exists i :: 0 <= i < |entries| && entries[i].id == id
    ensures CountId(entries, id) >= 1
  {
    var i :| 0 <= i < |entries| && entries[i].id == id;
    if i > 0 {
      assert entries[1..][i - 1].id == id;
      CountIdPositive(entries[1..], id);
    }
  }

  /** The settling half of `deleteEntry`: on success the removal stays; on a
      non-2xx status or a thrown error the saved record is appended at the end
      and the header count rises by one. */
  function Settle(s: Profile, saved: CareEntryCardView, response: DeleteResponse): (t: Profile)
    ensures response.DeleteOk? ==> t == s
    ensures !response.DeleteOk? ==> (t.entries == s.entries + [saved]
      && (t.pet.Some? <==> s.pet.Some?)
      && (s.pet.Some? ==> t.pet.value == s.pet.value.(entriesCount := s.pet.value.entriesCount + 1))
      && t.pagination == s.pagination && t.isLoading == s.isLoading && t.error == s.error
      && t.expanded == s.expanded && t.isDeletingPet == s.isDeletingPet)
  {
    if response.DeleteOk? then s
    else
      var pet := match s.pet
        case None => None
        case Some(p) => Some(p.(entriesCount := p.entriesCount + 1));
      s.(entries := s.entries + [saved], pet := pet)
  }

  /** A failed delete gives back the same records (up to order), the same
      header and hence the same count; a successful one leaves the header
      count exactly one lower. */
  lemma {:induction false} FailedDeleteRestores(s: Profile, id: string, response: DeleteResponse)
    requires CountId(s.entries, id) == 1
    ensures RemoveOptimistically(s, id).1.Some?
    ensures var mid := RemoveOptimistically(s, id);
      var t := Settle(mid.0, mid.1.value, response);
      && (!response.DeleteOk? ==> multiset(t.entries) == multiset(s.entries) && t.pet == s.pet)
      && (response.DeleteOk? ==> (|t.entries| == |s.entries| - 1
           && (s.pet.Some? ==> t.pet.value.entriesCount == s.pet.value.entriesCount - 1)))
      && (CountMatchesTotal(s) && !response.DeleteOk? ==> CountMatchesTotal(t))
  {
    RollbackRestoresEntries(s.entries, id);
    CountIdPositive(s.entries, id);
  }

  /** `toggleExpandEntry`: flips the membership of one id. */
  function Toggle(ids: set<string>, id: string): (r: set<string>)
    ensures id in r <==> id !in ids
    ensures forall x :: x != id ==> (x in r <==> x in ids)
  {
    if id in ids then ids - {id} else ids + {id}
  }

  /** Toggling twice is the identity. */
  lemma ToggleTwice(ids: set<string>, id: string)
    ensures Toggle(Toggle(ids, id), id) == ids
  {
  }

  /** What `deletePet` leads to after its notice: the dashboard after a
      deletion, the start page after an expired session. */
  datatype Navigation = Stay | GoTo(path: string)

  /** Where a pet deletion request leads: the dashboard after success, the
      start page after an expired session (401); every other refusal and a
      thrown request stay on the page. */
  function DeletePetNavigation(response: DeleteResponse): (nav: Navigation)
    ensures response.DeleteOk? ==> nav == GoTo("/dashboard")
    ensures response == DeleteNotOk(401) ==> nav == GoTo("/")
    ensures nav.GoTo? <==> response.DeleteOk? || response == DeleteNotOk(401)
  {
    match response
    case DeleteOk => GoTo("/dashboard")
    case DeleteNotOk(status) => if status == 401 then GoTo("/") else Stay
    case DeleteThrown(_) => Stay
  }

  /** The toast `deletePet` shows for each outcome of its request. */
  function DeletePetNotice(response: DeleteResponse): (n: Notice)
    ensures response.DeleteOk? ==> n == Success("Zwierzę zostało usunięte")
    ensures response == DeleteNotOk(404) ==> n == Failure("Zwierzę nie znalezione")
    ensures response == DeleteNotOk(403) ==> n == Failure("Brak dostępu do tego zwierzęcia")
    ensures response == DeleteNotOk(401) ==> n == Failure("Sesja wygasła")
    ensures response.DeleteNotOk? && response.status !in {401, 403, 404}
      ==> n == Failure("Nie udało się usunąć zwierzęcia")
    ensures response == DeleteThrown(true) ==> n == Failure("Brak połączenia. Sprawdź internet.")
    ensures response == DeleteThrown(false) ==> n == Failure("Nie udało się usunąć zwierzęcia")
  {
    match response
    case DeleteOk => Success("Zwierzę zostało usunięte")
    case DeleteNotOk(status) =>
      if status == 404 then Failure("Zwierzę nie znalezione")
      else if status == 403 then Failure("Brak dostępu do tego zwierzęcia")
      else if status == 401 then Failure("Sesja wygasła")
      else Failure("Nie udało się usunąć zwierzęcia")
    case DeleteThrown(typeError) =>
      if typeError then Failure("Brak połączenia. Sprawdź internet.")
      else Failure("Nie udało się usunąć zwierzęcia")
  }

  /** The toast agrees with where the page goes: a success notice exactly when
      the page leaves for the dashboard, and the session notice exactly when
      it leaves for the start page; every other notice stays on the page. */
  lemma {:induction false} NoticeMatchesNavigation(response: DeleteResponse)
    ensures DeletePetNotice(response).Success? <==> DeletePetNavigation(response) == GoTo("/dashboard")
    ensures DeletePetNavigation(response) == GoTo("/") <==> response == DeleteNotOk(401)
    ensures DeletePetNavigation(response) == GoTo("/") ==> DeletePetNotice(response) == Failure("Sesja wygasła")
    ensures DeletePetNavigation(response) == Stay <==> DeletePetNotice(response).Failure? && response != DeleteNotOk(401)
  {
  }

  class PetProfileHook {
    var pet: Option<PetHeaderView>
    var entries: seq<CareEntryCardView>
    var pagination: Option<PaginationView>
    var isLoading: bool
    var error: Option<string>
    var expandedEntryIds: set<string>
    var isDeletingPet: bool

    function State(): Profile
      reads this
    {
      Profile(pet, entries, pagination, isLoading, error, expandedEntryIds, isDeletingPet)
    }

    /** `isEmpty`: loaded and nothing to show. */
    predicate IsEmpty()
      reads this
    {
      !isLoading && |entries| == 0
    }

    method SetState(s: Profile)
      modifies this
      ensures State() == s
    {
      pet, entries, pagination := s.pet, s.entries, s.pagination;
      isLoading, error, expandedEntryIds, isDeletingPet := s.isLoading, s.error, s.expanded, s.isDeletingPet;
    }

    /** The state on mount: loading, nothing shown yet. */
    constructor ()
      ensures State() == Profile(None, [], None, true, None, {}, false)
    {
      pet, entries, pagination := None, [], None;
      isLoading, error, expandedEntryIds, isDeletingPet := true, None, {}, false;
    }

    /** `fetchEntries(page, append)`. */
    method FetchEntries(page: int, append: bool, response: EntriesResponse)
      returns (request: EntriesRequest, thrown: bool)
      requires WellFormed(response)
      modifies this
      ensures request == EntriesRequest(page, EntriesPageSize, append)
      ensures (State(), thrown) == FetchEntriesStep(old(State()), response, append)
    {
      request := EntriesRequest(page, EntriesPageSize, append);
      var r := FetchEntriesStep(State(), response, append);
      SetState(r.0);
      thrown := r.1;
    }

    /** `loadMoreEntries`: ignored without pagination, without a next page or
      while a load runs; otherwise appends page `page + 1` and ends with
      `isLoading` false whatever the outcome. */
    method LoadMoreEntries(response: EntriesResponse) returns (request: Option<EntriesRequest>, thrown: bool)
      requires WellFormed(response)
      modifies this
      ensures (State(), request, thrown) == LoadMoreStep(old(State()), response)
    {
      if pagination.None? || !pagination.value.hasNext || isLoading {
        return None, false;
      }
      isLoading := true;
      var req;
      req, thrown := FetchEntries(pagination.value.page + 1, true, response);
      request := Some(req);
      isLoading := false;
    }

    /** `goToPage(page)`: ignored without pagination, for a page outside
      `1..totalPages` or while a load runs; otherwise replaces the list with
      that page and ends with `isLoading` false. */
    method GoToPage(page: int, response: EntriesResponse) returns (request: Option<EntriesRequest>, thrown: bool)
      requires WellFormed(response)
      modifies this
      ensures (State(), request, thrown) == GoToPageStep(old(State()), page, response)
    {
      if pagination.None? || page < 1 || page > pagination.value.totalPages || isLoading {
        return None, false;
      }
      isLoading := true;
      var req;
      req, thrown := FetchEntries(page, false, response);
      request := Some(req);
      isLoading := false;
    }

    /** `fetchAll`, run on mount and by `refetch`: load the pet, then its
      first page of care history. A pet that is missing, forbidden or whose
      session expired leaves the data as it was; a failed pet request or a
      thrown history request records the load error; a history request with a
      non-2xx status shows the pet with no entries and an empty first page. */
    method FetchAll(petResponse: PetResponse, entriesResponse: EntriesResponse)
      requires WellFormed(entriesResponse)
      modifies this
      ensures !isLoading
      ensures expandedEntryIds == old(expandedEntryIds) && isDeletingPet == old(isDeletingPet)
      ensures petResponse.PetNotFound? || petResponse.PetForbidden? || petResponse.PetUnauthorized? ==>
        State() == old(State()).(isLoading := false, error := None)
      ensures petResponse.PetFailed? || (petResponse.PetOk? && entriesResponse.EntriesThrown?) ==>
        State() == old(State()).(isLoading := false, error := Some(LoadError))
      ensures petResponse.PetOk? && entriesResponse.EntriesOk? ==>
        var data := entriesResponse.data;
        && entries == MapEntries(data.items)
        && pagination == Some(ToView(data.pagination))
        && pet == Some(MapPet(petResponse.pet, data.pagination.total, FirstEntryDate(data.items)))
        && error == None
      ensures petResponse.PetOk? && entriesResponse.EntriesNotOk? ==>
        && entries == []
        && pagination == Some(PaginationView(1, EntriesPageSize, 0, 0, false, false))
        && pet == Some(MapPet(petResponse.pet, 0, None))
        && error == None
    {
      isLoading := true;
      error := None;
      match petResponse {
        case PetOk(p) =>
          match entriesResponse {
            case EntriesOk(data) =>
              entries := MapEntries(data.items);
              pagination := Some(ToView(data.pagination));
              pet := Some(MapPet(p, data.pagination.total, FirstEntryDate(data.items)));
            case EntriesNotOk(_) =>
              pet := Some(MapPet(p, 0, None));
              entries := [];
              pagination := Some(PaginationView(1, EntriesPageSize, 0, 0, false, false));
            case EntriesThrown =>
              error := Some(LoadError);
          }
        case PetFailed =>
          error := Some(LoadError);
        case _ =>
      }
      isLoading := false;
    }

    /** `deletePet`: ignored while a deletion runs. Otherwise the flag is set;
      it is cleared again after a refused (other than 401) or thrown request,
      and stays set after success (the page leaves for the dashboard) and
      after 401 (the page leaves for the start page). */
    method DeletePet(response: DeleteResponse) returns (nav: Navigation, notice: Option<Notice>)
      modifies this
      ensures old(isDeletingPet) ==> State() == old(State()) && nav == Stay && notice.None?
      ensures !old(isDeletingPet) ==>
        && State() == old(State()).(isDeletingPet := isDeletingPet)
        && nav == DeletePetNavigation(response)
        && notice == Some(DeletePetNotice(response))
        && (isDeletingPet <==> nav.GoTo?)
    {
      if isDeletingPet {
        return Stay, None;
      }
      isDeletingPet := true;
      notice := Some(DeletePetNotice(response));
      match response {
        case DeleteOk =>
          nav := GoTo("/dashboard");
        case DeleteNotOk(status) =>
          if status == 401 {
            nav := GoTo("/");
          } else {
            isDeletingPet := false;
            nav := Stay;
          }
        case DeleteThrown(_) =>
          isDeletingPet := false;
          nav := Stay;
      }
    }

    /** `deleteEntry(id)`, first half: the record disappears at once and the
      count drops; returns the saved copy (none for an unknown id, which
      changes nothing). */
    method BeginDeleteEntry(id: string) returns (saved: Option<CareEntryCardView>)
      modifies this
      ensures (State(), saved) == RemoveOptimistically(old(State()), id)
    {
      var r := RemoveOptimistically(State(), id);
      SetState(r.0);
      saved := r.1;
    }

    /** `deleteEntry(id)`, second half, once the DELETE request has settled. */
    method SettleDeleteEntry(saved: CareEntryCardView, response: DeleteResponse)
      modifies this
      ensures State() == Settle(old(State()), saved, response)
    {
      SetState(Settle(State(), saved, response));
    }

    /** `deleteEntry(id)` as one step. */
    method DeleteEntry(id: string, response: DeleteResponse)
      modifies this
      ensures var mid := RemoveOptimistically(old(State()), id);
        State() == if mid.1.None? then old(State()) else Settle(mid.0, mid.1.value, response)
    {
      var saved := BeginDeleteEntry(id);
      if saved.Some? {
        SettleDeleteEntry(saved.value, response);
      }
    }

    /** `toggleExpandEntry(id)`. */
    method ToggleExpandEntry(id: string)
      modifies this
      ensures State() == old(State()).(expanded := Toggle(old(expandedEntryIds), id))
    {
      expandedEntryIds := Toggle(expandedEntryIds, id);
    }
  }
}
