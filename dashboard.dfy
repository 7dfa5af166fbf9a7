/** The dashboard screen: the toast chosen for a load error, how a page
    request from its pager reaches the pets-list controller, and which
    screen is shown. */
module Dashboard {
  import opened Common
  import opened Pagination
  import opened PetsListHook
  import opened PetsListView

  const InvalidParamsToast: string := "Nieprawidłowe parametry listy"
  const ServerErrorToast: string := "Nie udało się pobrać zwierząt. Spróbuj ponownie"
  const OfflineToast: string := "Brak połączenia z serwerem"
  const GenericToast: string := "Wystąpił błąd podczas pobierania zwierząt"

  /** The toast for an error message: the first of "HTTP 400", "HTTP 500"
      and "Failed to fetch" that occurs anywhere in the message picks its
      text; a message with none of them gets the generic text. */
  function ErrorToast(message: string): (t: string)
    ensures Contains(message, "HTTP 400") ==> t == InvalidParamsToast
    ensures !Contains(message, "HTTP 400") && Contains(message, "HTTP 500") ==> t == ServerErrorToast
    ensures !Contains(message, "HTTP 400") && !Contains(message, "HTTP 500") && Contains(message, "Failed to fetch")
      ==> t == OfflineToast
    ensures !Contains(message, "HTTP 400") && !Contains(message, "HTTP 500") && !Contains(message, "Failed to fetch")
      ==> t == GenericToast
  {
    if Contains(message, "HTTP 400") then InvalidParamsToast
    else if Contains(message, "HTTP 500") then ServerErrorToast
    else if Contains(message, "Failed to fetch") then OfflineToast
    else GenericToast
  }

  /** Through the controller's error capture, a 400 answer without a server
      message reads "HTTP 400" and gets the invalid-parameters toast. */
  lemma {:induction false} ToastForBadRequest()
    ensures ErrorToast(LoadError(PetsNotOk(400, Body(""))).value) == InvalidParamsToast
  {
    var m := LoadError(PetsNotOk(400, Body(""))).value;
    assert m == "HTTP 400" by { assert NatToString(400) == "400"; }
    ContainsPrefix(m, "HTTP 400");
  }

  /** A 500 answer without a server message gets the server-error toast. */
  lemma {:induction false} ToastForServerError()
    ensures ErrorToast(LoadError(PetsNotOk(500, Body(""))).value) == ServerErrorToast
  {
    var m := LoadError(PetsNotOk(500, Body(""))).value;
    assert m == "HTTP 500" by { assert NatToString(500) == "500"; }
    MissingCharNotContained(m, "HTTP 400", '4');
    ContainsPrefix(m, "HTTP 500");
  }

  /** The message a request the browser could not send carries. */
  const FetchFailure: string := "TypeError: Failed to fetch"

  lemma FetchFailureHasNoStatus()
    ensures '4' !in FetchFailure && '5' !in FetchFailure
  {
  }

  lemma FetchFailureNamesFetch()
    ensures OccursAt(FetchFailure, "Failed to fetch", 11)
  {
    assert FetchFailure[11..26] == "Failed to fetch";
  }

  /** A request the browser could not send ("TypeError: Failed to fetch")
      gets the connection toast. */
  lemma {:induction false} ToastForOffline()
    ensures ErrorToast(LoadError(PetsThrown(Some(FetchFailure))).value) == OfflineToast
  {
    FetchFailureHasNoStatus();
    MissingCharNotContained(FetchFailure, "HTTP 400", '4');
    MissingCharNotContained(FetchFailure, "HTTP 500", '5');
    FetchFailureNamesFetch();
  }

  /** A server message naming none of the three markers replaces the
      status, so even a 400 answer then gets the generic toast. */
  lemma {:induction false} ServerMessageHidesStatus(message: string)
    requires message != ""
    requires !Contains(message, "HTTP 400") && !Contains(message, "HTTP 500") && !Contains(message, "Failed to fetch")
    ensures ErrorToast(LoadError(PetsNotOk(400, Body(message))).value) == GenericToast
  {
  }

  /** What a page request from the pager does. */
  datatype PageChange = CallLoadMore | CallSetPage(page: int)

  /** `handlePageChange`: a phone always loads more, whatever page was asked
      for; a desktop sets the requested page. */
  function DashboardPageChange(isMobile: bool, page: int): (a: PageChange)
    ensures isMobile <==> a == CallLoadMore
    ensures !isMobile ==> a.page == page
  {
    if isMobile then CallLoadMore else CallSetPage(page)
  }

  datatype Screen =
    | ErrorScreen
    | Blank
    | Content(showAddButton: bool, list: PetsView, showPager: bool, showStickyCta: bool)

  /** The dashboard's render: the error screen when an error came before
      any data, nothing while there is no data, otherwise the header (its add
      button only with pets), the pet grid, the pager only with more than one
      page, and the sticky add button on a phone with pets. */
  function SelectScreen(data: Option<DashboardView>, isLoading: bool, error: Option<string>, isMobile: bool): (v: Screen)
    ensures data.None? ==> (v == ErrorScreen <==> error.Some?) && (v == Blank <==> error.None?)
    ensures data.Some? ==> v.Content?
    ensures data.Some? ==> (
      && (v.showAddButton <==> data.value.pets != [])
      && v.list == SelectPetsView(data.value.pets, isLoading, data.value.pets == [], data.value.emptyState)
      && (v.showPager <==> data.value.pagination.totalPages > 1)
      && (v.showStickyCta <==> isMobile && data.value.pets != []))
  {
    if error.Some? && data.None? then ErrorScreen
    else if data.None? then Blank
    else
      var isEmpty := |data.value.pets| == 0;
      Content(!isEmpty, SelectPetsView(data.value.pets, isLoading, isEmpty, data.value.emptyState),
              data.value.pagination.totalPages > 1, isMobile && !isEmpty)
  }

  /** Once data is shown, an error from a later load keeps it on screen; the
      add buttons appear exactly when the grid is not the empty state (when
      idle), and never beside the empty state or the first-load skeleton. */
  lemma {:induction false} ScreenConsistent(data: DashboardView, isLoading: bool, error: Option<string>, isMobile: bool)
    ensures var v := SelectScreen(Some(data), isLoading, error, isMobile);
      && v.Content?
      && (!isLoading ==> (v.list.EmptyList? <==> !v.showAddButton))
      && (v.list.EmptyList? || v.list.LoadingSkeleton? ==> !v.showAddButton && !v.showStickyCta)
  {
    PetsViewPartition(data.pets, isLoading, data.emptyState);
  }

  /** The dashboard's own viewport flag and its page-change handler. */
  class DashboardScreen {
    var isMobile: bool

    constructor ()
      ensures !isMobile
    {
      isMobile := false;
    }

    /** The resize handler: a phone below 768 pixels. */
    method CheckMobile(innerWidth: int)
      modifies this
      ensures isMobile <==> IsMobileWidth(innerWidth)
    {
      isMobile := innerWidth < MobileBreakpoint;
    }

    /** `handlePageChange(page)` on the controller: a phone asks it to load
      more (which it does only when a next page exists and nothing loads),
      a desktop sets the page as asked. */
    method HandlePageChange(list: PetsListController, page: int)
      modifies list
      ensures DashboardPageChange(isMobile, page) == CallLoadMore ==>
        && (old(list.data).Some? && old(list.data).value.pagination.hasNext && !old(list.isLoading) ==>
              list.query == old(list.query).(page := (if old(list.query).page == 0 then 1 else old(list.query).page) + 1))
        && (!(old(list.data).Some? && old(list.data).value.pagination.hasNext && !old(list.isLoading)) ==>
              list.query == old(list.query))
      ensures DashboardPageChange(isMobile, page) == CallSetPage(page) ==> list.query == old(list.query).(page := page)
      ensures list.data == old(list.data) && list.isLoading == old(list.isLoading)
      ensures list.error == old(list.error) && list.isMobile == old(list.isMobile)
    {
      if isMobile {
        list.LoadMore();
      } else {
        list.SetPage(page);
      }
    }
  }
}
