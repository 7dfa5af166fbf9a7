/** The dashboard's list controller (`usePetsList`): the response of
    `GET /api/pets` mapped to the dashboard view model, the query it is
    fetched with, and the state it keeps (data, loading flag, error, query,
    viewport flag). A fetch is one atomic step whose outcome is an input. */
module PetsListHook {
  import opened Common
  import opened Pagination

  /** Widths below this many CSS pixels count as mobile. */
  const MobileBreakpoint: int := 768

  const DefaultPage: int := 1
  const DefaultLimit: int := 20
  const FallbackError: string := "Failed to fetch pets"

  datatype PetSummaryDto = PetSummaryDto(id: string, name: string, speciesEmoji: string, entriesCount: int)

  datatype PetsListResponse = PetsListResponse(items: seq<PetSummaryDto>, pagination: PageWindow)

  datatype PetCard = PetCard(
    id: string, name: string, speciesEmoji: string, entriesCount: int, entriesLabel: string, href: string)

  datatype HeaderView = HeaderView(title: string, countLabel: string)

  datatype EmptyStateView = EmptyStateView(title: string, description: string, ctaLabel: string)

  datatype DashboardView = DashboardView(
    pets: seq<PetCard>, pagination: PaginationView, header: HeaderView, emptyState: EmptyStateView)

  /** The Polish noun after a count: one form for 1, one for 2..4 and one
      for every other count (12..14 and 22..24 included, as the component's
      tests fix it). */
  function Noun(count: int, one: string, few: string, many: string): string {
    if count == 1 then one else if 2 <= count <= 4 then few else many
  }

  /** `getEntriesLabel`: "Brak wpisów" for none, "1 wpis" for one, the
      count with "wpisy" for 2 to 4 and with "wpisów" for every other count. */
  function EntriesLabel(count: int): (s: string)
    ensures count == 0 ==> s == "Brak wpisów"
    ensures count == 1 ==> s == "1 wpis"
    ensures 2 <= count <= 4 ==> s == IntToString(count) + " wpisy"
    ensures count != 0 && count != 1 && !(2 <= count <= 4) ==> s == IntToString(count) + " wpisów"
    ensures count != 0 ==> s == IntToString(count) + " " + Noun(count, "wpis", "wpisy", "wpisów")
  {
    if count == 0 then "Brak wpisów"
    else if count == 1 then assert IntToString(1) == "1"; "1 wpis"
    else if 2 <= count <= 4 then IntToString(count) + " wpisy"
    else IntToString(count) + " wpisów"
  }

  /** `getCountLabel`: the header line with the number of the user's pets,
      with "zwierzę" for one, "zwierzęta" for 2 to 4 and "zwierząt" for
      every other count. */
  function CountLabel(count: int): (s: string)
    ensures count == 0 ==> s == "Nie masz jeszcze zwierząt"
    ensures count == 1 ==> s == "Masz 1 zwierzę"
    ensures 2 <= count <= 4 ==> s == "Masz " + IntToString(count) + " zwierzęta"
    ensures count != 0 && count != 1 && !(2 <= count <= 4) ==> s == "Masz " + IntToString(count) + " zwierząt"
    ensures count != 0 ==> s == "Masz " + IntToString(count) + " " + Noun(count, "zwierzę", "zwierzęta", "zwierząt")
  {
    if count == 0 then "Nie masz jeszcze zwierząt"
    else if count == 1 then assert IntToString(1) == "1"; "Masz 1 zwierzę"
    else if 2 <= count <= 4 then "Masz " + IntToString(count) + " zwierzęta"
    else "Masz " + IntToString(count) + " zwierząt"
  }

  lemma NoSpaceInNumber(n: nat)
    ensures ' ' !in NatToString(n)
  {
    var s := NatToString(n);
    forall i | 0 <= i < |s| ensures s[i] != ' ' {
      assert IsDigit(s[i]);
    }
  }

  /** The entries label names its count: its first word, read as a decimal
      number, gives back the positive count. */
  lemma {:induction false} EntriesLabelNamesCount(n: nat)
    requires n >= 1
    ensures DecimalValue(SplitAtFirst(EntriesLabel(n), ' ').0) == n
  {
    var d := NatToString(n);
    NoSpaceInNumber(n);
    DecimalRoundTrip(n);
    var noun := Noun(n, "wpis", "wpisy", "wpisów");
    assert EntriesLabel(n) == d + [' '] + noun;
    SplitAtFirstGlued(d, noun, ' ');
  }

  lemma CountLabelLead()
    ensures "Masz " == "Masz" + [' '] && ' ' !in "Masz"
  {
  }

  /** The count label names its count: its second word, read as a decimal
      number, gives back the positive count. */
  lemma {:induction false} CountLabelNamesCount(n: nat)
    requires n >= 1
    ensures |Split(CountLabel(n), ' ')| >= 2
    ensures DecimalValue(Split(CountLabel(n), ' ')[1]) == n
  {
    var d := NatToString(n);
    NoSpaceInNumber(n);
    DecimalRoundTrip(n);
    var noun := Noun(n, "zwierzę", "zwierzęta", "zwierząt");
    CountLabelLead();
    assert IntToString(n) == d;
    assert CountLabel(n) == "Masz" + [' '] + d + [' '] + noun;
    SplitSecondPiece("Masz", d, noun, ' ');
  }

  lemma EntriesLabelOne()
    ensures EntriesLabel(1) == "1 wpis"
  {
    assert IntToString(1) == "1";
  }

  lemma EntriesLabelFour()
    ensures EntriesLabel(4) == "4 wpisy"
  {
    assert IntToString(4) == "4";
  }

  lemma EntriesLabelTwelve()
    ensures EntriesLabel(12) == "12 wpisów"
  {
    TwoDigitString(12);
    assert IntToString(12) == "12";
  }

  lemma EntriesLabelTwentyTwo()
    ensures EntriesLabel(22) == "22 wpisów"
  {
    TwoDigitString(22);
    assert IntToString(22) == "22";
  }

  /** Entries labels the hook's tests fix, the 12 and 22 cases included. */
  lemma EntriesLabelExamples()
    ensures EntriesLabel(1) == "1 wpis" && EntriesLabel(4) == "4 wpisy"
    ensures EntriesLabel(12) == "12 wpisów" && EntriesLabel(22) == "22 wpisów"
  {
    EntriesLabelOne();
    EntriesLabelFour();
    EntriesLabelTwelve();
    EntriesLabelTwentyTwo();
  }

  lemma CountLabelOne()
    ensures CountLabel(1) == "Masz 1 zwierzę"
  {
    assert IntToString(1) == "1";
  }

  lemma CountLabelTwo()
    ensures CountLabel(2) == "Masz 2 zwierzęta"
  {
    assert IntToString(2) == "2";
  }

  lemma CountLabelTwentyTwo()
    ensures CountLabel(22) == "Masz 22 zwierząt"
  {
    TwoDigitString(22);
    assert IntToString(22) == "22";
  }

  /** Count labels the hook's tests fix. */
  lemma CountLabelExamples()
    ensures CountLabel(1) == "Masz 1 zwierzę" && CountLabel(2) == "Masz 2 zwierzęta"
    ensures CountLabel(22) == "Masz 22 zwierząt"
  {
    CountLabelOne();
    CountLabelTwo();
    CountLabelTwentyTwo();
  }

  /** One dashboard card per listed pet. */
  function MapCard(p: PetSummaryDto): (c: PetCard)
    ensures c.id == p.id && c.name == p.name && c.speciesEmoji == p.speciesEmoji
    ensures c.entriesCount == p.entriesCount && c.entriesLabel == EntriesLabel(p.entriesCount)
    ensures c.href == "/pets/" + p.id
  {
    PetCard(p.id, p.name, p.speciesEmoji, p.entriesCount, EntriesLabel(p.entriesCount), "/pets/" + p.id)
  }

  function MapCards(ps: seq<PetSummaryDto>): (cs: seq<PetCard>)
    ensures |cs| == |ps|
    ensures forall i :: 0 <= i < |ps| ==> cs[i] == MapCard(ps[i])
  {
    if ps == [] then [] else [MapCard(ps[0])] + MapCards(ps[1..])
  }

  const Title: string := "Twoje zwierzęta"
  const EmptyState: EmptyStateView := EmptyStateView(
    "Dodaj swojego pierwszego pupila", "Zacznij dokumentować opiekę nad swoim zwierzęciem", "Dodaj zwierzę")

  /** `mapPetsToViewModel`: cards in response order, the same pagination
      view as the care history, the count label of the server's total. */
  function MapPetsToViewModel(r: PetsListResponse): (v: DashboardView)
    requires r.pagination.limit >= 1
    ensures v.pets == MapCards(r.items)
    ensures v.pagination == ToView(r.pagination)
    ensures v.header == HeaderView(Title, CountLabel(r.pagination.total))
    ensures v.emptyState == EmptyState
  {
    DashboardView(MapCards(r.items), ToView(r.pagination), HeaderView(Title, CountLabel(r.pagination.total)), EmptyState)
  }

  /** Each card links to its own pet and the links are pairwise distinct when
      the ids are. */
  lemma {:induction false} CardLinksDistinct(r: PetsListResponse, i: int, j: int)
    requires r.pagination.limit >= 1
    requires 0 <= i < |r.items| && 0 <= j < |r.items| && r.items[i].id != r.items[j].id
    ensures MapPetsToViewModel(r).pets[i].href != MapPetsToViewModel(r).pets[j].href
  {
    var a, b := MapPetsToViewModel(r).pets[i].href, MapPetsToViewModel(r).pets[j].href;
    assert a[6..] == r.items[i].id && b[6..] == r.items[j].id;
  }

  /** The list query. A page or limit of 0 stands for an absent (falsy) value. */
  datatype PetsQuery = PetsQuery(page: int, limit: int, includeSummary: bool)

  /** `{page: initial.page || 1, limit: initial.limit || 20, include: "summary"}`. */
  function InitialQuery(page: Option<int>, limit: Option<int>): (q: PetsQuery)
    ensures q.page == (if page.None? || page.value == 0 then DefaultPage else page.value)
    ensures q.limit == (if limit.None? || limit.value == 0 then DefaultLimit else limit.value)
    ensures q.includeSummary
    ensures q.page != 0 && q.limit != 0
  {
    PetsQuery(
      if page.None? || page.value == 0 then DefaultPage else page.value,
      if limit.None? || limit.value == 0 then DefaultLimit else limit.value,
      true)
  }

  /** 1 for a parameter that is appended, 0 for one that is not. */
  function Count(present: bool): nat {
    if present then 1 else 0
  }

  /** The parameters appended to the request, only the present ones, in the
      order page, limit, include: each present one sits right after the
      present ones before it, and an absent one has no pair at all. */
  function QueryParams(q: PetsQuery): (ps: seq<(string, string)>)
    ensures |ps| == Count(q.page != 0) + Count(q.limit != 0) + Count(q.includeSummary)
    ensures forall i :: 0 <= i < |ps| ==> ps[i].0 in {"page", "limit", "include"}
    ensures q.page != 0 ==> ps[0] == ("page", IntToString(q.page))
    ensures q.limit != 0 ==> ps[Count(q.page != 0)] == ("limit", IntToString(q.limit))
    ensures q.includeSummary ==> ps[|ps| - 1] == ("include", "summary")
    ensures q.page == 0 ==> forall i :: 0 <= i < |ps| ==> ps[i].0 != "page"
    ensures q.limit == 0 ==> forall i :: 0 <= i < |ps| ==> ps[i].0 != "limit"
    ensures !q.includeSummary ==> forall i :: 0 <= i < |ps| ==> ps[i].0 != "include"
    ensures ("page", IntToString(q.page)) in ps <==> q.page != 0
    ensures ("limit", IntToString(q.limit)) in ps <==> q.limit != 0
    ensures ("include", "summary") in ps <==> q.includeSummary
  {
    (if q.page != 0 then [("page", IntToString(q.page))] else [])
    + (if q.limit != 0 then [("limit", IntToString(q.limit))] else [])
    + (if q.includeSummary then [("include", "summary")] else [])
  }

  function RenderParams(ps: seq<(string, string)>): (rs: seq<string>)
    ensures |rs| == |ps|
    ensures forall i :: 0 <= i < |ps| ==> rs[i] == ps[i].0 + "=" + ps[i].1
  {
    if ps == [] then [] else [ps[0].0 + "=" + ps[0].1] + RenderParams(ps[1..])
  }

  /** `params.toString()`: `name=value` pairs joined by `&`. */
  function QueryString(q: PetsQuery): string {
    Join(RenderParams(QueryParams(q)), '&')
  }

  /** Reading a query string back: split on `&`, then each piece at its first
      `=`. */
  function ParseQuery(s: string): (ps: seq<(string, string)>)
    ensures |ps| == |Split(s, '&')|
  {
    ParsePieces(Split(s, '&'))
  }

  function ParsePieces(pieces: seq<string>): (ps: seq<(string, string)>)
    ensures |ps| == |pieces|
    ensures forall i :: 0 <= i < |pieces| ==> ps[i] == ParsePiece(pieces[i])
  {
    if pieces == [] then [] else [ParsePiece(pieces[0])] + ParsePieces(pieces[1..])
  }

  function ParsePiece(piece: string): (string, string) {
    var r := SplitAtFirst(piece, '=');
    (r.0, if r.1.Some? then r.1.value else "")
  }

  lemma {:induction false} NumberIsPlain(i: int)
    ensures '&' !in IntToString(i) && '=' !in IntToString(i)
  {
    var d := NatToString(if i < 0 then -i else i);
    forall k | 0 <= k < |d| ensures d[k] != '&' && d[k] != '=' {
      assert IsDigit(d[k]);
    }
    assert IntToString(i) == (if i < 0 then "-" + d else d);
  }

  /** A pair that survives rendering: no `&` anywhere and no `=` in the
      name. */
  predicate PlainPair(p: (string, string)) {
    '&' !in p.0 && '&' !in p.1 && '=' !in p.0
  }

  /** Rendering plain pairs and reading the result back gives the pairs. */
  lemma {:induction false} RenderedPairsParse(ps: seq<(string, string)>)
    requires ps != [] && forall i :: 0 <= i < |ps| ==> PlainPair(ps[i])
    ensures ParseQuery(Join(RenderParams(ps), '&')) == ps
  {
    var rs := RenderParams(ps);
    forall i | 0 <= i < |ps|
      ensures '&' !in rs[i] && ParsePiece(rs[i]) == ps[i]
    {
      SplitAtFirstGlued(ps[i].0, ps[i].1, '=');
    }
    SplitJoin(rs, '&');
    var parsed := ParseQuery(Join(rs, '&'));
    forall i | 0 <= i < |ps| ensures parsed[i] == ps[i] { }
  }

  /** The query string round-trips: parsing it gives back exactly the present
      parameters, in order. */
  lemma {:induction false} QueryStringRoundTrip(q: PetsQuery)
    requires q.page != 0 || q.limit != 0 || q.includeSummary
    ensures ParseQuery(QueryString(q)) == QueryParams(q)
  {
    NumberIsPlain(q.page);
    NumberIsPlain(q.limit);
    var page, limit, incl := ("page", IntToString(q.page)), ("limit", IntToString(q.limit)), ("include", "summary");
    assert PlainPair(page) && PlainPair(limit) && PlainPair(incl);
    var ps := QueryParams(q);
    assert forall i :: 0 <= i < |ps| ==> ps[i] == page || ps[i] == limit || ps[i] == incl;
    RenderedPairsParse(ps);
  }

  /** The error text a non-2xx response carries: the body's message, else
      `HTTP <status>`; an unreadable body gives `Unknown error`. */
  datatype ErrorBody = Unreadable | Body(message: string)

  function ErrorMessage(status: int, body: ErrorBody): (m: string)
    ensures m != ""
    ensures body.Unreadable? ==> m == "Unknown error"
    ensures body.Body? && body.message != "" ==> m == body.message
    ensures body.Body? && body.message == "" ==> m == "HTTP " + IntToString(status)
  {
    match body
    case Unreadable => "Unknown error"
    case Body(msg) => if msg != "" then msg else "HTTP " + IntToString(status)
  }

  /** Outcome of `GET /api/pets`: a list, a non-2xx status with its body, or
      a thrown value (its message when it is an `Error`, `None` otherwise). */
  datatype PetsResponse =
    | PetsOk(body: PetsListResponse)
    | PetsNotOk(status: int, errorBody: ErrorBody)
    | PetsThrown(errorMessage: Option<string>)

  predicate WellFormed(r: PetsResponse) {
    r.PetsOk? ==> r.body.pagination.limit >= 1
  }

  /** The data after a successful load: appended to what was shown (mobile,
      page above 1, earlier data present) or replacing it. Everything but the
      cards comes from the new response. */
  function Merge(prev: Option<DashboardView>, incoming: DashboardView, append: bool): (v: DashboardView)
    ensures append && prev.Some? ==> v == incoming.(pets := prev.value.pets + incoming.pets)
    ensures !(append && prev.Some?) ==> v == incoming
  {
    if append && prev.Some? then incoming.(pets := prev.value.pets + incoming.pets) else incoming
  }

  /** Loading pages `1..k` one after another on a phone keeps every earlier
      card in place and adds the new page's cards after them, in order. */
  lemma {:induction false} AppendKeepsEarlierCards(prev: DashboardView, incoming: DashboardView)
    ensures var v := Merge(Some(prev), incoming, true);
      && |v.pets| == |prev.pets| + |incoming.pets|
      && v.pets[..|prev.pets|] == prev.pets && v.pets[|prev.pets|..] == incoming.pets
      && v.pagination == incoming.pagination && v.header == incoming.header
  {
  }

  /** The error the hook keeps for a failed load; `None` for a list. */
  function LoadError(r: PetsResponse): (e: Option<string>)
    ensures r.PetsOk? <==> e.None?
    ensures r.PetsNotOk? ==> e == Some(ErrorMessage(r.status, r.errorBody))
    ensures r.PetsThrown? ==> e == Some(if r.errorMessage.Some? then r.errorMessage.value else FallbackError)
  {
    match r
    case PetsOk(_) => None
    case PetsNotOk(status, body) => Some(ErrorMessage(status, body))
    case PetsThrown(m) => Some(if m.Some? then m.value else FallbackError)
  }

  /** `window.innerWidth < 768`. */
  predicate IsMobileWidth(innerWidth: int) {
    innerWidth < MobileBreakpoint
  }

  class PetsListController {
    var data: Option<DashboardView>
    var isLoading: bool
    var error: Option<string>
    var query: PetsQuery
    var isMobile: bool

    /** The state on mount: loading, no data, default query, desktop. */
    constructor (initialPage: Option<int>, initialLimit: Option<int>)
      ensures data.None? && isLoading && error.None? && !isMobile
      ensures query == InitialQuery(initialPage, initialLimit)
    {
      data, isLoading, error := None, true, None;
      query := InitialQuery(initialPage, initialLimit);
      isMobile := false;
    }

    /** The resize handler. */
    method CheckMobile(innerWidth: int)
      modifies this`isMobile
      ensures isMobile <==> IsMobileWidth(innerWidth)
    {
      isMobile := innerWidth < MobileBreakpoint;
    }

    /** `fetchPets`, run whenever the query or the viewport flag changes:
      returns the request URL; on success the data is the mapped response
      (appended on a phone past page 1), on failure the data is kept and the
      error recorded; `isLoading` ends false on every path. */
    method FetchPets(response: PetsResponse) returns (url: string)
      requires WellFormed(response)
      modifies this`data, this`isLoading, this`error
      ensures url == "/api/pets?" + QueryString(query)
      ensures !isLoading
      ensures error == LoadError(response)
      ensures response.PetsOk? ==>
        data == Some(Merge(old(data), MapPetsToViewModel(response.body), isMobile && query.page > 1))
      ensures !response.PetsOk? ==> data == old(data)
    {
      isLoading := true;
      error := None;
      url := "/api/pets?" + QueryString(query);
      match response {
        case PetsOk(body) =>
          var incoming := MapPetsToViewModel(body);
          if isMobile && query.page != 0 && query.page > 1 {
            data := Some(Merge(data, incoming, true));
          } else {
            data := Some(incoming);
          }
        case PetsNotOk(status, body) =>
          error := Some(ErrorMessage(status, body));
        case PetsThrown(m) =>
          error := Some(if m.Some? then m.value else FallbackError);
      }
      isLoading := false;
    }

    /** `loadMore`: moves to the next page (counting an absent page as 1)
      only when a next page exists and nothing is loading. */
    method LoadMore()
      modifies this`query
      ensures data.Some? && data.value.pagination.hasNext && !isLoading ==>
        query == old(query).(page := (if old(query).page == 0 then 1 else old(query).page) + 1)
      ensures !(data.Some? && data.value.pagination.hasNext && !isLoading) ==> query == old(query)
    {
      if data.Some? && data.value.pagination.hasNext && !isLoading {
        query := query.(page := (if query.page == 0 then 1 else query.page) + 1);
      }
    }

    /** `setPage`: any page, unchecked. */
    method SetPage(page: int)
      modifies this`query
      ensures query == old(query).(page := page)
    {
      query := query.(page := page);
    }
  }
}
