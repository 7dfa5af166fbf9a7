/** The pets collection endpoint: `GET` lists the caller's pets a page at a
    time, `POST` creates a pet. Each handler is a chain of early returns over
    the request, the caller's session and the answers of the store. */
module PetsApi {
  import opened Common
  import opened Pagination
  import opened PetNames
  import opened PetStore
  import PetsListHook

  datatype ApiError = ApiError(status: int, error: string, message: string, details: seq<FieldError>)

  const NoClient: ApiError := ApiError(500, "Internal Error", "Supabase client nie został zainicjalizowany", [])
  const NoUser: ApiError := ApiError(401, "Unauthorized", "Użytkownik nie jest zalogowany", [])
  const Unexpected: ApiError := ApiError(500, "Internal Server Error", "Wystąpił nieoczekiwany błąd serwera", [])

  // ---------------------------------------------------------------- GET

  const DefaultPage: int := 1
  const DefaultLimit: int := 20
  const MaxLimit: int := 100
  const NotANumber: string := "Expected number, received nan"
  const PageTooSmall: string := "Numer strony musi być większy lub równy 1"
  const LimitTooSmall: string := "Limit musi być większy lub równy 1"
  const LimitTooLarge: string := "Limit nie może być większy niż 100"

  /** `url.searchParams.get(name) || undefined`: a missing or empty
      parameter is absent. */
  function Param(v: Option<string>): (p: Option<string>)
    ensures p.Some? <==> v.Some? && v.value != ""
    ensures p.Some? ==> p == v
  {
    if v.None? || v.value == "" then None else v
  }

  predicate AllDigits(s: string) {
    forall i :: 0 <= i < |s| ==> IsDigit(s[i])
  }

  /** `Number(s)` for the numerals the model reads: surrounding white space
      is ignored, white space alone is 0, an optionally signed run of decimal
      digits is its value; anything else is not a number. */
  function CoerceInt(s: string): (n: Option<int>)
    ensures AllDigits(Trim(s)) ==> n == Some(DecimalValue(Trim(s)))
  {
    var t := Trim(s);
    if AllDigits(t) then Some(DecimalValue(t))
    else if |t| > 1 && t[0] == '-' && AllDigits(t[1..]) then Some(-(DecimalValue(t[1..]) as int))
    else if |t| > 1 && t[0] == '+' && AllDigits(t[1..]) then Some(DecimalValue(t[1..]))
    else None
  }

  /** The page rule: absent, or an integer of at least 1. */
  function PageIssue(page: Option<string>): (m: Option<string>)
    ensures m.None? <==> Param(page).None? || (CoerceInt(Param(page).value).Some? && CoerceInt(Param(page).value).value >= 1)
  {
    match Param(page)
    case None => None
    case Some(s) =>
      match CoerceInt(s)
      case None => Some(NotANumber)
      case Some(n) => if n < 1 then Some(PageTooSmall) else None
  }

  /** The limit rule: absent, or an integer from 1 to 100. */
  function LimitIssue(limit: Option<string>): (m: Option<string>)
    ensures m.None? <==> (Param(limit).None? ||
      (CoerceInt(Param(limit).value).Some? && 1 <= CoerceInt(Param(limit).value).value <= MaxLimit))
  {
    match Param(limit)
    case None => None
    case Some(s) =>
      match CoerceInt(s)
      case None => Some(NotANumber)
      case Some(n) => if n < 1 then Some(LimitTooSmall) else if n > MaxLimit then Some(LimitTooLarge) else None
  }

  /** The include rule: absent, or exactly "summary". */
  function IncludeIssue(includeParam: Option<string>): (m: Option<string>)
    ensures m.None? <==> Param(includeParam).None? || Param(includeParam).value == "summary"
  {
    match Param(includeParam)
    case None => None
    case Some(v) =>
      if v == "summary" then None
      else Some("Invalid enum value. Expected 'summary', received '" + v + "'")
  }

  datatype ListQuery = ListQuery(page: int, limit: int, summary: bool)

  datatype QueryValidation = QueryOk(query: ListQuery) | QueryInvalid(details: seq<FieldError>)

  predicate KnownField(f: string) {
    f == "page" || f == "limit" || f == "include"
  }

  /** The error a failing rule adds for its field, if any. */
  function FieldIssue(field: string, m: Option<string>): (r: seq<FieldError>)
    ensures |r| <= 1 && (r == [] <==> m.None?)
    ensures forall k :: 0 <= k < |r| ==> r[k].field == field
  {
    if m.Some? then [FieldError(field, m.value)] else []
  }

  /** One error per failing rule, in the order page, limit, include. */
  function Issues(pageIssue: Option<string>, limitIssue: Option<string>, includeIssue: Option<string>): (r: seq<FieldError>)
    ensures |r| <= 3
    ensures r == [] <==> pageIssue.None? && limitIssue.None? && includeIssue.None?
    ensures forall e :: e in r ==> KnownField(e.field)
    ensures r != [] ==> (r[0].field == "page" <==> pageIssue.Some?)
  {
    var ps := FieldIssue("page", pageIssue);
    var rest := FieldIssue("limit", limitIssue) + FieldIssue("include", includeIssue);
    assert forall k :: 0 <= k < |rest| ==> rest[k].field == "limit" || rest[k].field == "include";
    assert "limit" != "page" && "include" != "page";
    ps + rest
  }

  /** The list query schema: with every rule met, the page (default 1), the
      limit (default 20) and whether the summary was asked for; otherwise
      one error per failing parameter, in the order page, limit, include. */
  function ValidateListQuery(page: Option<string>, limit: Option<string>, includeParam: Option<string>): (v: QueryValidation)
    ensures v.QueryOk? <==> PageIssue(page).None? && LimitIssue(limit).None? && IncludeIssue(includeParam).None?
    ensures v.QueryOk? ==> 1 <= v.query.page && 1 <= v.query.limit <= MaxLimit
    ensures v.QueryOk? ==>
      && (Param(page).None? ==> v.query.page == DefaultPage)
      && (Param(page).Some? ==> CoerceInt(Param(page).value) == Some(v.query.page))
      && (Param(limit).None? ==> v.query.limit == DefaultLimit)
      && (Param(limit).Some? ==> CoerceInt(Param(limit).value) == Some(v.query.limit))
      && (v.query.summary <==> Param(includeParam).Some?)
    ensures v.QueryInvalid? ==>
      && 1 <= |v.details| <= 3
      && (forall e :: e in v.details ==> KnownField(e.field))
      && (v.details[0].field == "page" <==> PageIssue(page).Some?)
  {
    var issues := Issues(PageIssue(page), LimitIssue(limit), IncludeIssue(includeParam));
    if issues != [] then QueryInvalid(issues)
    else
      var p := Param(page);
      var l := Param(limit);
      QueryOk(ListQuery(
        if p.None? then DefaultPage else CoerceInt(p.value).value,
        if l.None? then DefaultLimit else CoerceInt(l.value).value,
        Param(includeParam).Some?))
  }

  /** Empty parameters count as absent: the defaults apply. */
  lemma EmptyParamsGiveDefaults()
    ensures ValidateListQuery(Some(""), Some(""), Some("")) == QueryOk(ListQuery(DefaultPage, DefaultLimit, false))
    ensures ValidateListQuery(None, None, None) == QueryOk(ListQuery(DefaultPage, DefaultLimit, false))
  {
  }

  lemma {:induction false} DigitsTrimToThemselves(s: string)
    requires s != [] && AllDigits(s)
    ensures Trim(s) == s
  {
    assert IsDigit(s[0]) && IsDigit(s[|s| - 1]);
    TrimIdentity(s);
  }

  /** The decimal rendering of a non-negative number reads back as it. */
  lemma {:induction false} CoerceRendered(n: nat)
    ensures CoerceInt(IntToString(n)) == Some(n)
  {
    var d := NatToString(n);
    DigitsTrimToThemselves(d);
    DecimalRoundTrip(n);
  }

  /** A rendered page number passes exactly when it is at least 1. */
  lemma {:induction false} PageBoundary(n: nat)
    ensures PageIssue(Some(IntToString(n))) == if n >= 1 then None else Some(PageTooSmall)
  {
    CoerceRendered(n);
  }

  /** A rendered limit passes exactly from 1 to 100; 0 and anything above
      100 are refused with their own messages. */
  lemma {:induction false} LimitBoundary(n: nat)
    ensures LimitIssue(Some(IntToString(n))) ==
      if n == 0 then Some(LimitTooSmall) else if n > MaxLimit then Some(LimitTooLarge) else None
  {
    CoerceRendered(n);
  }

  /** Rendered in-range numbers with the summary asked for are read back
      as they are. */
  lemma {:induction false} RenderedQueryValid(page: nat, limit: nat)
    requires page >= 1 && 1 <= limit <= MaxLimit
    ensures ValidateListQuery(Some(IntToString(page)), Some(IntToString(limit)), Some("summary"))
      == QueryOk(ListQuery(page, limit, true))
  {
    PageBoundary(page);
    LimitBoundary(limit);
    CoerceRendered(page);
    CoerceRendered(limit);
    SummaryAccepted();
    var v := ValidateListQuery(Some(IntToString(page)), Some(IntToString(limit)), Some("summary"));
    assert v.QueryOk?;
    assert v.query == ListQuery(page, limit, true);
  }

  lemma SummaryAccepted()
    ensures IncludeIssue(Some("summary")).None? && Param(Some("summary")).Some?
  {
  }

  /** `url.searchParams.get(name)`: the value of the first pair with that
      name. */
  function SearchParam(ps: seq<(string, string)>, name: string): (v: Option<string>)
    ensures v.Some? ==> (name, v.value) in ps
    ensures v.None? <==> forall i :: 0 <= i < |ps| ==> ps[i].0 != name
  {
    if ps == [] then None else if ps[0].0 == name then Some(ps[0].1) else SearchParam(ps[1..], name)
  }

  /** Looking up each name of a page, limit, include list. */
  lemma SearchThree(page: string, limit: string, incl: string)
    ensures var ps := [("page", page), ("limit", limit), ("include", incl)];
      SearchParam(ps, "page") == Some(page) && SearchParam(ps, "limit") == Some(limit)
      && SearchParam(ps, "include") == Some(incl)
  {
    var ps := [("page", page), ("limit", limit), ("include", incl)];
    assert ps[1..] == [("limit", limit), ("include", incl)];
    assert ps[1..][1..] == [("include", incl)];
    assert "limit" != "page" && "include" != "page" && "include" != "limit";
    assert SearchParam(ps[1..][1..], "include") == Some(incl);
    assert SearchParam(ps[1..], "include") == Some(incl);
  }

  /** A full dashboard query carries all three parameters, in order. */
  lemma FullQueryParams(q: PetsListHook.PetsQuery)
    requires q.page >= 1 && q.limit >= 1 && q.includeSummary
    ensures PetsListHook.QueryParams(q) == [("page", IntToString(q.page)), ("limit", IntToString(q.limit)), ("include", "summary")]
  {
  }

  /** The dashboard's requests pass this schema: whatever in-range page and
      limit the client's query string carries, the endpoint reads back that
      page and that limit, with the summary asked for. */
  lemma {:induction false} ClientQueryAccepted(q: PetsListHook.PetsQuery)
    requires q.page >= 1 && 1 <= q.limit <= MaxLimit && q.includeSummary
    ensures var ps := PetsListHook.ParseQuery(PetsListHook.QueryString(q));
      ValidateListQuery(SearchParam(ps, "page"), SearchParam(ps, "limit"), SearchParam(ps, "include"))
        == QueryOk(ListQuery(q.page, q.limit, true))
  {
    PetsListHook.QueryStringRoundTrip(q);
    FullQueryParams(q);
    SearchThree(IntToString(q.page), IntToString(q.limit), "summary");
    RenderedQueryValid(q.page, q.limit);
  }

  /** The first row of a page: `offset = (page - 1) * limit`. */
  function Offset(page: int, limit: int): nat
    requires page >= 1 && limit >= 1
  {
    (page - 1) * limit
  }

  /** `.range(offset, offset + limit - 1)`: the rows of the page, as many as
      there are up to `limit`. */
  function Window<T>(rows: seq<T>, page: int, limit: int): (w: seq<T>)
    requires page >= 1 && limit >= 1
    ensures |w| <= limit
    ensures |w| == if Offset(page, limit) >= |rows| then 0 else Min(limit, |rows| - Offset(page, limit))
    ensures forall k :: 0 <= k < |w| ==> w[k] == rows[Offset(page, limit) + k]
  {
    var offset := Offset(page, limit);
    var last := offset + limit - 1;
    if offset >= |rows| then [] else rows[offset..Min(last + 1, |rows|)]
  }

  function Min(a: int, b: int): int {
    if a <= b then a else b
  }

  /** Every row is on exactly one page: row `i` is item `i % limit` of page
      `i / limit + 1`, and that page is among the pages the pagination view
      counts. */
  lemma {:induction false} RowOnItsPage<T>(rows: seq<T>, limit: int, i: int)
    requires limit >= 1 && 0 <= i < |rows|
    ensures var p := i / limit + 1;
      && 1 <= p <= CeilDiv(|rows|, limit)
      && i % limit < |Window(rows, p, limit)|
      && Window(rows, p, limit)[i % limit] == rows[i]
  {
    var q, m := i / limit, i % limit;
    DivBounds(i, limit);
    var p := q + 1;
    var offset := q * limit;
    assert (p - 1) * limit == offset;
    var w := Window(rows, p, limit);
    assert offset <= i < |rows|;
    assert |w| == Min(limit, |rows| - offset);
    assert m < |w|;
    var pages := CeilDiv(|rows|, limit);
    if pages < p {
      MulMono(pages, q, limit);
      assert false;
    }
  }

  /** A row of the summary view; every column may be null. */
  datatype SummaryRow = SummaryRow(
    id: Option<string>, animalCode: Option<string>, name: Option<string>, species: Option<Species>,
    speciesDisplay: Option<string>, speciesEmoji: Option<string>, entriesCount: Option<int>,
    createdAt: Option<string>, updatedAt: Option<string>)

  datatype PetSummary = PetSummary(
    id: string, animalCode: string, name: string, species: Species, speciesDisplay: string,
    speciesEmoji: string, entriesCount: int, createdAt: string, updatedAt: string)

  /** The filter: every column but the entry count is present. */
  predicate Complete(r: SummaryRow) {
    r.id.Some? && r.animalCode.Some? && r.name.Some? && r.species.Some? && r.speciesDisplay.Some?
    && r.speciesEmoji.Some? && r.createdAt.Some? && r.updatedAt.Some?
  }

  /** The map: the columns copied, a null entry count read as 0. */
  function ToSummary(r: SummaryRow): (p: PetSummary)
    requires Complete(r)
    ensures p.id == r.id.value && p.name == r.name.value && p.species == r.species.value
    ensures p.entriesCount == if r.entriesCount.None? then 0 else r.entriesCount.value
  {
    PetSummary(r.id.value, r.animalCode.value, r.name.value, r.species.value, r.speciesDisplay.value,
               r.speciesEmoji.value, if r.entriesCount.None? then 0 else r.entriesCount.value,
               r.createdAt.value, r.updatedAt.value)
  }

  /** The rows with a null column dropped and the rest mapped, in order. */
  function MapRows(rows: seq<SummaryRow>): (items: seq<PetSummary>)
    ensures |items| <= |rows|
    ensures forall p :: p in items ==> exists r :: r in rows && Complete(r) && p == ToSummary(r)
    ensures (forall r :: r in rows ==> Complete(r)) ==>
      |items| == |rows| && forall k :: 0 <= k < |rows| ==> items[k] == ToSummary(rows[k])
  {
    if rows == [] then []
    else
      var rest := MapRows(rows[1..]);
      assert forall r :: r in rows[1..] ==> r in rows;
      if Complete(rows[0]) then [ToSummary(rows[0])] + rest else rest
  }

  /** The ids of the pets the user owns: one per link of the user's. */
  function OwnedPetIds(owners: seq<Ownership>, userId: string): (ids: seq<string>)
    ensures forall id :: id in ids <==> Owns(owners, userId, id)
  {
    if owners == [] then []
    else
      var rest := OwnedPetIds(owners[1..], userId);
      if owners[0].userId == userId then [owners[0].petId] + rest else rest
  }

  /** `.in("id", petIds)`: the view rows of the given pets, in view order. */
  function RowsOf(rows: seq<SummaryRow>, ids: seq<string>): (r: seq<SummaryRow>)
    ensures forall x :: x in r <==> x in rows && x.id.Some? && x.id.value in ids
    ensures ids == [] ==> r == []
  {
    if rows == [] then []
    else
      var rest := RowsOf(rows[1..], ids);
      if rows[0].id.Some? && rows[0].id.value in ids then [rows[0]] + rest else rest
  }

  /** Database failures the handler may meet, one per query, and an
      unexpected exception. */
  datatype GetFaults = GetFaults(ownershipFails: bool, pageFails: bool, countFails: bool, thrown: bool)

  const NoFaults: GetFaults := GetFaults(false, false, false, false)

  datatype GetResponse = ListOk(items: seq<PetSummary>, page: int, limit: int, total: nat) | GetFailed(err: ApiError)

  function StatusOf(r: GetResponse): int {
    if r.ListOk? then 200 else r.err.status
  }

  /** The list after validation, from the owner links and the summary view
      in name order. */
  function ListPage(owners: seq<Ownership>, viewByName: seq<SummaryRow>, userId: string, q: ListQuery, f: GetFaults): (r: GetResponse)
    requires q.page >= 1 && q.limit >= 1
  {
    var ids := OwnedPetIds(owners, userId);
    if f.ownershipFails then GetFailed(ApiError(500, "Database Error", "Nie udało się pobrać listy zwierząt", []))
    else if ids == [] then ListOk([], q.page, q.limit, 0)
    else if f.pageFails then GetFailed(ApiError(500, "Database Error", "Nie udało się pobrać listy zwierząt", []))
    else if f.countFails then GetFailed(ApiError(500, "Database Error", "Nie udało się pobrać liczby zwierząt", []))
    else
      var visible := RowsOf(viewByName, ids);
      ListOk(MapRows(Window(visible, q.page, q.limit)), q.page, q.limit, |visible|)
  }

  /** `GET /api/pets`: an unexpected exception is 500; then no client 500,
      no user 401, a bad query 400 with its details; then the list. */
  function Get(hasClient: bool, user: Option<string>, page: Option<string>, limit: Option<string>,
               includeParam: Option<string>, owners: seq<Ownership>, viewByName: seq<SummaryRow>, f: GetFaults): (r: GetResponse)
    ensures f.thrown ==> r == GetFailed(Unexpected)
    ensures !f.thrown && !hasClient ==> r == GetFailed(NoClient)
    ensures !f.thrown && hasClient && user.None? ==> r == GetFailed(NoUser)
    ensures !f.thrown && hasClient && user.Some? && ValidateListQuery(page, limit, includeParam).QueryInvalid? ==>
      r.GetFailed? && r.err.status == 400 && r.err.details == ValidateListQuery(page, limit, includeParam).details
    ensures StatusOf(r) in {200, 400, 401, 500}
    ensures r.ListOk? ==> 1 <= r.page && 1 <= r.limit <= MaxLimit && |r.items| <= r.limit
  {
    if f.thrown then GetFailed(Unexpected)
    else if !hasClient then GetFailed(NoClient)
    else if user.None? then GetFailed(NoUser)
    else
      match ValidateListQuery(page, limit, includeParam)
      case QueryInvalid(details) =>
        GetFailed(ApiError(400, "Validation Failed", "Walidacja parametrów zapytania nie powiodła się", details))
      case QueryOk(q) => ListPage(owners, viewByName, user.value, q, f)
  }

  /** The early answer for a user without pets is what the full path would
      give: no items and a total of 0, with the requested page and limit. */
  lemma {:induction false} NoPetsShortcutAgrees(owners: seq<Ownership>, viewByName: seq<SummaryRow>, userId: string, q: ListQuery)
    requires q.page >= 1 && q.limit >= 1
    requires OwnedPetIds(owners, userId) == []
    ensures ListPage(owners, viewByName, userId, q, NoFaults) == ListOk([], q.page, q.limit, 0)
    ensures var visible := RowsOf(viewByName, []);
      MapRows(Window(visible, q.page, q.limit)) == [] && |visible| == 0
  {
    var visible := RowsOf(viewByName, []);
    assert visible == [];
    var w := Window(visible, q.page, q.limit);
    assert w == [];
    assert MapRows(w) == [];
  }

  /** A successful list holds only pets the user owns: the page is the
      complete rows among the user's view rows of that page, mapped, and the
      total counts all of the user's view rows. */
  lemma {:induction false} ListShowsOwnPets(owners: seq<Ownership>, viewByName: seq<SummaryRow>, userId: string, q: ListQuery)
    requires q.page >= 1 && q.limit >= 1
    ensures var r := ListPage(owners, viewByName, userId, q, NoFaults);
      && r.ListOk?
      && r.items == MapRows(Window(RowsOf(viewByName, OwnedPetIds(owners, userId)), q.page, q.limit))
      && (forall p :: p in r.items ==> Owns(owners, userId, p.id))
      && r.total == |RowsOf(viewByName, OwnedPetIds(owners, userId))|
  {
    var ids := OwnedPetIds(owners, userId);
    var visible := RowsOf(viewByName, ids);
    var w := Window(visible, q.page, q.limit);
    forall p | p in MapRows(w) ensures Owns(owners, userId, p.id) {
      var r :| r in w && Complete(r) && p == ToSummary(r);
      var k :| 0 <= k < |w| && w[k] == r;
      assert r in visible;
    }
  }

  // ---------------------------------------------------------------- POST

  datatype PostResponse =
    | Created(id: string, animalCode: string, name: string, species: Species, createdAt: string)
    | PostFailed(err: ApiError)

  function PostStatus(r: PostResponse): int {
    if r.Created? then 201 else r.err.status
  }

  function ConflictMessage(name: string): string {
    "Zwierzę o imieniu \"" + name + "\" już istnieje w Twoim profilu"
  }

  /** `POST /api/pets`, as a function of the store before the call: the
      response and the store after it. */
  function PostOutcome(s: Store, hasClient: bool, user: Option<string>, body: Body, checkFails: bool,
                       insert: InsertResult, thrown: bool): (o: (PostResponse, Store))
    ensures thrown ==> o == (PostFailed(Unexpected), s)
    ensures !thrown && !hasClient ==> o == (PostFailed(NoClient), s)
    ensures !thrown && hasClient && user.None? ==> o == (PostFailed(NoUser), s)
    ensures !thrown && hasClient && user.Some? && body.Unparsable? ==>
      o.0 == PostFailed(ApiError(400, "Bad Request", "Nieprawidłowy format JSON", []))
    ensures !thrown && hasClient && user.Some? && !body.Unparsable? && ValidateBody(body).Invalid? ==>
      o.0 == PostFailed(ApiError(400, "Validation Failed", "Walidacja danych wejściowych nie powiodła się",
                                 ValidateBody(body).details))
    ensures PostStatus(o.0) in {201, 400, 401, 409, 500}
    ensures !o.0.Created? ==> o.1 == s
    ensures o.0.Created? ==> o.1 == s.(pets := s.pets + [PetRecord(o.0.id, o.0.animalCode, o.0.name, o.0.species, o.0.createdAt, false)])
    ensures o.0.Created? <==> (!thrown && hasClient && user.Some? && !body.Unparsable? && ValidateBody(body).Valid?
                              && !OwnedDuplicate(s, user.value, ValidateBody(body).command.name, checkFails)
                              && insert.InsertOk?)
    ensures o.0.Created? ==> o.0.name == ValidateBody(body).command.name
    ensures PostStatus(o.0) == 409 ==> user.Some? && !body.Unparsable? && ValidateBody(body).Valid?
                                       && OwnedDuplicate(s, user.value, ValidateBody(body).command.name, checkFails)
  {
    if thrown then (PostFailed(Unexpected), s)
    else if !hasClient then (PostFailed(NoClient), s)
    else if user.None? then (PostFailed(NoUser), s)
    else if body.Unparsable? then (PostFailed(ApiError(400, "Bad Request", "Nieprawidłowy format JSON", [])), s)
    else
      match ValidateBody(body)
      case Invalid(details) =>
        (PostFailed(ApiError(400, "Validation Failed", "Walidacja danych wejściowych nie powiodła się", details)), s)
      case Valid(cmd) => CreateOutcome(s, user.value, cmd, checkFails, insert)
  }

  /** The handler once the body has passed validation: a pet of the
      caller's with the same name (ignoring case) is a conflict; otherwise
      the insert's answer decides between 201 with the stored row and 500. */
  function CreateOutcome(s: Store, userId: string, cmd: CreatePetCommand, checkFails: bool,
                         insert: InsertResult): (o: (PostResponse, Store))
    ensures PostStatus(o.0) in {201, 409, 500}
    ensures !o.0.Created? ==> o.1 == s
    ensures o.0.Created? ==> o.1 == s.(pets := s.pets + [PetRecord(o.0.id, o.0.animalCode, o.0.name, o.0.species, o.0.createdAt, false)])
    ensures o.0.Created? <==> !OwnedDuplicate(s, userId, cmd.name, checkFails) && insert.InsertOk?
    ensures o.0.Created? ==> o.0.name == cmd.name
    ensures PostStatus(o.0) == 409 <==> OwnedDuplicate(s, userId, cmd.name, checkFails)
  {
    if OwnedDuplicate(s, userId, cmd.name, checkFails) then
      (PostFailed(ApiError(409, "Conflict", ConflictMessage(cmd.name), [])), s)
    else
      match insert
      case InsertError(_) => (PostFailed(ApiError(500, "Database Error", "Nie udało się utworzyć zwierzęcia", [])), s)
      case InsertNoRow =>
        (PostFailed(ApiError(500, "Internal Server Error", "Nie udało się pobrać danych utworzonego zwierzęcia", [])), s)
      case InsertOk(id, code, at) =>
        (Created(id, code, cmd.name, cmd.species, at),
         s.(pets := s.pets + [PetRecord(id, code, cmd.name, cmd.species, at, false)]))
  }

  /** For a name without pattern syntax, a 409 names a real duplicate: an
      active pet of the caller's whose name equals the validated name
      ignoring case. */
  lemma {:induction false} ConflictNamesOwnedPet(s: Store, hasClient: bool, user: Option<string>, body: Body,
                                                 checkFails: bool, insert: InsertResult, thrown: bool)
    requires PostStatus(PostOutcome(s, hasClient, user, body, checkFails, insert, thrown).0) == 409
    requires PlainName(ValidateBody(body).command.name)
    ensures user.Some? && !body.Unparsable? && ValidateBody(body).Valid?
    ensures exists q :: q in s.pets && !q.isDeleted && Owns(s.owners, user.value, q.id)
                        && SameIgnoringCase(q.name, ValidateBody(body).command.name)
  {
    ConflictIsRealDuplicate(s, user.value, ValidateBody(body).command.name, checkFails);
  }

  /** As written, a new pet named `%` is refused with 409 whenever the
      first active pet in the table is the caller's, although no pet of
      theirs needs to be called `%`. */
  lemma PercentNameGetsConflict(s: Store, userId: string, insert: InsertResult)
    requires s.pets != [] && !s.pets[0].isDeleted && Owns(s.owners, userId, s.pets[0].id)
    ensures PostOutcome(s, true, Some(userId), Object(Str("%"), Str("dog")), false, insert, false).0
      == PostFailed(ApiError(409, "Conflict", ConflictMessage("%"), []))
    ensures '%' !in s.pets[0].name ==> !SameIgnoringCase(s.pets[0].name, "%")
  {
    PercentNameTrimmed();
    assert ValidateBody(Object(Str("%"), Str("dog"))) == Valid(CreatePetCommand("%", Dog));
    PercentNameConflicts(s, userId);
    if '%' !in s.pets[0].name && |s.pets[0].name| == 1 {
      assert s.pets[0].name[0] != '%';
    }
  }

  lemma PercentNameTrimmed()
    ensures Trim("%") == "%"
  {
    TrimIdentity("%");
  }

  /** A created pet is active, carries a trimmed name, and is the only
      change to the store. */
  lemma {:induction false} CreatedPetIsOnlyChange(s: Store, hasClient: bool, user: Option<string>, body: Body,
                                                  checkFails: bool, insert: InsertResult, thrown: bool)
    requires PostOutcome(s, hasClient, user, body, checkFails, insert, thrown).0.Created?
    ensures var t := PostOutcome(s, hasClient, user, body, checkFails, insert, thrown).1;
      && |t.pets| == |s.pets| + 1 && t.pets[..|s.pets|] == s.pets && t.owners == s.owners
      && !t.pets[|s.pets|].isDeleted && Trim(t.pets[|s.pets|].name) == t.pets[|s.pets|].name
      && 1 <= |t.pets[|s.pets|].name| <= MaxNameLength
  {
    var o := PostOutcome(s, hasClient, user, body, checkFails, insert, thrown);
    CreatedRecord(s, hasClient, user, body, checkFails, insert, thrown);
    ValidNameIsTrimmed(body.name, body.species);
    Appended(s.pets, o.1.pets, PetRecord(o.0.id, o.0.animalCode, o.0.name, o.0.species, o.0.createdAt, false));
  }

  /** A list extended by one pet keeps its prefix and ends with the pet. */
  lemma Appended<T>(before: seq<T>, after: seq<T>, p: T)
    requires after == before + [p]
    ensures |after| == |before| + 1 && after[..|before|] == before && after[|before|] == p
  {
  }

  /** The record a creation appends, and the name it carries. */
  lemma {:induction false} CreatedRecord(s: Store, hasClient: bool, user: Option<string>, body: Body,
                                         checkFails: bool, insert: InsertResult, thrown: bool)
    requires PostOutcome(s, hasClient, user, body, checkFails, insert, thrown).0.Created?
    ensures var o := PostOutcome(s, hasClient, user, body, checkFails, insert, thrown);
      && body.Object? && ValidateCreatePet(body.name, body.species).Valid?
      && o.0.name == ValidateCreatePet(body.name, body.species).command.name
      && o.1.pets == s.pets + [PetRecord(o.0.id, o.0.animalCode, o.0.name, o.0.species, o.0.createdAt, false)]
      && o.1.owners == s.owners
  {
  }

  /** The handler: the early returns in order, the insert into the store on
      success. */
  method Post(tables: PetTables, hasClient: bool, user: Option<string>, body: Body, checkFails: bool,
              insert: InsertResult, thrown: bool) returns (r: PostResponse)
    modifies tables
    ensures (r, tables.State()) == PostOutcome(old(tables.State()), hasClient, user, body, checkFails, insert, thrown)
  {
    if thrown {
      return PostFailed(Unexpected);
    }
    if !hasClient {
      return PostFailed(NoClient);
    }
    if user.None? {
      return PostFailed(NoUser);
    }
    if body.Unparsable? {
      return PostFailed(ApiError(400, "Bad Request", "Nieprawidłowy format JSON", []));
    }
    var v := ValidateBody(body);
    if v.Invalid? {
      return PostFailed(ApiError(400, "Validation Failed", "Walidacja danych wejściowych nie powiodła się", v.details));
    }
    r := Create(tables, user.value, v.command, checkFails, insert);
  }

  /** The validated part of `POST`: the duplicate check, then the insert. */
  method Create(tables: PetTables, userId: string, cmd: CreatePetCommand, checkFails: bool,
                insert: InsertResult) returns (r: PostResponse)
    modifies tables
    ensures (r, tables.State()) == CreateOutcome(old(tables.State()), userId, cmd, checkFails, insert)
  {
    if OwnedDuplicate(tables.State(), userId, cmd.name, checkFails) {
      return PostFailed(ApiError(409, "Conflict", ConflictMessage(cmd.name), []));
    }
    match insert {
      case InsertError(_) =>
        r := PostFailed(ApiError(500, "Database Error", "Nie udało się utworzyć zwierzęcia", []));
      case InsertNoRow =>
        r := PostFailed(ApiError(500, "Internal Server Error", "Nie udało się pobrać danych utworzonego zwierzęcia", []));
      case InsertOk(id, code, at) =>
        tables.InsertPet(PetRecord(id, code, cmd.name, cmd.species, at, false));
        r := Created(id, code, cmd.name, cmd.species, at);
    }
  }
}
