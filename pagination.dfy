/** Navigation facts derived from a server-reported `{page, limit, total}`
    triple (the `PaginationViewModel` of the client). The same computation
    appears in `mapPaginationToViewModel` (care history) and in
    `mapPetsToViewModel` (dashboard); both use `ToView`. */
module Pagination {

  /** What the server reports: the page it served, its page size and the
      number of matching rows. */
  datatype PageWindow = PageWindow(page: int, limit: int, total: nat)

  datatype PaginationView = PaginationView(
    page: int, limit: int, total: nat, totalPages: nat, hasPrev: bool, hasNext: bool)

  /** `Math.ceil(total / limit)` for a non-negative total and a positive limit:
      the least number of pages of `limit` rows that hold `total` rows. */
  function CeilDiv(total: nat, limit: nat): (pages: nat)
    requires limit >= 1
    ensures pages * limit >= total
    ensures pages == 0 || (pages - 1) * limit < total
  {
    var q := (total + limit - 1) / limit;
    DivBounds(total + limit - 1, limit);
    q
  }

  lemma DivBounds(a: nat, b: nat)
    requires b >= 1
    ensures (a / b) * b <= a < (a / b) * b + b
    ensures a == (a / b) * b + a % b && 0 <= a % b < b
  {
  }

  /** There is only one page count with the two properties of `CeilDiv`. */
  lemma {:induction false} CeilDivUnique(total: nat, limit: nat, k: nat)
    requires limit >= 1
    requires k * limit >= total
    requires k == 0 || (k - 1) * limit < total
    ensures k == CeilDiv(total, limit)
  {
    var q := CeilDiv(total, limit);
    if k < q {
      assert k <= q - 1;
      MulMono(k, q - 1, limit);
    } else if k > q {
      assert q <= k - 1;
      MulMono(q, k - 1, limit);
    }
  }

  lemma MulMono(a: nat, b: nat, c: nat)
    requires a <= b
    ensures a * c <= b * c
  {
  }

  /** The view the client derives from a server window. */
  function ToView(w: PageWindow): (v: PaginationView)
    requires w.limit >= 1
    ensures v.page == w.page && v.limit == w.limit && v.total == w.total
    ensures v.totalPages * w.limit >= w.total
    ensures v.totalPages == 0 || (v.totalPages - 1) * w.limit < w.total
    ensures v.hasPrev <==> w.page > 1
    ensures v.hasNext <==> w.page < v.totalPages
  {
    var totalPages := CeilDiv(w.total, w.limit);
    PaginationView(w.page, w.limit, w.total, totalPages, w.page > 1, w.page < totalPages)
  }

  /** No rows means no pages, hence no next page; the first page of nothing
      has no neighbours at all (`{1, 20, 0}` gives `{0 pages, false, false}`). */
  lemma {:induction false} EmptyHasNoPages(w: PageWindow)
    requires w.limit >= 1 && w.total == 0
    ensures ToView(w).totalPages == 0
    ensures w.page >= 0 ==> !ToView(w).hasNext
    ensures w.page == 1 ==> !ToView(w).hasPrev && !ToView(w).hasNext
  {
  }

  /** `hasNext` holds exactly when rows lie beyond the served page. */
  lemma {:induction false} HasNextMeansMoreRows(w: PageWindow)
    requires w.limit >= 1 && w.page >= 1
    ensures ToView(w).hasNext <==> w.page * w.limit < w.total
  {
    var v := ToView(w);
    if v.hasNext {
      assert w.page <= v.totalPages - 1;
      MulMono(w.page, v.totalPages - 1, w.limit);
    } else {
      assert v.totalPages <= w.page;
      MulMono(v.totalPages, w.page, w.limit);
    }
  }

  /** The last page holds at least one row and every row falls on some page:
      page `p` in `1..totalPages` starts below `total`. */
  lemma {:induction false} PagesStartBelowTotal(w: PageWindow, p: int)
    requires w.limit >= 1 && 1 <= p <= ToView(w).totalPages
    ensures (p - 1) * w.limit < w.total
  {
    var v := ToView(w);
    MulMono(p - 1, v.totalPages - 1, w.limit);
  }
}
