/** The pager under a paginated list: on a narrow viewport a single
    "load more" button (or an end-of-list message), on a wide one Prev/Next
    buttons around a compact run of page numbers with ellipsis markers. */
module PaginationControls {
  import opened Pagination

  /** One slot of the compact pager: a page number or the `"..."` marker. */
  datatype Slot = Page(n: int) | Ellipsis

  /** At most this many slots are meant to be visible. */
  const MaxVisible: int := 7

  function Max(a: int, b: int): int { if a >= b then a else b }
  function Min(a: int, b: int): int { if a <= b then a else b }

  /** The pages `a, a + 1, ..., b`, empty when `a > b`. */
  function Run(a: int, b: int): (r: seq<Slot>)
    ensures |r| == if a <= b then b - a + 1 else 0
    ensures forall i :: 0 <= i < |r| ==> r[i] == Page(a + i)
    decreases b - a
  {
    if a > b then [] else [Page(a)] + Run(a + 1, b)
  }

  /** The slots `generatePageNumbers(current, totalPages)` produces: every page
      when there are at most seven; otherwise page 1, a marker when the window
      does not touch page 2, the window `max(2, c-1)..min(t-1, c+1)`, a marker
      when the window does not touch page `t - 1`, and the last page. Nothing
      is clamped: an out-of-range `current` only empties the window. */
  function PageNumbers(current: int, totalPages: int): seq<Slot> {
    if totalPages <= MaxVisible then Run(1, totalPages)
    else
      [Page(1)]
      + (if current > 3 then [Ellipsis] else [])
      + Run(Max(2, current - 1), Min(totalPages - 1, current + 1))
      + (if current < totalPages - 2 then [Ellipsis] else [])
      + [Page(totalPages)]
  }

  lemma RunSnoc(a: int, b: int)
    requires a <= b + 1
    ensures Run(a, b) + [Page(b + 1)] == Run(a, b + 1)
  {
    assert |Run(a, b) + [Page(b + 1)]| == |Run(a, b + 1)|;
  }

  /** `for (let i = a; i <= b; i++) pages.push(i)`. */
  method PushRange(pages: seq<Slot>, a: int, b: int) returns (r: seq<Slot>)
    ensures r == pages + Run(a, b)
  {
    r := pages;
    var i := a;
    while i <= b
      invariant a <= i <= Max(a, b + 1)
      invariant r == pages + Run(a, i - 1)
    {
      RunSnoc(a, i - 1);
      r := r + [Page(i)];
      i := i + 1;
    }
  }

  /** The construction of the slots, one `push` at a time. */
  method GeneratePageNumbers(current: int, totalPages: int) returns (pages: seq<Slot>)
    ensures pages == PageNumbers(current, totalPages)
  {
    if totalPages <= MaxVisible {
      pages := PushRange([], 1, totalPages);
      assert [] + Run(1, totalPages) == Run(1, totalPages);
    } else {
      pages := [Page(1)];
      if current > 3 {
        pages := pages + [Ellipsis];
      }
      pages := PushRange(pages, Max(2, current - 1), Min(totalPages - 1, current + 1));
      if current < totalPages - 2 {
        pages := pages + [Ellipsis];
      }
      pages := pages + [Page(totalPages)];
    }
  }

  /** Page numbers appear in strictly increasing order. */
  predicate Increasing(r: seq<Slot>) {
    forall i, j :: 0 <= i < j < |r| && r[i].Page? && r[j].Page? ==> r[i].n < r[j].n
  }

  /** Two adjacent page slots are consecutive pages: no page is skipped
      silently. */
  predicate NoSilentGap(r: seq<Slot>) {
    forall i :: 0 <= i < |r| - 1 && r[i].Page? && r[i + 1].Page? ==> r[i + 1].n == r[i].n + 1
  }

  /** Every marker sits between two page slots and stands for at least one
      hidden page. */
  predicate MarkersHidePages(r: seq<Slot>) {
    forall i :: 0 <= i < |r| && r[i].Ellipsis? ==>
      0 < i < |r| - 1 && r[i - 1].Page? && r[i + 1].Page? && r[i + 1].n > r[i - 1].n + 1
  }

  /** With at most seven pages the pager lists exactly `1..totalPages`, with no
      marker, whatever the current page. */
  lemma SmallListsEveryPage(current: int, totalPages: int)
    requires totalPages <= MaxVisible
    ensures |PageNumbers(current, totalPages)| == Max(totalPages, 0)
    ensures forall i :: 0 <= i < |PageNumbers(current, totalPages)| ==>
      PageNumbers(current, totalPages)[i] == Page(i + 1)
    ensures Ellipsis !in PageNumbers(current, totalPages)
  {
  }

  function Lead(current: int): nat { if current > 3 then 1 else 0 }
  function Trail(current: int, totalPages: int): nat { if current < totalPages - 2 then 1 else 0 }
  function WindowLo(current: int): int { Max(2, current - 1) }
  function WindowHi(current: int, totalPages: int): int { Min(totalPages - 1, current + 1) }

  /** Slot `i` of the compact pager, by position: page 1, the optional leading
      marker, the window, the optional trailing marker, the last page. */
  lemma {:induction false} CompactAt(current: int, totalPages: int, i: int)
    requires totalPages > MaxVisible
    requires 0 <= i < |PageNumbers(current, totalPages)|
    ensures var a := 1 + Lead(current);
      var w := |Run(WindowLo(current), WindowHi(current, totalPages))|;
      && |PageNumbers(current, totalPages)| == a + w + Trail(current, totalPages) + 1
      && PageNumbers(current, totalPages)[i] ==
        if i == 0 then Page(1)
        else if i < a then Ellipsis
        else if i < a + w then Page(WindowLo(current) + i - a)
        else if i < a + w + Trail(current, totalPages) then Ellipsis
        else Page(totalPages)
  {
    var c, t := current, totalPages;
    var L: seq<Slot> := if c > 3 then [Ellipsis] else [];
    var W := Run(WindowLo(c), WindowHi(c, t));
    var T: seq<Slot> := if c < t - 2 then [Ellipsis] else [];
    var r := PageNumbers(c, t);
    assert r == [Page(1)] + L + W + T + [Page(t)];
    var a := 1 + |L|;
    if a <= i < a + |W| {
      assert r[i] == W[i - a];
    }
  }

  /** Above seven pages the pager shows at most seven slots, first page 1 and
      last page `totalPages`, every page in `1..totalPages`, for every current
      page (in range or not: an out-of-range one only empties the window). */
  lemma {:induction false} CompactBounds(current: int, totalPages: int)
    requires totalPages > MaxVisible
    ensures var r := PageNumbers(current, totalPages);
      && 3 <= |r| <= MaxVisible
      && r[0] == Page(1) && r[|r| - 1] == Page(totalPages)
      && (forall i :: 0 <= i < |r| && r[i].Page? ==> 1 <= r[i].n <= totalPages)
  {
    var r := PageNumbers(current, totalPages);
    CompactAt(current, totalPages, 0);
    CompactAt(current, totalPages, |r| - 1);
    forall i | 0 <= i < |r| && r[i].Page? ensures 1 <= r[i].n <= totalPages {
      CompactAt(current, totalPages, i);
    }
  }

  /** Page numbers strictly increase along the pager. */
  lemma {:induction false} CompactIncreasing(current: int, totalPages: int)
    requires totalPages > MaxVisible
    ensures Increasing(PageNumbers(current, totalPages))
  {
    var r := PageNumbers(current, totalPages);
    forall i, j | 0 <= i < j < |r| && r[i].Page? && r[j].Page? ensures r[i].n < r[j].n {
      CompactAt(current, totalPages, i);
      CompactAt(current, totalPages, j);
    }
  }

  /** Two neighbouring page slots are consecutive pages. */
  lemma {:induction false} CompactNoSilentGap(current: int, totalPages: int)
    requires totalPages > MaxVisible
    ensures NoSilentGap(PageNumbers(current, totalPages))
  {
    var r := PageNumbers(current, totalPages);
    forall i | 0 <= i < |r| - 1 && r[i].Page? && r[i + 1].Page? ensures r[i + 1].n == r[i].n + 1 {
      CompactAt(current, totalPages, i);
      CompactAt(current, totalPages, i + 1);
    }
  }

  /** Every marker stands between two pages and hides at least one page. */
  lemma {:induction false} CompactMarkersHidePages(current: int, totalPages: int)
    requires totalPages > MaxVisible
    ensures MarkersHidePages(PageNumbers(current, totalPages))
  {
    var r := PageNumbers(current, totalPages);
    forall i | 0 <= i < |r| && r[i].Ellipsis?
      ensures 0 < i < |r| - 1 && r[i - 1].Page? && r[i + 1].Page? && r[i + 1].n > r[i - 1].n + 1
    {
      CompactAt(current, totalPages, i);
      CompactAt(current, totalPages, 0);
      CompactAt(current, totalPages, |r| - 1);
      CompactAt(current, totalPages, i - 1);
      CompactAt(current, totalPages, i + 1);
    }
  }

  /** For an in-range current page above seven pages: the current page is
      shown, a leading marker appears exactly when `current > 3`, a trailing
      one exactly when `current < totalPages - 2`, and the numbers between the
      markers are the window `max(2, c-1)..min(t-1, c+1)`. */
  lemma {:induction false} CompactMarkers(current: int, totalPages: int)
    requires totalPages > MaxVisible && 1 <= current <= totalPages
    ensures var r := PageNumbers(current, totalPages);
      && Page(current) in r
      && (r[1] == Ellipsis <==> current > 3)
      && (r[|r| - 2] == Ellipsis <==> current < totalPages - 2)
      && r[(if current > 3 then 2 else 1)..|r| - (if current < totalPages - 2 then 2 else 1)]
         == Run(Max(2, current - 1), Min(totalPages - 1, current + 1))
  {
    var c, t := current, totalPages;
    var s, e := Max(2, c - 1), Min(t - 1, c + 1);
    var L: seq<Slot> := if c > 3 then [Ellipsis] else [];
    var W := Run(s, e);
    var T: seq<Slot> := if c < t - 2 then [Ellipsis] else [];
    var r := PageNumbers(c, t);
    assert r == [Page(1)] + L + W + T + [Page(t)];
    assert s <= e;
    assert r[1 + |L|..|r| - 1 - |T|] == W;
    if c == 1 {
      assert r[0] == Page(c);
    } else if c == t {
      assert r[|r| - 1] == Page(c);
    } else {
      assert W[c - s] == Page(c);
      assert r[1 + |L| + (c - s)] == Page(c);
    }
    assert r[1] == (if c > 3 then Ellipsis else W[0]);
    assert r[|r| - 2] == (if c < t - 2 then Ellipsis else W[|W| - 1]);
  }

  /** Examples fixed by the component's tests: (5, 10), (1, 10) and the
      unclamped out-of-range inputs (0, 10) and (15, 10). */
  lemma Examples()
    ensures PageNumbers(5, 10) == [Page(1), Ellipsis, Page(4), Page(5), Page(6), Ellipsis, Page(10)]
    ensures PageNumbers(1, 10) == [Page(1), Page(2), Ellipsis, Page(10)]
    ensures PageNumbers(0, 10) == [Page(1), Ellipsis, Page(10)]
    ensures PageNumbers(15, 10) == [Page(1), Ellipsis, Page(10)]
  {
    assert Run(4, 6) == [Page(4), Page(5), Page(6)];
    assert Run(2, 2) == [Page(2)];
  }

  /** What the pager renders. */
  datatype PagerView =
    | EndOfList
    | LoadMore(disabled: bool, busyLabel: bool, target: int)
    | Desktop(prevDisabled: bool, prevTarget: int, buttons: seq<PageButton>,
              nextDisabled: bool, nextTarget: int)

  datatype PageButton = Marker | Button(page: int, current: bool, disabled: bool)

  function ButtonFor(s: Slot, p: PaginationView, isLoading: bool): PageButton {
    match s
    case Ellipsis => Marker
    case Page(n) => Button(n, n == p.page, n == p.page || isLoading)
  }

  function ButtonsFor(slots: seq<Slot>, p: PaginationView, isLoading: bool): (r: seq<PageButton>)
    ensures |r| == |slots|
    ensures forall i :: 0 <= i < |slots| ==> r[i] == ButtonFor(slots[i], p, isLoading)
  {
    if slots == [] then [] else [ButtonFor(slots[0], p, isLoading)] + ButtonsFor(slots[1..], p, isLoading)
  }

  /** The component's rendering decision. */
  function Pager(p: PaginationView, isMobile: bool, isLoading: bool): (v: PagerView)
    ensures isMobile && !p.hasNext ==> v.EndOfList?
    ensures isMobile && p.hasNext ==> v == LoadMore(isLoading, isLoading, p.page + 1)
    ensures !isMobile ==> (v.Desktop?
      && (v.prevDisabled <==> !p.hasPrev || isLoading) && v.prevTarget == p.page - 1
      && (v.nextDisabled <==> !p.hasNext || isLoading) && v.nextTarget == p.page + 1
      && v.buttons == ButtonsFor(PageNumbers(p.page, p.totalPages), p, isLoading)
      && |v.buttons| == |PageNumbers(p.page, p.totalPages)|
      && (forall i :: 0 <= i < |v.buttons| && v.buttons[i].Button? && v.buttons[i].current ==>
            v.buttons[i].disabled && v.buttons[i].page == p.page))
  {
    if isMobile then
      if !p.hasNext then EndOfList else LoadMore(isLoading || !p.hasNext, isLoading, p.page + 1)
    else
      Desktop(!p.hasPrev || isLoading, p.page - 1,
              ButtonsFor(PageNumbers(p.page, p.totalPages), p, isLoading),
              !p.hasNext || isLoading, p.page + 1)
  }
}
