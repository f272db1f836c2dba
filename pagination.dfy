/** The client-side paging every list page repeats: a `currentPage` state,
    the page `rows.slice(offset, offset + perPage)` with `offset =
    currentPage * perPage`, and the guarded `goToPreviousPage` /
    `goToNextPage` handlers. The Dashboard shows 20 rows a page, the Report,
    families and disabilities pages 10. */
module Pagination {
  const DashboardPerPage: nat := 20
  const PerPage: nat := 10

  function Min(a: int, b: int): int {
    if a <= b then a else b
  }

  /** `Math.ceil(n / perPage)`: the fewest pages of `perPage` rows that hold
      `n` rows. */
  function PageCount(n: nat, perPage: nat): (r: nat)
    requires perPage > 0
    ensures n <= r * perPage
    ensures r == 0 || (r - 1) * perPage < n
  {
    var q := (n + perPage - 1) / perPage;
    assert n + perPage - 1 == q * perPage + (n + perPage - 1) % perPage;
    q
  }

  /** The highest page a user can step to: `Math.ceil(n / perPage) - 1`, or
      page 0 of an empty list. */
  function LastPage(n: nat, perPage: nat): nat
    requires perPage > 0
  {
    if PageCount(n, perPage) == 0 then 0 else PageCount(n, perPage) - 1
  }

  /** `rows.slice(page * perPage, page * perPage + perPage)`; `slice` clamps
      both ends to the length. */
  function PageSlice<T>(rows: seq<T>, page: nat, perPage: nat): (r: seq<T>)
    ensures |r| <= perPage
    ensures page * perPage >= |rows| ==> r == []
    ensures forall i :: 0 <= i < |r| ==> page * perPage + i < |rows| && r[i] == rows[page * perPage + i]
  {
    var lo := page * perPage;
    if lo >= |rows| then [] else rows[lo..Min(lo + perPage, |rows|)]
  }

  /** The number shown in a row's first cell: `currentPage * perPage +
      idx + 1`. */
  function RowNumber(page: nat, perPage: nat, idx: nat): nat {
    page * perPage + idx + 1
  }

  /** Pages `0 .. k - 1`, one after the other. */
  function Pages<T>(rows: seq<T>, perPage: nat, k: nat): seq<T>
    decreases k
  {
    if k == 0 then [] else Pages(rows, perPage, k - 1) + PageSlice(rows, k - 1, perPage)
  }

  /** The first `k` pages are the first `k * perPage` rows. */
  lemma {:induction false} PagesPrefix<T>(rows: seq<T>, perPage: nat, k: nat)
    ensures Pages(rows, perPage, k) == rows[..Min(k * perPage, |rows|)]
    decreases k
  {
    if k > 0 {
      PagesPrefix(rows, perPage, k - 1);
      var lo := (k - 1) * perPage;
      assert k * perPage == lo + perPage;
      if lo < |rows| {
        assert rows[..Min(k * perPage, |rows|)] == rows[..lo] + rows[lo..Min(lo + perPage, |rows|)];
      }
    }
  }

  /** Pages `0 .. ceil(n / perPage) - 1` concatenate back to exactly the
      list, and every page after them is empty. */
  lemma {:induction false} PagesCover<T>(rows: seq<T>, perPage: nat, page: nat)
    requires perPage > 0
    ensures Pages(rows, perPage, PageCount(|rows|, perPage)) == rows
    ensures page >= PageCount(|rows|, perPage) ==> PageSlice(rows, page, perPage) == []
  {
    var k := PageCount(|rows|, perPage);
    PagesPrefix(rows, perPage, k);
    assert Min(k * perPage, |rows|) == |rows|;
    assert rows[..|rows|] == rows;
    if page >= k {
      MulMonotone(k, page, perPage);
    }
  }

  lemma {:induction false} MulMonotone(a: nat, b: nat, c: nat)
    requires a <= b
    ensures a * c <= b * c
  {
    assert b * c == a * c + (b - a) * c;
  }

  /** `goToPreviousPage`: back one page unless already on page 0. */
  function Previous(page: nat): (r: nat)
    ensures r <= page
  {
    if page > 0 then page - 1 else page
  }

  /** `goToNextPage`: forward one page while not yet on
      `Math.ceil(n / perPage) - 1`. */
  function Next(page: nat, n: nat, perPage: nat): (r: nat)
    requires perPage > 0
    ensures r >= page
  {
    if page < PageCount(n, perPage) - 1 then page + 1 else page
  }

  /** Both handlers keep the page in `[0, LastPage]`, `goToNextPage`
      always moves to a page that holds rows, and neither moves past the
      last page, however far it already is. */
  lemma {:induction false} StepsInRange(page: nat, n: nat, perPage: nat)
    requires perPage > 0
    ensures page <= LastPage(n, perPage) ==> Previous(page) <= LastPage(n, perPage)
    ensures page <= LastPage(n, perPage) ==> Next(page, n, perPage) <= LastPage(n, perPage)
    ensures Next(page, n, perPage) > page ==> Next(page, n, perPage) * perPage < n
    ensures page >= LastPage(n, perPage) ==> Next(page, n, perPage) == page
  {
    var k := PageCount(n, perPage);
    if Next(page, n, perPage) > page {
      assert page + 1 <= k - 1;
      assert (page + 1) * perPage <= (k - 1) * perPage;
    }
  }

  /** The handlers undo each other inside the range. */
  lemma {:induction false} StepsUndo(page: nat, n: nat, perPage: nat)
    requires perPage > 0
    ensures 0 < page <= LastPage(n, perPage) ==> Next(Previous(page), n, perPage) == page
    ensures page < LastPage(n, perPage) ==> Previous(Next(page, n, perPage)) == page
  {
  }

  /** A list's `currentPage` state. */
  class Pager {
    var currentPage: nat
    const perPage: nat

    /** `useState(0)` beside `useState(perPage)`. */
    constructor (perPage: nat)
      requires perPage > 0
      ensures this.perPage == perPage && currentPage == 0
    {
      this.perPage := perPage;
      currentPage := 0;
    }

    /** The page is one a user can step to for a list of `n` rows. */
    predicate InRange(n: nat)
      reads this
      requires perPage > 0
    {
      currentPage <= LastPage(n, perPage)
    }

    /** `currentPageData`: at most `perPage` rows, and the row shown with
        number `m` is row `m` of the whole list. */
    function CurrentPageData<T>(rows: seq<T>): (r: seq<T>)
      reads this
      ensures |r| <= perPage
      ensures forall i :: 0 <= i < |r| ==>
        RowNumber(currentPage, perPage, i) <= |rows| && r[i] == rows[RowNumber(currentPage, perPage, i) - 1]
    {
      PageSlice(rows, currentPage, perPage)
    }

    method GoToPreviousPage(ghost n: nat)
      requires perPage > 0
      modifies this
      ensures currentPage == Previous(old(currentPage))
      ensures old(InRange(n)) ==> InRange(n)
    {
      StepsInRange(currentPage, n, perPage);
      if currentPage > 0 {
        currentPage := currentPage - 1;
      }
    }

    /** `n` is the length of the list the page shows. */
    method GoToNextPage(n: nat)
      requires perPage > 0
      modifies this
      ensures currentPage == Next(old(currentPage), n, perPage)
      ensures old(InRange(n)) ==> InRange(n)
    {
      StepsInRange(currentPage, n, perPage);
      if currentPage < PageCount(n, perPage) - 1 {
        currentPage := currentPage + 1;
      }
    }
  }
}
