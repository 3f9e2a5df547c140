/** src/components/Pagination.tsx: page count, first/last-page status, the
    previous/next targets and the page selector's options. */
module Pagination {

  import opened Wrappers

  const DefaultPageSizeOptions: seq<int> := [8, 16, 32, 64]

  /** `Math.ceil(total / pageSize)` for a positive page size. */
  function CeilDiv(total: int, pageSize: int): (r: int)
    requires pageSize > 0
    ensures (r - 1) * pageSize < total <= r * pageSize
  {
    -((-total) / pageSize)
  }

  /** `totalPages`: undefined when `total` is missing or 0 (both falsy). */
  function TotalPages(total: Option<int>, pageSize: int): (r: Option<int>)
    requires pageSize > 0
    ensures r.None? <==> total.None? || total.value == 0
    ensures r.Some? ==> r.value >= 1
  {
    if total.None? || total.value == 0 then None
    else
      var pages := CeilDiv(total.value, pageSize);
      Some(if pages > 1 then pages else 1)
  }

  /** With a positive total, the page count is the fewest pages that hold it. */
  lemma TotalPagesHoldTotal(total: int, pageSize: int)
    requires total > 0 && pageSize > 0
    ensures var n := TotalPages(Some(total), pageSize).value;
      n >= 1 && n * pageSize >= total && (n - 1) * pageSize < total
  {
    var c := CeilDiv(total, pageSize);
    assert c >= 1 by {
      if c < 1 {
        assert c * pageSize <= 0 by { MulNonPositive(c, pageSize); }
      }
    }
  }

  lemma MulNonPositive(a: int, b: int)
    requires a <= 0 && b > 0
    ensures a * b <= 0
  {
  }

  predicate IsFirstPage(page: int) {
    page == 1
  }

  /** `isLastPage`: with a known page count, being on it; otherwise nothing more
      to load, or a load in progress. */
  predicate IsLastPage(page: int, totalPages: Option<int>, canLoadMore: bool, isLoading: bool) {
    if totalPages.Some? && totalPages.value != 0 then page == totalPages.value
    else !canLoadMore || isLoading
  }

  /** The page the previous button asks for, `None` when it does nothing. */
  function PrevTarget(page: int): (r: Option<int>)
    ensures r.None? <==> IsFirstPage(page)
    ensures r.Some? ==> r.value >= 1
    ensures r.Some? && page > 1 ==> r.value == page - 1
  {
    if IsFirstPage(page) then None else Some(if page - 1 > 1 then page - 1 else 1)
  }

  /** The page the next button asks for: `Math.min(totalPages ?? Infinity, page + 1)`. */
  function NextTarget(page: int, totalPages: Option<int>, canLoadMore: bool, isLoading: bool): (r: Option<int>)
    ensures r.None? <==> IsLastPage(page, totalPages, canLoadMore, isLoading)
    ensures r.Some? && totalPages.Some? ==> r.value <= totalPages.value
    ensures r.Some? ==> r.value <= page + 1
  {
    if IsLastPage(page, totalPages, canLoadMore, isLoading) then None
    else if totalPages.Some? && totalPages.value < page + 1 then Some(totalPages.value)
    else Some(page + 1)
  }

  /** Inside a known page count, next is exactly the following page. */
  lemma NextIsFollowingPage(page: int, totalPages: int, canLoadMore: bool, isLoading: bool)
    requires 1 <= page < totalPages
    ensures NextTarget(page, Some(totalPages), canLoadMore, isLoading) == Some(page + 1)
  {
  }

  /** Without a known page count, next is the following page unless loading is
      over or in progress. */
  lemma NextWithoutTotal(page: int, canLoadMore: bool, isLoading: bool)
    ensures NextTarget(page, None, canLoadMore, isLoading) ==
      if !canLoadMore || isLoading then None else Some(page + 1)
  {
  }

  /** The page selector's items, `Array.from({ length: totalPages }, (_, i) => i + 1)`. */
  function PageOptions(totalPages: nat): (r: seq<int>)
    ensures |r| == totalPages
    ensures forall i :: 0 <= i < |r| ==> r[i] == i + 1
  {
    seq(totalPages, i requires 0 <= i < totalPages => i + 1)
  }

  /** The options are 1..totalPages, ascending, each page once. */
  lemma PageOptionsAreThePages(totalPages: nat)
    ensures forall p :: p in PageOptions(totalPages) <==> 1 <= p <= totalPages
    ensures forall i, j :: 0 <= i < j < totalPages ==> PageOptions(totalPages)[i] < PageOptions(totalPages)[j]
  {
    var r := PageOptions(totalPages);
    forall p | 1 <= p <= totalPages ensures p in r {
      assert r[p - 1] == p;
    }
  }

  predicate PageSelectorDisabled(totalPages: int) {
    totalPages == 1
  }

  /** A single page of results disables the selector and both buttons. */
  lemma SinglePageIsFrozen(total: int, pageSize: int, canLoadMore: bool, isLoading: bool)
    requires 0 < total <= pageSize
    ensures TotalPages(Some(total), pageSize) == Some(1)
    ensures PageSelectorDisabled(1)
    ensures PrevTarget(1).None? && NextTarget(1, Some(1), canLoadMore, isLoading).None?
  {
    TotalPagesHoldTotal(total, pageSize);
    var n := TotalPages(Some(total), pageSize).value;
    if n > 1 {
      assert (n - 1) * pageSize >= pageSize by { MulAtLeast(n - 1, pageSize); }
    }
  }

  lemma MulAtLeast(a: int, b: int)
    requires a >= 1 && b > 0
    ensures a * b >= b
  {
  }
}
