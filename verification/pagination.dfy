/** Page arithmetic of the users list: page size, offsets, page count,
    the page-number buttons and the Previous/Next clamps. */
module Pagination {

  /** Number of users requested per page. */
  const Limit: int := 10

  /** Offset sent as `$skip` when page `page` is fetched. Pages are
      numbered from 1; any page below 1 yields a negative offset. */
  function Skip(page: int): (skip: int)
    ensures skip % Limit == 0
    ensures skip / Limit + 1 == page
    ensures skip >= 0 <==> page >= 1
  {
    (page - 1) * Limit
  }

  /** `Math.ceil(total / limit)`: the fewest pages of `Limit` users that
      hold `total` users. */
  function TotalPages(total: nat): (pages: nat)
    ensures pages * Limit >= total
    ensures (pages - 1) * Limit < total
    ensures pages == 0 <==> total == 0
  {
    (total + Limit - 1) / Limit
  }

  /** The Previous button is disabled on page 1: exactly the page from
      which Previous would not move. */
  predicate PreviousDisabled(page: int): (r: bool)
    ensures r <==> PreviousPage(page) == page
  {
    page == 1
  }

  /** `Math.max(1, page - 1)`. */
  function PreviousPage(page: int): (r: int)
    ensures r >= 1
    ensures page >= 1 ==> r <= page
    ensures page > 1 ==> r == page - 1
    ensures page <= 1 ==> r == 1
  {
    if page - 1 > 1 then page - 1 else 1
  }

  /** The Next button is disabled on the last page: exactly the page
      from which Next would not move. When enabled past the last page it
      moves backwards. */
  predicate NextDisabled(page: int, totalPages: int): (r: bool)
    ensures r <==> NextPage(page, totalPages) == page
    ensures !r && page > totalPages ==> NextPage(page, totalPages) < page
  {
    page == totalPages
  }

  /** `Math.min(totalPages, page + 1)`, as the Next button computes it.
      It never passes the last page, but it can go below 1. */
  function NextPage(page: int, totalPages: int): (r: int)
    ensures r <= totalPages && r <= page + 1
    ensures page < totalPages ==> r == page + 1
    ensures page >= totalPages ==> r == totalPages
  {
    if totalPages < page + 1 then totalPages else page + 1
  }

  /** With no users there are no pages, yet page 1 is not the last page,
      so Next is enabled; it moves to page 0, whose offset is -10. */
  lemma EmptyListNextGoesToPageZero()
    ensures TotalPages(0) == 0
    ensures !NextDisabled(1, TotalPages(0))
    ensures NextPage(1, TotalPages(0)) == 0
    ensures Skip(NextPage(1, TotalPages(0))) == -10
  {
  }

  /** Next clamped into the pages that exist, page 1 counting as existing
      even when the list is empty. */
  function NextPageInRange(page: int, totalPages: int): (r: int)
    ensures 1 <= r
    ensures r <= totalPages || r == 1
    ensures 1 <= page < totalPages ==> r == page + 1
    ensures page >= totalPages ==> r == (if totalPages >= 1 then totalPages else 1)
  {
    var next := NextPage(page, totalPages);
    if next < 1 then 1 else next
  }

  /** Whatever the page count, the clamped Next never yields a negative
      offset, and it agrees with the as-written Next whenever the list is
      not empty. */
  lemma NextPageInRangeSkip(page: int, total: nat)
    requires page >= 1
    ensures Skip(NextPageInRange(page, TotalPages(total))) >= 0
    ensures total > 0 ==> NextPageInRange(page, TotalPages(total)) == NextPage(page, TotalPages(total))
  {
  }

  /** The buttons 1..totalPages, built by counting up and appending. */
  method PageNumbers(totalPages: int) returns (pages: seq<int>)
    ensures |pages| == if totalPages > 0 then totalPages else 0
    ensures forall k :: 0 <= k < |pages| ==> pages[k] == k + 1
    ensures forall j, k :: 0 <= j < k < |pages| ==> pages[j] < pages[k]
    ensures forall p :: p in pages <==> 1 <= p <= totalPages
  {
    pages := [];
    var i := 1;
    while i <= totalPages
      invariant 1 <= i <= (if totalPages > 0 then totalPages else 0) + 1
      invariant |pages| == i - 1
      invariant forall k :: 0 <= k < |pages| ==> pages[k] == k + 1
    {
      pages := pages + [i];
      i := i + 1;
    }
    forall p | 1 <= p <= totalPages
      ensures p in pages
    {
      assert pages[p - 1] == p;
    }
  }
}
