/**
 * Page arithmetic for listings: a page size of 0 means 50 and a page of 0
 * means 1 (other values, negative ones included, are used as given), the
 * skip is `(page - 1) * pageSize`, and the page count is the ceiling of
 * `total / pageSize`.
 */
module Pagination {
  import opened Wrappers
  import opened Options

  const DefaultPageSize: int := 50

  function NormalizedPageSize(pageSize: int): (n: int)
    ensures pageSize == 0 ==> n == DefaultPageSize
    ensures pageSize != 0 ==> n == pageSize
    ensures n != 0
  {
    if pageSize == 0 then DefaultPageSize else pageSize
  }

  function NormalizedPage(page: int): (n: int)
    ensures page == 0 ==> n == 1
    ensures page != 0 ==> n == page
    ensures n != 0
  {
    if page == 0 then 1 else page
  }

  /** The ceiling of the quotient `a / b`, for a divisor of either sign. */
  function CeilDiv(a: int, b: int): int
    requires b != 0
  {
    if b > 0 then -((-a) / b) else -(a / (-b))
  }

  /** `CeilDiv(a, b)` is the least integer `r` with `a <= r * b` for a positive divisor, and the greatest with `r * b <= a` for a negative one: the ceiling of `a / b`. */
  lemma CeilDivIsCeiling(a: int, b: int)
    requires b != 0
    ensures b > 0 ==> (CeilDiv(a, b) - 1) * b < a <= CeilDiv(a, b) * b
    ensures b < 0 ==> CeilDiv(a, b) * b <= a < (CeilDiv(a, b) - 1) * b
  {
    var r := CeilDiv(a, b);
    if b > 0 {
      var q := (-a) / b;
      assert q * b <= -a < q * b + b;
      assert r == -q;
    } else {
      var q := a / (-b);
      assert q * (-b) <= a < q * (-b) + (-b);
      assert r == -q;
    }
  }

  /** `totalPages` pages of `pageSize` items hold `total` items, and one page fewer would not; no items means no pages. */
  predicate PagesCover(total: int, pageSize: int, totalPages: int)
  {
    && totalPages >= 0
    && (totalPages - 1) * pageSize < total <= totalPages * pageSize
    && (total == 0 <==> totalPages == 0)
  }

  /** For a positive page size, every item falls on one of the pages, and the last page is not empty. */
  lemma PagesCoverTotal(total: nat, pageSize: int)
    requires pageSize > 0
    ensures PagesCover(total, pageSize, CeilDiv(total, pageSize))
  {
    CeilDivIsCeiling(total, pageSize);
    var r := CeilDiv(total, pageSize);
    if total == 0 {
      assert -(0 / pageSize) == 0;
    }
    if r == 0 {
      assert total <= 0;
    }
  }

  datatype PaginationInfo = PaginationInfo(totalCount: int, currentPage: int, pageSize: int, totalPages: int)

  /** `CalculatePaginationInfo`: echo the total and the normalised inputs, and count the pages. */
  function CalculatePaginationInfo(totalCount: int, page: int, pageSize: int): (info: PaginationInfo)
    ensures info.totalCount == totalCount
    ensures info.currentPage == NormalizedPage(page) && info.pageSize == NormalizedPageSize(pageSize)
    ensures info.pageSize > 0 ==>
              (info.totalPages - 1) * info.pageSize < totalCount <= info.totalPages * info.pageSize
    ensures info.pageSize < 0 ==>
              info.totalPages * info.pageSize <= totalCount < (info.totalPages - 1) * info.pageSize
  {
    var size := NormalizedPageSize(pageSize);
    CeilDivIsCeiling(totalCount, size);
    PaginationInfo(totalCount, NormalizedPage(page), size, CeilDiv(totalCount, size))
  }

  /** `ApplyPagination`: skip the earlier pages and keep one page. */
  method ApplyPagination(opts: FindOptions, page: int, pageSize: int)
    modifies opts
    ensures opts.skip == Some((NormalizedPage(page) - 1) * NormalizedPageSize(pageSize))
    ensures opts.limit == Some(NormalizedPageSize(pageSize))
    ensures opts.sort == old(opts.sort)
  {
    var size := NormalizedPageSize(pageSize);
    var p := NormalizedPage(page);
    opts.SetSkip((p - 1) * size);
    opts.SetLimit(size);
  }

  /** `ApplySorting`: no sort key leaves the options alone; otherwise sort by the key, descending for `desc`. */
  method ApplySorting(opts: FindOptions, sortBy: string, sortType: string)
    modifies opts
    ensures sortBy == "" ==> opts.sort == old(opts.sort)
    ensures sortBy != "" ==> opts.sort == Some(SortSpec(sortBy, SortOrder(sortType)))
    ensures opts.skip == old(opts.skip) && opts.limit == old(opts.limit)
  {
    if sortBy == "" {
      return;
    }
    opts.SetSort(SortSpec(sortBy, SortOrder(sortType)));
  }
}
