/**
 * The page arithmetic shared by the paginated listings
 * (services/stackoverflow_connector.py, services/collection_manager.py,
 * services/comparison_service.py): Python's floor division, the page count
 * `ceil(total / page_size)` and the offset of a page.
 */
module Pagination {
  /** Python's `a // b`, which rounds toward negative infinity. */
  function FloorDiv(a: int, b: int): (q: int)
    requires b != 0
    ensures b > 0 ==> q * b <= a < q * b + b
    ensures b < 0 ==> q * b >= a > q * b + b
  {
    if b > 0 then a / b else (-a) / (-b)
  }

  /** `(total + size - 1) // size`: the fewest pages of `size` items that hold `total` items. */
  function Pages(total: nat, size: int): (n: nat)
    requires size > 0
    ensures total == 0 <==> n == 0
    ensures total <= n * size
    ensures n > 0 ==> (n - 1) * size < total
  {
    var q := FloorDiv(total + size - 1, size);
    assert q * size <= total + size - 1 < q * size + size;
    assert (q - 1) * size == q * size - size;
    q
  }

  /** The offset of the first item of a page: `(page - 1) * page_size`. */
  function Offset(page: int, size: int): int
  {
    (page - 1) * size
  }

  /** The items of page `page` (counted from 1) are those at `Offset` up to the next page's offset. */
  lemma OffsetsTile(page: int, size: int)
    requires size > 0
    ensures Offset(page + 1, size) == Offset(page, size) + size
    ensures Offset(1, size) == 0
  {
  }

  /** With `size` items per page, page `page` (1 ≤ page ≤ Pages) starts inside the items. */
  lemma PageStartsInside(total: nat, size: int, page: int)
    requires size > 0 && 1 <= page <= Pages(total, size)
    ensures 0 <= Offset(page, size) < total
  {
    var n := Pages(total, size);
    assert (page - 1) * size <= (n - 1) * size;
  }

  lemma MulMonotone(a: int, b: int, c: int)
    requires a <= b && 0 <= c
    ensures a * c <= b * c
  {
  }

  /** There is a page after page `page` exactly when some item lies beyond its last slot. */
  lemma MorePagesIffMoreItems(total: nat, size: int, page: int)
    requires size > 0
    ensures page < Pages(total, size) <==> page * size < total
  {
    var n: int := Pages(total, size);
    if page < n {
      MulMonotone(page, n - 1, size);
    } else {
      MulMonotone(n, page, size);
    }
  }
}
