/**
 * What the two list-state stores share: the sort descriptor they keep, the
 * outcome of their one request, their initial page window, and the
 * `Math.ceil(totalItems / pageSize)` page count behind both `totalPages`
 * getters.
 */
module ListState {

  /** One entry `{ id, desc }` of a store's `sorting` list. */
  datatype SortKey = SortKey(id: string, desc: bool)

  /** What the awaited request produced: a response body, or a rejection
      (network failure, error status, timeout). */
  datatype FetchOutcome<T> = Responded(body: T) | Rejected

  /** The page window a fresh store starts with. */
  const InitialPage: int := 1
  const InitialPageSize: int := 10

  /** `Math.ceil(totalItems / pageSize)` for a positive page size: the page
      count k brackets the item count between (k - 1) and k full pages. */
  function PageCount(totalItems: int, pageSize: int): (k: int)
    requires pageSize > 0
    ensures (k - 1) * pageSize < totalItems <= k * pageSize
  {
    var q, m := totalItems / pageSize, totalItems % pageSize;
    assert totalItems == q * pageSize + m && 0 <= m < pageSize;
    if m == 0 then q else q + 1
  }

  lemma MulMonotone(a: int, b: int, c: int)
    requires a <= b && c > 0
    ensures a * c <= b * c
  {
    assert b * c - a * c == (b - a) * c;
  }

  /** The page count is the LEAST number of pages that holds every item. */
  lemma PageCountIsLeast(totalItems: int, pageSize: int, k: int)
    requires pageSize > 0
    requires k * pageSize >= totalItems
    ensures PageCount(totalItems, pageSize) <= k
  {
    var p := PageCount(totalItems, pageSize);
    if k < p {
      MulMonotone(k, p - 1, pageSize);
      assert false;
    }
  }

  /** No items means no pages, and any item at all means at least one page. */
  lemma PageCountZeroIff(totalItems: int, pageSize: int)
    requires pageSize > 0 && totalItems >= 0
    ensures PageCount(totalItems, pageSize) >= 0
    ensures PageCount(totalItems, pageSize) == 0 <==> totalItems == 0
  {
    var p := PageCount(totalItems, pageSize);
    if p < 0 {
      MulMonotone(p, -1, pageSize);
      assert false;
    }
    if p > 0 {
      MulMonotone(1, p, pageSize);
    }
    if totalItems == 0 {
      PageCountIsLeast(0, pageSize, 0);
    }
  }

  /** The page count is the only k that brackets the items this way. */
  lemma PageCountUnique(totalItems: int, pageSize: int, k: int)
    requires pageSize > 0
    requires (k - 1) * pageSize < totalItems <= k * pageSize
    ensures PageCount(totalItems, pageSize) == k
  {
    var p := PageCount(totalItems, pageSize);
    if p < k {
      MulMonotone(p, k - 1, pageSize);
      assert false;
    } else if p > k {
      MulMonotone(k, p - 1, pageSize);
      assert false;
    }
  }

  /** A larger page size never needs more pages for the same items. */
  lemma PageCountShrinksWithPageSize(totalItems: int, pageSize: int, largerSize: int)
    requires 0 < pageSize <= largerSize && totalItems >= 0
    ensures PageCount(totalItems, largerSize) <= PageCount(totalItems, pageSize)
  {
    var k := PageCount(totalItems, pageSize);
    PageCountZeroIff(totalItems, pageSize);
    if k > 0 {
      MulMonotone(pageSize, largerSize, k);
      assert pageSize * k <= largerSize * k;
      PageCountIsLeast(totalItems, largerSize, k);
    } else {
      PageCountZeroIff(totalItems, largerSize);
    }
  }
}
