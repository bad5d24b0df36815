/**
 The page-count rule shared by the list pages: each one shows
 `Math.ceil((page.total || 1) / (page.pageSize || d))` pages, where the page metadata
 is absent until the server has answered and `||` also replaces a zero.
 */
module Paging {
  import opened Text

  /** JavaScript `v || d` on an optional count: an absent or zero value falls back to `d`. */
  function OrElse(v: Option<nat>, d: nat): (r: nat)
    ensures r == d || (v.Some? && r == v.value && r != 0)
    ensures v.Some? && v.value != 0 ==> r == v.value
  {
    if v.Some? && v.value != 0 then v.value else d
  }

  /** `Math.ceil(a / b)` for a non-negative numerator and a positive denominator. */
  function CeilDiv(a: nat, b: nat): (r: nat)
    requires b > 0
    ensures (r - 1) * b < a <= r * b || (a == 0 && r == 0)
  {
    (a + b - 1) / b
  }

  /**
   The number of pages the pagination control is given: enough pages of the reported
   size to hold the reported total, and never fewer than one.
   */
  function TotalPages(total: Option<nat>, pageSize: Option<nat>, defaultSize: nat): (r: nat)
    requires defaultSize > 0
    ensures r >= 1
    ensures (r - 1) * OrElse(pageSize, defaultSize) < OrElse(total, 1)
    ensures OrElse(total, 1) <= r * OrElse(pageSize, defaultSize)
  {
    CeilDiv(OrElse(total, 1), OrElse(pageSize, defaultSize))
  }

  /** A reported total of zero (or no answer yet) still gives exactly one page. */
  lemma EmptyTotalIsOnePage(total: Option<nat>, pageSize: Option<nat>, defaultSize: nat)
    requires defaultSize > 0
    requires total.None? || total.value == 0
    ensures TotalPages(total, pageSize, defaultSize) == 1
  {
    var size := OrElse(pageSize, defaultSize);
    assert OrElse(total, 1) == 1;
    assert (1 + size - 1) / size == 1;
  }
}
