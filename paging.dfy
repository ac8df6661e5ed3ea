/**
 * The pagination shared by the order and review listings: a page of `limit`
 * hits starting at `(page - 1) * limit` (the search's from/size), and the
 * page count `Math.ceil(total / limit)`.
 */
module Paging {
  import opened Wrappers
  import opened JsMath

  /** The `from` of the search: hits skipped before the page. */
  function PageOffset(page: int, limit: int): (r: int)
    ensures page >= 1 && limit >= 0 ==> r >= 0
    ensures r + limit == page * limit
  {
    (page - 1) * limit
  }

  /** `Math.ceil(total / limit)`; None where JavaScript yields Infinity or NaN (limit 0). */
  function TotalPages(total: int, limit: int): (r: Option<int>)
    ensures r.None? <==> limit == 0
  {
    if limit == 0 then None else Some(Ceil(total as real / limit as real))
  }

  /**
   * With a positive limit, the page count is the least number of pages that
   * holds every hit: the last page starts before the end and the next would
   * start past it.
   */
  lemma TotalPagesIsLeast(total: nat, limit: int)
    requires limit >= 1
    ensures TotalPages(total, limit).Some?
    ensures var n := TotalPages(total, limit).value;
      n >= 0 && n * limit >= total && (n >= 1 ==> PageOffset(n, limit) < total)
  {
    var n := TotalPages(total, limit).value;
    var q := total as real / limit as real;
    assert q * limit as real == total as real;
    assert n as real >= q;
    assert n as real < q + 1.0;
    assert n as real * limit as real >= q * limit as real;
    assert (n - 1) as real * limit as real < q * limit as real;
    assert n >= 0;
  }

  /** The hits of one page, as a from/size search over the ordered hits returns them. */
  function Window<T>(hits: seq<T>, from: nat, size: nat): (r: seq<T>)
    ensures |r| <= size
    ensures from + size <= |hits| ==> r == hits[from..from + size]
  {
    if from >= |hits| then []
    else if from + size >= |hits| then hits[from..]
    else hits[from..from + size]
  }

  /** Pages 1 to n, one after the other. */
  function Pages<T>(hits: seq<T>, limit: nat, n: nat): seq<T> {
    if n == 0 then [] else Pages(hits, limit, n - 1) + Window(hits, (n - 1) * limit, limit)
  }

  lemma {:induction false} PagesArePrefix<T>(hits: seq<T>, limit: nat, n: nat)
    ensures Pages(hits, limit, n) == hits[..Min(n * limit, |hits|)]
  {
    if n > 0 {
      PagesArePrefix(hits, limit, n - 1);
      var a := Min((n - 1) * limit, |hits|);
      var b := Min(n * limit, |hits|);
      assert n * limit == (n - 1) * limit + limit;
      assert hits[..b] == hits[..a] + hits[a..b];
    }
  }

  /** Reading pages 1 to TotalPages in turn yields every hit exactly once, in order. */
  lemma PagesCoverAllHits<T>(hits: seq<T>, limit: nat)
    requires limit >= 1
    ensures TotalPages(|hits|, limit).Some?
    ensures Pages(hits, limit, TotalPages(|hits|, limit).value) == hits
  {
    TotalPagesIsLeast(|hits|, limit);
    var n := TotalPages(|hits|, limit).value;
    PagesArePrefix(hits, limit, n);
    assert hits[..|hits|] == hits;
  }
}
