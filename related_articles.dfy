/** The related-articles panel of the tag page: the row range requested for a page, the
    page count, the previous/next controls, the total-count update and the short form of
    an article's source. */
module RelatedArticles {
  import opened Optional
  import opened Text

  /** `.range(from, to)`: both ends inclusive. */
  datatype RowRange = RowRange(from: int, to: int)

  /** The rows requested for page `page` of size `pageSize`. */
  function RangeFor(page: int, pageSize: nat): (r: RowRange)
    ensures r.to - r.from + 1 == pageSize
    ensures page >= 1 ==> r.from >= 0
  {
    RowRange((page - 1) * pageSize, page * pageSize - 1)
  }

  /** Consecutive pages ask for adjacent, non-overlapping ranges, so pages 1..n together
      ask for rows 0..n*pageSize-1 with no gap. */
  lemma RangesContiguous(page: int, pageSize: nat)
    ensures RangeFor(page + 1, pageSize).from == RangeFor(page, pageSize).to + 1
  {
  }

  /** The row `row` is requested by page `row / pageSize + 1` and by no other page. */
  lemma RowOnOnePage(row: nat, pageSize: nat, page: int)
    requires pageSize > 0
    ensures RangeFor(page, pageSize).from <= row <= RangeFor(page, pageSize).to <==> page == row / pageSize + 1
  {
    var q := row / pageSize;
    assert q * pageSize <= row < (q + 1) * pageSize;
    var r := RangeFor(page, pageSize);
    if page <= q {
      assert r.to == page * pageSize - 1 <= q * pageSize - 1 by { MulMono(page, q, pageSize); }
    } else if page >= q + 2 {
      assert r.from == (page - 1) * pageSize >= (q + 1) * pageSize by { MulMono(q + 1, page - 1, pageSize); }
    }
  }

  /** Arithmetic helper: multiplying by a natural number keeps the order. */
  lemma MulMono(a: int, b: int, c: nat)
    requires a <= b
    ensures a * c <= b * c
  {
    assert b * c - a * c == (b - a) * c;
  }

  /** `Math.ceil(totalCount / pageSize)` for a positive page size: the least number of
      pages that holds every row. */
  function PageCount(totalCount: nat, pageSize: nat): (n: nat)
    requires pageSize > 0
    ensures n * pageSize >= totalCount
    ensures n > 0 ==> (n - 1) * pageSize < totalCount
  {
    (totalCount + pageSize - 1) / pageSize
  }

  /** Pagination controls render only when the total exceeds one page. */
  predicate ShowPagination(totalCount: nat, pageSize: nat) {
    totalCount > pageSize
  }

  /** Whenever the controls render there are at least two pages. */
  lemma PaginationMeansTwoPages(totalCount: nat, pageSize: nat)
    requires pageSize > 0 && ShowPagination(totalCount, pageSize)
    ensures PageCount(totalCount, pageSize) >= 2
  {
    var n := PageCount(totalCount, pageSize);
    if n <= 1 {
      MulMono(n, 1, pageSize);
    }
  }

  /** The "previous" step `Math.max(1, p - 1)`. */
  function PrevPage(p: int): (r: int)
    ensures r >= 1
    ensures p > 1 ==> r == p - 1
    ensures p <= 1 ==> r == 1
  {
    if p - 1 > 1 then p - 1 else 1
  }

  /** `disabled={page === 1}` on the "previous" button. */
  predicate PrevDisabled(page: int) {
    page == 1
  }

  /** On any page from 1 on, "previous" is disabled exactly when pressing it would leave the
      page where it is; otherwise it goes back one page. */
  lemma PrevDisabledIff(page: int)
    requires page >= 1
    ensures PrevDisabled(page) <==> PrevPage(page) == page
    ensures !PrevDisabled(page) ==> PrevPage(page) == page - 1
  {
  }

  /** `page >= Math.ceil(totalCount / pageSize)`. With a zero page size the quotient is
      `NaN` or `Infinity`, against which the comparison is false. */
  predicate NextDisabled(page: int, totalCount: nat, pageSize: nat) {
    pageSize > 0 && page >= PageCount(totalCount, pageSize)
  }

  /** "Next" is disabled exactly when the current page already reaches the last row. */
  lemma NextDisabledIff(page: int, totalCount: nat, pageSize: nat)
    requires pageSize > 0
    ensures NextDisabled(page, totalCount, pageSize) <==> page * pageSize >= totalCount
  {
    var n := PageCount(totalCount, pageSize);
    if page >= n {
      MulMono(n, page, pageSize);
    } else {
      MulMono(page, n as int - 1, pageSize);
    }
  }

  /** `count || 0`, applied only when the count query reported no error. */
  function NewTotal(current: nat, count: Option<nat>, countError: bool): (r: nat)
    ensures countError ==> r == current
    ensures !countError && count.Some? ==> r == count.value
    ensures !countError && count.None? ==> r == 0
  {
    if countError then current else count.GetOr(0)
  }

  /** `simplifySource(source)`. `hostname` is what the URL constructor yields for `source`,
      `None` when it throws. */
  function SimplifySource(source: string, hostname: Option<string>): (r: string)
    ensures !StartsWith(source, "http") ==> r == source
    ensures StartsWith(source, "http") && hostname.None? ==> r == source
    ensures StartsWith(source, "http") && hostname.Some? ==> r == ReplaceFirst(hostname.value, "www.", "")
  {
    if StartsWith(source, "http") then
      match hostname
      case None => source
      case Some(h) => ReplaceFirst(h, "www.", "")
    else source
  }

  /** A host starting with `www.` loses exactly that prefix; a host without `www.` is kept. */
  lemma SimplifyHost(source: string, host: string)
    requires StartsWith(source, "http")
    ensures StartsWith(host, "www.") ==> SimplifySource(source, Some(host)) == host[4..]
    ensures !Contains(host, "www.") ==> SimplifySource(source, Some(host)) == host
  {
    if StartsWith(host, "www.") {
      assert OccursAt(host, "www.", 0);
      assert IndexOf(host, "www.") == Some(0);
    }
  }

  /** An article row as listed in the panel. */
  datatype Article = Article(id: string, title: string, source: string, url: string, publishedAt: string)

  class RelatedArticlesPanel {
    const pageSize: nat
    var page: int
    var totalCount: nat
    var articles: seq<Article>

    ghost predicate Valid()
      reads this
    {
      page >= 1
    }

    /** `limit` defaults to 5. */
    constructor (limit: Option<nat>)
      ensures Valid()
      ensures pageSize == limit.GetOr(5) && page == 1 && totalCount == 0 && articles == []
    {
      pageSize := limit.GetOr(5);
      page, totalCount, articles := 1, 0, [];
    }

    /** `fetchArticles(page)` with the two query results as inputs. The returned range is the
        one asked of the store; `None` when the tag name is empty and nothing is fetched. */
    method Fetch(tagName: string, count: Option<nat>, countError: bool, rows: Option<seq<Article>>)
      returns (requested: Option<RowRange>)
      modifies this`totalCount, this`articles
      ensures tagName == "" ==> requested == None && totalCount == old(totalCount) && articles == old(articles)
      ensures tagName != "" ==> requested == Some(RangeFor(page, pageSize))
      ensures tagName != "" ==> totalCount == NewTotal(old(totalCount), count, countError)
      ensures tagName != "" ==> articles == (if rows.Some? then rows.value else old(articles))
    {
      if tagName == "" {
        return None;
      }
      if !countError {
        totalCount := count.GetOr(0);
      }
      requested := Some(RangeFor(page, pageSize));
      if rows.Some? {
        articles := rows.value;
      }
    }

    /** The "previous" button. */
    method Prev()
      requires Valid()
      modifies this`page
      ensures Valid() && page == PrevPage(old(page))
      ensures PrevDisabled(old(page)) ==> page == old(page)
    {
      page := if page - 1 > 1 then page - 1 else 1;
    }

    /** The "next" button; a disabled button does not fire. */
    method Next()
      requires Valid()
      modifies this`page
      ensures Valid()
      ensures NextDisabled(old(page), totalCount, pageSize) ==> page == old(page)
      ensures !NextDisabled(old(page), totalCount, pageSize) ==> page == old(page) + 1
    {
      if !(pageSize > 0 && page >= (totalCount + pageSize - 1) / pageSize) {
        page := page + 1;
      }
    }
  }

  /** Pressing "next" from a page within the page count never leaves the page count. */
  lemma NextStaysInRange(page: int, totalCount: nat, pageSize: nat)
    requires pageSize > 0 && 1 <= page <= PageCount(totalCount, pageSize)
    requires !NextDisabled(page, totalCount, pageSize)
    ensures page + 1 <= PageCount(totalCount, pageSize)
  {
  }
}
