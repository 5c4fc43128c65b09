/** The pager under the admin problem list: which page links to show, how many pages there
    are, and when the previous and next arrows navigate. */
module Pagination {
  import opened Common
  import SearchParams
  import Judge

  datatype PageItem = Page(n: int) | Ellipsis

  /** The numbered links lie in [1, total] and increase strictly from left to right;
      neighbouring links are neighbouring pages; an ellipsis sits between two links and
      stands for at least one page that is not shown. */
  ghost predicate Ordered(r: seq<PageItem>, total: int) {
    && (forall i :: 0 <= i < |r| && r[i].Page? ==> 1 <= r[i].n <= total)
    && (forall i, j :: 0 <= i < j < |r| && r[i].Page? && r[j].Page? ==> r[i].n < r[j].n)
    && (forall i :: 0 <= i < |r| - 1 && r[i].Page? && r[i + 1].Page? ==> r[i + 1].n == r[i].n + 1)
    && (forall i :: 0 <= i < |r| && r[i].Ellipsis? ==>
          0 < i < |r| - 1 && r[i - 1].Page? && r[i + 1].Page? && r[i + 1].n >= r[i - 1].n + 2)
  }

  /** `getPageRange(current, total)`: every page when there are at most seven, otherwise the
      first and last page around a window at the start, at the end, or around `current`. */
  function PageRange(current: int, total: int): (r: seq<PageItem>)
    ensures |r| <= 7
    ensures total <= 0 ==> r == []
    ensures total >= 1 ==> |r| >= 1 && r[0] == Page(1) && r[|r| - 1] == Page(total)
    ensures Ordered(r, total)
    // the current page, when it exists, always has a link
    ensures 1 <= current <= total ==> Page(current) in r
    // which of the four lists is shown
    ensures total <= 7 ==> r == AllPages(total)
    ensures total > 7 && current <= 3 ==> r == StartWindow(total)
    ensures total > 7 && 3 < current && current >= total - 2 ==> r == EndWindow(total)
    ensures total > 7 && 3 < current < total - 2 ==> r == MiddleWindow(current, total)
  {
    if total <= 7 then
      var r := AllPages(total);
      assert 1 <= current <= total ==> r[current - 1] == Page(current);
      r
    else if current <= 3 then
      var r := StartWindow(total);
      assert 1 <= current ==> r[current - 1] == Page(current);
      r
    else if current >= total - 2 then
      var r := EndWindow(total);
      assert current <= total ==> r[current - total + 5] == Page(current);
      r
    else
      MiddleWindow(current, total)
  }

  /** The links when the current page is among the first three of more than seven. */
  function StartWindow(total: int): (r: seq<PageItem>)
    requires total > 7
    ensures |r| == 6 && r[4].Ellipsis? && r[5] == Page(total)
    ensures forall p :: 1 <= p <= 4 ==> r[p - 1] == Page(p)
    ensures Ordered(r, total)
  {
    var r := [Page(1), Page(2), Page(3), Page(4), Ellipsis, Page(total)];
    LiteralOrdered(r, total);
    r
  }

  /** The links when the current page is among the last three of more than seven. */
  function EndWindow(total: int): (r: seq<PageItem>)
    requires total > 7
    ensures |r| == 6 && r[0] == Page(1) && r[1].Ellipsis?
    ensures forall p :: total - 3 <= p <= total ==> r[p - total + 5] == Page(p)
    ensures Ordered(r, total)
  {
    var r := [Page(1), Ellipsis, Page(total - 3), Page(total - 2), Page(total - 1), Page(total)];
    LiteralOrdered(r, total);
    r
  }

  /** The links around a current page away from both ends. */
  function MiddleWindow(current: int, total: int): (r: seq<PageItem>)
    requires total > 7 && 3 < current < total - 2
    ensures |r| == 7 && r[0] == Page(1) && r[1].Ellipsis? && r[5].Ellipsis? && r[6] == Page(total)
    ensures forall p :: current - 1 <= p <= current + 1 ==> r[p - current + 3] == Page(p)
    ensures Ordered(r, total)
  {
    var r := [Page(1), Ellipsis, Page(current - 1), Page(current), Page(current + 1), Ellipsis, Page(total)];
    LiteralOrdered(r, total);
    r
  }

  /** `Array.from({ length: total }, (_, i) => i + 1)`: a link to every page. */
  function AllPages(total: int): (r: seq<PageItem>)
    ensures |r| == if total < 0 then 0 else total
    ensures forall i :: 0 <= i < |r| ==> r[i] == Page(i + 1)
    ensures Ordered(r, total)
  {
    seq(if total < 0 then 0 else total, i => Page(i + 1))
  }

  /** A short list is ordered when each adjacent pair is, checked position by position. */
  lemma LiteralOrdered(r: seq<PageItem>, total: int)
    requires |r| <= 7 && r != [] && r[0].Page? && r[|r| - 1].Page?
    requires forall i :: 0 <= i < |r| && r[i].Page? ==> 1 <= r[i].n <= total
    requires forall i :: 0 <= i < |r| - 1 ==> r[i].Page? || r[i + 1].Page?
    requires forall i :: 0 <= i < |r| - 1 && r[i].Page? && r[i + 1].Page? ==> r[i + 1].n == r[i].n + 1
    requires forall i :: 0 < i < |r| - 1 && r[i].Ellipsis? ==> r[i + 1].n >= r[i - 1].n + 2
    ensures Ordered(r, total)
  {
    forall i, j | 0 <= i < j < |r| && r[i].Page? && r[j].Page? ensures r[i].n < r[j].n {
      IncreasingFrom(r, i, j);
    }
  }

  lemma {:induction false} IncreasingFrom(r: seq<PageItem>, i: nat, j: nat)
    requires i < j < |r| && r[i].Page? && r[j].Page?
    requires forall k :: 0 <= k < |r| - 1 ==> r[k].Page? || r[k + 1].Page?
    requires forall k :: 0 <= k < |r| - 1 && r[k].Page? && r[k + 1].Page? ==> r[k + 1].n == r[k].n + 1
    requires forall k :: 0 < k < |r| - 1 && r[k].Ellipsis? ==> r[k + 1].n >= r[k - 1].n + 2
    ensures r[i].n < r[j].n
    decreases j - i
  {
    if r[i + 1].Page? {
      if i + 1 < j {
        IncreasingFrom(r, i + 1, j);
      }
    } else if i + 2 < j {
      IncreasingFrom(r, i + 2, j);
    }
  }

  /** Page p has a link in `r`, or lies strictly between the two links around an ellipsis. */
  ghost predicate Covered(r: seq<PageItem>, p: int) {
    Page(p) in r || exists i :: 0 < i < |r| - 1 && r[i].Ellipsis? && r[i - 1].Page? && r[i + 1].Page? && r[i - 1].n < p < r[i + 1].n
  }

  /** Every page from 1 to total is either linked or hidden behind an ellipsis: between two
      consecutive links nothing is skipped unless an ellipsis marks the gap. */
  lemma PageRangeCoversAll(current: int, total: int, p: int)
    requires 1 <= p <= total
    ensures Covered(PageRange(current, total), p)
  {
    var r := PageRange(current, total);
    if total <= 7 {
      assert r[p - 1] == Page(p);
    } else if current <= 3 {
      EdgeCovers(StartWindow(total), total, p);
    } else if current >= total - 2 {
      EdgeCovers(EndWindow(total), total, p);
    } else {
      MiddleCovers(current, total, p);
    }
  }

  /** A window of the first or the last four pages: the other pages fall behind its one
      ellipsis. */
  lemma EdgeCovers(r: seq<PageItem>, total: int, p: int)
    requires total > 7 && 1 <= p <= total
    requires r == StartWindow(total) || r == EndWindow(total)
    ensures Covered(r, p)
  {
    if r == StartWindow(total) {
      if p <= 4 { assert r[p - 1] == Page(p); }
      else if p == total { assert r[5] == Page(p); }
      else { assert r[4].Ellipsis? && r[3].n < p < r[5].n; }
    } else {
      if p == 1 { assert r[0] == Page(p); }
      else if p >= total - 3 { assert r[p - total + 5] == Page(p); }
      else { assert r[1].Ellipsis? && r[0].n < p < r[2].n; }
    }
  }

  /** The middle window: pages outside it fall behind one of its two ellipses. */
  lemma MiddleCovers(current: int, total: int, p: int)
    requires total > 7 && 3 < current < total - 2 && 1 <= p <= total
    ensures Covered(MiddleWindow(current, total), p)
  {
    var r := MiddleWindow(current, total);
    if p == 1 { assert r[0] == Page(p); }
    else if p == total { assert r[6] == Page(p); }
    else if p < current - 1 { assert r[1].Ellipsis? && r[0].n < p < r[2].n; }
    else if p > current + 1 { assert r[5].Ellipsis? && r[4].n < p < r[6].n; }
    else { assert r[p - current + 3] == Page(p); }
  }

  /** `Number(x) || d` for a query parameter read as a number: `parsed` is None when the
      parameter is missing or not a number; a missing value, NaN and 0 give the default. */
  function NumberOr(parsed: Option<int>, default: int): (r: int)
    ensures default != 0 ==> r != 0
    ensures parsed.Some? && parsed.value != 0 ==> r == parsed.value
    ensures (parsed.None? || parsed.value == 0) ==> r == default
  {
    if parsed.None? || parsed.value == 0 then default else parsed.value
  }

  /** `Math.ceil(a / b)`. */
  function CeilDiv(a: int, b: int): (r: int)
    requires b != 0
    ensures (r - 1) as real < a as real / b as real <= r as real
  {
    if b > 0 then
      CeilBounds(a, b);
      -((-a) / b)
    else
      CeilBounds(-a, -b);
      assert (-a) as real / (-b) as real == a as real / b as real;
      -(a / (-b))
  }

  /** With a positive divisor, negating the floor of the negated quotient rounds up. */
  lemma CeilBounds(a: int, d: int)
    requires d > 0
    ensures var q := -((-a) / d);
      (q - 1) as real < a as real / d as real <= q as real
  {
    var f, m := (-a) / d, (-a) % d;
    assert -a == d * f + m && 0 <= m < d;
    var q := -f;
    assert q * d == a + m;
    assert (q - 1) * d < a <= q * d;
    var x := a as real / d as real;
    assert x * d as real == a as real;
    assert ((q - 1) * d) as real == (q - 1) as real * d as real;
    assert (q * d) as real == q as real * d as real;
    RealScale(x, (q - 1) as real, d as real);
    RealScale(q as real, x, d as real);
  }

  /** The number of pages the pager shows, `Math.ceil(totalProblems / perPage)` with the page
      size read from the query (10 by default). A positive page size gives pages that hold
      every problem with a non-empty last page; a negative one gives no page at all, so the
      pager shows no numbered link. */
  function TotalPages(totalProblems: nat, perPageParam: Option<int>): (r: int)
    ensures var perPage := NumberOr(perPageParam, 10);
      && (perPage > 0 ==> r >= 0 && (r - 1) * perPage < totalProblems <= r * perPage)
      && (perPage < 0 ==> r <= 0 && forall current :: PageRange(current, r) == [])
    ensures perPageParam.None? ==> r >= 0 && (r - 1) * 10 < totalProblems <= r * 10
  {
    var perPage := NumberOr(perPageParam, 10);
    var r := CeilDiv(totalProblems, perPage);
    if perPage > 0 then
      TotalPagesFits(totalProblems, perPage);
      r
    else
      var x := totalProblems as real / perPage as real;
      assert x * perPage as real == totalProblems as real;
      assert x <= 0.0;
      r
  }

  /** With a positive page size, the pages hold every problem and the last page is not
      empty: (totalPages - 1) * perPage < totalProblems <= totalPages * perPage. */
  lemma TotalPagesFits(totalProblems: nat, perPage: int)
    requires perPage > 0
    ensures var t := CeilDiv(totalProblems, perPage);
      t >= 0 && (t - 1) * perPage < totalProblems <= t * perPage
  {
    var t := CeilDiv(totalProblems, perPage);
    var x := totalProblems as real / perPage as real;
    assert x * perPage as real == totalProblems as real;
    assert (t * perPage) as real == t as real * perPage as real;
    assert ((t - 1) * perPage) as real == (t - 1) as real * perPage as real;
    RealScale((t - 1) as real, x, perPage as real);
    RealScale(x, t as real, perPage as real);
  }

  /** The previous arrow: navigates to page - 1 only from a page above the first. */
  function PreviousTarget(page: int): (target: Option<int>)
    ensures target.Some? <==> page > 1
    ensures target.Some? ==> target.value == page - 1 && 1 <= target.value
  {
    if page > 1 then Some(page - 1) else None
  }

  /** The next arrow: navigates to page + 1 only from a page below the last. */
  function NextTarget(page: int, totalPages: int): (target: Option<int>)
    ensures target.Some? <==> page < totalPages
    ensures target.Some? ==> target.value == page + 1 && target.value <= totalPages
  {
    if page < totalPages then Some(page + 1) else None
  }

  /** `createPageURL(n)`: the current query with its `page` parameter set to n. */
  function PageUrlParams(ps: SearchParams.Params, n: nat): (r: SearchParams.Params)
    ensures SearchParams.Get(r, "page") == Some(Judge.NatToString(n))
    ensures SearchParams.Count(r, "page") == 1
    ensures forall other :: other != "page" ==> SearchParams.Get(r, other) == SearchParams.Get(ps, other)
  {
    SearchParams.GetSet(ps, "page", Judge.NatToString(n), "page");
    SearchParams.SetKeepsOthers(ps, "page", Judge.NatToString(n));
    SearchParams.Set(ps, "page", Judge.NatToString(n))
  }
}
