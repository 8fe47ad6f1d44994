/**
 * Fixed-size pagination shared by the runs and scenarios lists: ten items per page, page p
 * being `list.slice((p - 1) * 10, p * 10)`, and the page-number bar whose entries are page
 * numbers and ellipses.
 */
module Pagination {
  const ItemsPerPage: nat := 10

  /** `Math.ceil(n / 10)`. */
  function TotalPages(n: nat): (tp: nat)
    ensures tp * ItemsPerPage >= n
    ensures tp > 0 ==> (tp - 1) * ItemsPerPage < n
    ensures tp == 0 <==> n == 0
  {
    (n + ItemsPerPage - 1) / ItemsPerPage
  }

  /** A `slice` bound resolved against a length: negative bounds count from the end. */
  function SliceBound(i: int, len: nat): (r: nat)
    ensures r <= len
  {
    if i < 0 then (if len + i > 0 then len + i else 0) else if i < len then i else len
  }

  /** `s.slice(start, end)`. */
  function JsSlice<T>(s: seq<T>, start: int, end: int): (r: seq<T>)
  {
    var lo := SliceBound(start, |s|);
    var hi := SliceBound(end, |s|);
    if lo < hi then s[lo..hi] else []
  }

  /** The items on page `page` (counting from 1). */
  function Page<T>(s: seq<T>, page: int): (r: seq<T>)
    ensures |r| <= ItemsPerPage
  {
    JsSlice(s, (page - 1) * ItemsPerPage, page * ItemsPerPage)
  }

  /**
   * A page of a valid number is the contiguous run of items starting at (page - 1) * 10; it is
   * full except possibly the last, and it is empty past the last page.
   */
  lemma PageIsSlice<T>(s: seq<T>, page: int)
    requires page >= 1
    ensures var lo := (page - 1) * ItemsPerPage;
      var hi := if page * ItemsPerPage < |s| then page * ItemsPerPage else |s|;
      Page(s, page) == (if lo < |s| then s[lo..hi] else [])
    ensures page <= TotalPages(|s|) ==> |Page(s, page)| >= 1
    ensures page < TotalPages(|s|) ==> |Page(s, page)| == ItemsPerPage
    ensures page > TotalPages(|s|) ==> Page(s, page) == []
  {
  }

  /** The first `n` pages laid end to end. */
  function Pages<T>(s: seq<T>, n: nat): seq<T> {
    if n == 0 then [] else Pages(s, n - 1) + Page(s, n)
  }

  /** Reading pages 1 to k in order yields the first min(10k, |s|) items. */
  lemma {:induction false} PagesArePrefix<T>(s: seq<T>, n: nat)
    ensures Pages(s, n) == s[..if n * ItemsPerPage < |s| then n * ItemsPerPage else |s|]
  {
    if n > 0 {
      PagesArePrefix(s, n - 1);
      PageIsSlice(s, n);
      var a := if (n - 1) * ItemsPerPage < |s| then (n - 1) * ItemsPerPage else |s|;
      var b := if n * ItemsPerPage < |s| then n * ItemsPerPage else |s|;
      assert s[..a] + s[a..b] == s[..b];
    }
  }

  /** The pages partition the list: pages 1 to totalPages together are the whole list, in order. */
  lemma PagesCoverList<T>(s: seq<T>)
    ensures Pages(s, TotalPages(|s|)) == s
  {
    PagesArePrefix(s, TotalPages(|s|));
  }

  // ---------------------------------------------------------------- page-number bars

  datatype PageItem = Number(n: int) | Ellipsis

  /** The page numbers lo, lo + 1, ..., hi (none when lo > hi). */
  function Range(lo: int, hi: int): (r: seq<PageItem>)
    ensures |r| == if lo <= hi then hi - lo + 1 else 0
    ensures forall k | 0 <= k < |r| :: r[k] == Number(lo + k)
    decreases hi - lo
  {
    if lo > hi then [] else [Number(lo)] + Range(lo + 1, hi)
  }

  lemma RangeContains(lo: int, hi: int, n: int)
    ensures Number(n) in Range(lo, hi) <==> lo <= n <= hi
    ensures Ellipsis !in Range(lo, hi)
  {
    var r := Range(lo, hi);
    if lo <= n <= hi {
      assert r[n - lo] == Number(n);
    }
  }

  /** A range grows by one page at its top. */
  lemma RangeSnoc(lo: int, hi: int)
    requires lo <= hi + 1
    ensures Range(lo, hi) + [Number(hi + 1)] == Range(lo, hi + 1)
  {
    var a := Range(lo, hi) + [Number(hi + 1)];
    var b := Range(lo, hi + 1);
    assert |a| == |b|;
    forall k | 0 <= k < |a| ensures a[k] == b[k] {
      if k < |a| - 1 {
        assert a[k] == Range(lo, hi)[k];
      }
    }
  }

  /** The loop `for (let i = lo; i <= hi; i++) pages.push(i)`. */
  method AppendRange(pages: seq<PageItem>, lo: int, hi: int) returns (r: seq<PageItem>)
    ensures r == pages + Range(lo, hi)
  {
    r := pages;
    var i := lo;
    while i <= hi
      invariant lo <= i <= (if lo <= hi then hi + 1 else lo)
      invariant r == pages + Range(lo, i - 1)
    {
      RangeSnoc(lo, i - 1);
      r := r + [Number(i)];
      i := i + 1;
    }
  }

  /** Two neighbouring entries: never two ellipses, and two numbers are consecutive. */
  predicate Step(a: PageItem, b: PageItem) {
    !(a.Ellipsis? && b.Ellipsis?) && (a.Number? && b.Number? ==> b.n == a.n + 1)
  }

  /**
   * The shape of a bar of at least two pages: it starts at page 1 and ends at the last page;
   * adjacent numbers are consecutive; an ellipsis stands exactly for a gap, between two
   * numbers that are not consecutive.
   */
  predicate WindowShape(items: seq<PageItem>, totalPages: int) {
    |items| >= 2 && items[0] == Number(1) && items[|items| - 1] == Number(totalPages)
    && (forall i | 0 < i < |items| :: Step(items[i - 1], items[i]))
    && (forall i | 0 < i < |items| - 1 :: items[i].Ellipsis? ==> items[i + 1].n > items[i - 1].n + 1)
  }

  /** In a well-shaped bar the page numbers strictly increase from left to right. */
  lemma {:induction false} WindowIncreasing(items: seq<PageItem>, totalPages: int, i: nat, j: nat)
    requires WindowShape(items, totalPages)
    requires i < j < |items| && items[i].Number? && items[j].Number?
    ensures items[i].n < items[j].n
    decreases j - i
  {
    assert Step(items[i], items[i + 1]);
    if items[i + 1].Number? {
      if i + 1 < j {
        WindowIncreasing(items, totalPages, i + 1, j);
      }
    } else {
      assert i + 2 < |items| && items[i + 2].Number?;
      assert Step(items[i + 1], items[i + 2]);
      if i + 2 < j {
        WindowIncreasing(items, totalPages, i + 2, j);
      }
    }
  }

  /** Every number in a well-shaped bar is a page: between 1 and the last page. */
  lemma WindowWithinPages(items: seq<PageItem>, totalPages: int, i: nat)
    requires WindowShape(items, totalPages)
    requires i < |items| && items[i].Number?
    ensures 1 <= items[i].n <= totalPages
  {
    if 0 < i { WindowIncreasing(items, totalPages, 0, i); }
    if i < |items| - 1 { WindowIncreasing(items, totalPages, i, |items| - 1); }
  }
}
