/**
 * The runs table's pure helpers: the duration label, the page-number bar and the guards of
 * its Previous and Next buttons.
 */
module RunsTable {
  import opened Wrappers
  import opened Text
  import opened Pagination
  import ScenariosPage

  // ---------------------------------------------------------------- duration label

  /** Whole seconds of a duration in milliseconds, rounded down. */
  function Seconds(ms: real): int {
    (ms / 1000.0).Floor
  }

  /**
   * `formatDuration`: "{m}m {r}s" once there is a whole minute, else "{s}s". The remainder is
   * taken only when the seconds are at least 60, where truncating and Euclidean remainders agree.
   */
  function FormatDuration(ms: real): string {
    Label(Seconds(ms))
  }

  function Label(seconds: int): string {
    var minutes := seconds / 60;
    var remaining := seconds % 60;
    if minutes > 0 then MinutesLabel(minutes, remaining)
    else IntToString(seconds) + "s"
  }

  /** "{m}m {r}s". */
  function MinutesLabel(minutes: nat, remaining: nat): string {
    ToDecimal(minutes) + "m " + ToDecimal(remaining) + "s"
  }

  /** The minutes and the leftover seconds make up the whole seconds exactly. */
  lemma DurationParts(ms: real)
    ensures var s := Seconds(ms); (s / 60) * 60 + s % 60 == s && 0 <= s % 60 < 60
    ensures Seconds(ms) >= 60 <==> Seconds(ms) / 60 > 0
    ensures ms >= 0.0 ==> Seconds(ms) >= 0
  {
  }

  /** Reads a label back: "{m}m {r}s" as m·60 + r seconds, "{s}s" as s seconds. */
  function ParseDuration(t: string): Option<int> {
    match ParseInt(t)
    case None => None
    case Some(first) =>
      match AfterFirst(t, ' ')
      case None => Some(first)
      case Some(rest) =>
        match ParseInt(rest)
        case None => None
        case Some(sec) => Some(first * 60 + sec)
  }

  /** A label "{s}s" reads back as s seconds. */
  lemma SecondsLabelParse(n: nat)
    ensures ParseDuration(ToDecimal(n) + "s") == Some(n)
  {
    ParseIntOfDecimal(n, "s");
    NoSpaceAfterDigits(ToDecimal(n), 's');
  }

  /** A string of digits holds no space. */
  lemma NoSpaceAfterDigits(d: string, c: char)
    requires AllDigits(d) && c != ' '
    ensures ' ' !in d + [c]
  {
    forall k | 0 <= k < |d + [c]| ensures (d + [c])[k] != ' ' {
      if k < |d| {
        assert IsDigit(d[k]);
      }
    }
  }

  /** A label whose leading number is m and whose number after the space is r reads back as m·60 + r. */
  lemma ParseDurationOfParts(t: string, m: int, rest: string, r: int)
    requires ParseInt(t) == Some(m) && AfterFirst(t, ' ') == Some(rest) && ParseInt(rest) == Some(r)
    ensures ParseDuration(t) == Some(m * 60 + r)
  {
  }

  lemma MinutesLabelLeadingNumber(m: nat, r: nat)
    ensures ParseInt(MinutesLabel(m, r)) == Some(m)
  {
    var rest := ToDecimal(r) + "s";
    assert MinutesLabel(m, r) == ToDecimal(m) + ("m " + rest);
    ParseIntOfDecimal(m, "m " + rest);
  }

  lemma MinutesLabelAfterSpace(m: nat, r: nat)
    ensures AfterFirst(MinutesLabel(m, r), ' ') == Some(ToDecimal(r) + "s")
  {
    var d := ToDecimal(m);
    var rest := ToDecimal(r) + "s";
    NoSpaceAfterDigits(d, 'm');
    assert MinutesLabel(m, r) == d + ['m'] + [' '] + rest;
    AfterFirstPast(d + ['m'], ' ', rest);
  }

  /** A label "{m}m {r}s" reads back as m·60 + r seconds. */
  lemma MinutesLabelParse(m: nat, r: nat)
    ensures ParseDuration(MinutesLabel(m, r)) == Some(m * 60 + r)
  {
    MinutesLabelLeadingNumber(m, r);
    MinutesLabelAfterSpace(m, r);
    ParseIntOfDecimal(r, "s");
    ParseDurationOfParts(MinutesLabel(m, r), m, ToDecimal(r) + "s", r);
  }

  /** The label of a non-negative duration names its whole seconds exactly. */
  lemma FormatDurationRoundTrip(ms: real)
    requires ms >= 0.0
    ensures ParseDuration(FormatDuration(ms)) == Some(Seconds(ms))
  {
    DurationParts(ms);
    LabelRoundTrip(Seconds(ms));
  }

  lemma LabelRoundTrip(s: nat)
    ensures ParseDuration(Label(s)) == Some(s)
  {
    if s / 60 > 0 {
      MinutesLabelParse(s / 60, s % 60);
    } else {
      SecondsLabelParse(s);
    }
  }

  /** Labels of different whole-second counts differ. */
  lemma FormatDurationInjective(a: real, b: real)
    requires a >= 0.0 && b >= 0.0 && Seconds(a) != Seconds(b)
    ensures FormatDuration(a) != FormatDuration(b)
  {
    FormatDurationRoundTrip(a);
    FormatDurationRoundTrip(b);
  }

  /** The form of `formatDuration` that tests `seconds < 60` first. */
  function FormatDurationSecondsFirst(ms: real): string {
    var seconds := Seconds(ms);
    if seconds < 60 then IntToString(seconds) + "s"
    else IntToString(seconds / 60) + "m " + IntToString(seconds % 60) + "s"
  }

  /** Both forms give the same label for every duration. */
  lemma FormatDurationFormsAgree(ms: real)
    ensures FormatDurationSecondsFirst(ms) == FormatDuration(ms)
  {
    DurationParts(ms);
  }

  // ---------------------------------------------------------------- page-number bar

  /** The bar `PaginationNumbers` builds, branch by branch. */
  function RunsPageNumbersOf(totalPages: int, currentPage: int): seq<PageItem> {
    if totalPages <= 7 then Range(1, totalPages)
    else if currentPage <= 3 then
      [Number(1), Number(2), Number(3), Number(4), Ellipsis, Number(totalPages)]
    else if currentPage >= totalPages - 2 then
      [Number(1), Ellipsis, Number(totalPages - 3), Number(totalPages - 2), Number(totalPages - 1), Number(totalPages)]
    else
      [Number(1), Ellipsis, Number(currentPage - 1), Number(currentPage), Number(currentPage + 1), Ellipsis, Number(totalPages)]
  }

  /** `PaginationNumbers`. */
  method PaginationNumbers(totalPages: int, currentPage: int) returns (pages: seq<PageItem>)
    ensures pages == RunsPageNumbersOf(totalPages, currentPage)
  {
    pages := [];
    if totalPages <= 7 {
      pages := AppendRange(pages, 1, totalPages);
    } else if currentPage <= 3 {
      pages := pages + [Number(1), Number(2), Number(3), Number(4), Ellipsis, Number(totalPages)];
    } else if currentPage >= totalPages - 2 {
      pages := pages + [Number(1), Ellipsis, Number(totalPages - 3), Number(totalPages - 2), Number(totalPages - 1), Number(totalPages)];
    } else {
      pages := pages + [Number(1), Ellipsis, Number(currentPage - 1), Number(currentPage), Number(currentPage + 1), Ellipsis, Number(totalPages)];
    }
  }

  /** Every page up to the last, in order, as a bar. */
  lemma RangeShape(totalPages: int)
    requires totalPages >= 2
    ensures WindowShape(Range(1, totalPages), totalPages)
  {
    var r := Range(1, totalPages);
    forall i | 0 < i < |r| ensures Step(r[i - 1], r[i]) {
      assert r[i - 1] == Number(i) && r[i] == Number(i + 1);
    }
  }

  /**
   * From two pages on the bar is well shaped, so its numbers strictly increase from 1 to the
   * last page; it never has more than seven entries; and it always shows the current page.
   */
  lemma RunsPageNumbersShape(totalPages: int, currentPage: int)
    requires totalPages >= 2
    ensures var items := RunsPageNumbersOf(totalPages, currentPage);
      WindowShape(items, totalPages) && |items| <= 7
      && (1 <= currentPage <= totalPages ==> Number(currentPage) in items)
  {
    var items := RunsPageNumbersOf(totalPages, currentPage);
    if totalPages <= 7 {
      RangeShape(totalPages);
      RangeContains(1, totalPages, currentPage);
    } else if currentPage <= 3 {
      assert 1 <= currentPage <= 3 ==> items[currentPage - 1] == Number(currentPage);
    } else if currentPage >= totalPages - 2 {
      assert currentPage <= totalPages ==> items[currentPage - totalPages + 5] == Number(currentPage);
    } else {
      assert items[3] == Number(currentPage);
    }
  }

  /**
   * The runs bar and the scenarios bar agree up to seven pages and whenever the current page
   * is at least 3 and at most two before the last; below that the runs bar shows pages 1 to 4.
   */
  lemma BarsAgree(totalPages: int, currentPage: int)
    requires totalPages <= 7 || 3 <= currentPage <= totalPages - 2
    ensures RunsPageNumbersOf(totalPages, currentPage) == ScenariosPage.PageNumbersOf(totalPages, currentPage)
  {
    if totalPages > 7 {
      var c := currentPage;
      assert ScenariosPage.Max(2, c - 1) == c - 1 && ScenariosPage.Min(totalPages - 1, c + 1) == c + 1;
      var mid := Range(c - 1, c + 1);
      assert mid == [Number(c - 1), Number(c), Number(c + 1)];
      var e1: seq<PageItem> := if c > 3 then [Ellipsis] else [];
      var e2: seq<PageItem> := if c < totalPages - 2 then [Ellipsis] else [];
      assert ScenariosPage.PageNumbersOf(totalPages, c) == [Number(1)] + e1 + mid + e2 + [Number(totalPages)];
    }
  }

  /** On page 1 of ten pages the two bars differ: the runs bar also shows pages 3 and 4. */
  lemma BarsDifferNearStart()
    ensures RunsPageNumbersOf(10, 1) == [Number(1), Number(2), Number(3), Number(4), Ellipsis, Number(10)]
    ensures ScenariosPage.PageNumbersOf(10, 1) == [Number(1), Number(2), Ellipsis, Number(10)]
  {
    assert Range(2, 2) == [Number(2)];
  }

  // ---------------------------------------------------------------- Previous and Next

  /** The Previous button asks for the page before, only past page 1. */
  function PreviousTarget(currentPage: int): (r: Option<int>)
    ensures r.Some? <==> currentPage > 1
    ensures r.Some? ==> 1 <= r.value < currentPage
  {
    if currentPage > 1 then Some(currentPage - 1) else None
  }

  /** The Next button asks for the page after, only before the last page. */
  function NextTarget(currentPage: int, totalPages: int): (r: Option<int>)
    ensures r.Some? <==> currentPage < totalPages
    ensures r.Some? ==> currentPage < r.value <= totalPages
  {
    if currentPage < totalPages then Some(currentPage + 1) else None
  }

  /** From a page in range, both buttons only ever ask for pages in range, one step away. */
  lemma TargetsInRange(currentPage: int, totalPages: int)
    requires 1 <= currentPage <= totalPages
    ensures PreviousTarget(currentPage).Some? ==> 1 <= PreviousTarget(currentPage).value <= totalPages
    ensures NextTarget(currentPage, totalPages).Some? ==> 1 <= NextTarget(currentPage, totalPages).value <= totalPages
    ensures PreviousTarget(currentPage).None? <==> currentPage == 1
    ensures NextTarget(currentPage, totalPages).None? <==> currentPage == totalPages
  {
  }
}
