/** The storefront's page selector: which page buttons to show for the current
    page, where to put the ellipses, and when the previous/next buttons are
    disabled. */
module Pagination {
  import opened Common

  /** One entry of the selector: a page button or an ellipsis. */
  datatype PageEntry = Num(n: int) | Ellipsis

  /** Buttons for pages `lo` to `hi` inclusive (none when `hi < lo`). */
  function Range(lo: int, hi: int): (r: seq<PageEntry>)
    ensures |r| == if hi < lo then 0 else hi - lo + 1
    ensures forall j | 0 <= j < |r| :: r[j] == Num(lo + j)
    decreases hi - lo
  {
    if hi < lo then [] else [Num(lo)] + Range(lo + 1, hi)
  }

  lemma RangeSnoc(lo: int, hi: int)
    requires lo <= hi + 1
    ensures Range(lo, hi) + [Num(hi + 1)] == Range(lo, hi + 1)
  {
  }

  /** The entries to show: every page when there are at most 7; otherwise the
      first four, the neighbourhood of the current page or the last four,
      with the first and last page always present. */
  function PageNumbers(current: int, total: int): (p: seq<PageEntry>)
    ensures |p| <= 7
    ensures total >= 1 ==> |p| >= 1 && p[0] == Num(1) && p[|p| - 1] == Num(total)
  {
    if total <= 7 then Range(1, total)
    else if current <= 3 then Range(1, 4) + [Ellipsis, Num(total)]
    else if current >= total - 2 then [Num(1), Ellipsis] + Range(total - 3, total)
    else [Num(1), Ellipsis] + Range(current - 1, current + 1) + [Ellipsis, Num(total)]
  }

  /** `getPageNumbers`: builds the list with `push` in the branch's loops. */
  method GetPageNumbers(currentPage: int, totalPages: int) returns (pages: seq<PageEntry>)
    ensures pages == PageNumbers(currentPage, totalPages)
  {
    pages := [];
    var showEllipsis := totalPages > 7;
    if !showEllipsis {
      var i := 1;
      while i <= totalPages
        invariant 1 <= i && (i <= totalPages + 1 || i == 1)
        invariant pages == Range(1, i - 1)
      {
        RangeSnoc(1, i - 1);
        pages := pages + [Num(i)];
        i := i + 1;
      }
    } else if currentPage <= 3 {
      var i := 1;
      while i <= 4
        invariant 1 <= i <= 5
        invariant pages == Range(1, i - 1)
      {
        RangeSnoc(1, i - 1);
        pages := pages + [Num(i)];
        i := i + 1;
      }
      pages := pages + [Ellipsis];
      pages := pages + [Num(totalPages)];
    } else if currentPage >= totalPages - 2 {
      pages := pages + [Num(1)];
      pages := pages + [Ellipsis];
      var i := totalPages - 3;
      while i <= totalPages
        invariant totalPages - 3 <= i <= totalPages + 1
        invariant pages == [Num(1), Ellipsis] + Range(totalPages - 3, i - 1)
      {
        RangeSnoc(totalPages - 3, i - 1);
        pages := pages + [Num(i)];
        i := i + 1;
      }
    } else {
      pages := pages + [Num(1)];
      pages := pages + [Ellipsis];
      var i := currentPage - 1;
      while i <= currentPage + 1
        invariant currentPage - 1 <= i <= currentPage + 2
        invariant pages == [Num(1), Ellipsis] + Range(currentPage - 1, i - 1)
      {
        RangeSnoc(currentPage - 1, i - 1);
        pages := pages + [Num(i)];
        i := i + 1;
      }
      pages := pages + [Ellipsis];
      pages := pages + [Num(totalPages)];
    }
  }

  /** Up to 7 pages, every page is listed, in order, with no ellipsis. */
  lemma SmallTotalListsEveryPage(current: int, total: int)
    requires 0 <= total <= 7
    ensures var p := PageNumbers(current, total);
      |p| == total && forall j | 0 <= j < total :: p[j] == Num(j + 1)
  {
  }

  /** A selector for `total` pages is well shaped: it starts with page 1 and
      ends with the last page; the page numbers strictly increase; neighbouring
      buttons are consecutive pages; and an ellipsis always stands between two
      buttons and hides at least one page. */
  ghost predicate WellShaped(p: seq<PageEntry>, total: int) {
    && |p| >= 1
    && p[0] == Num(1) && p[|p| - 1] == Num(total)
    && (forall i, j | 0 <= i < j < |p| && p[i].Num? && p[j].Num? :: p[i].n < p[j].n)
    && (forall i | 0 <= i < |p| - 1 && p[i].Num? && p[i + 1].Num? :: p[i + 1].n == p[i].n + 1)
    && (forall i | 0 <= i < |p| && p[i] == Ellipsis ::
          0 < i < |p| - 1 && p[i - 1].Num? && p[i + 1].Num? && p[i - 1].n + 1 < p[i + 1].n)
  }

  lemma HeadWindowShape(total: int)
    requires total > 7
    ensures WellShaped([Num(1), Num(2), Num(3), Num(4), Ellipsis, Num(total)], total)
  {
  }

  lemma TailWindowShape(total: int)
    requires total > 7
    ensures WellShaped([Num(1), Ellipsis, Num(total - 3), Num(total - 2), Num(total - 1), Num(total)], total)
  {
  }

  lemma MiddleWindowShape(current: int, total: int)
    requires 3 < current < total - 2
    ensures WellShaped([Num(1), Ellipsis, Num(current - 1), Num(current), Num(current + 1), Ellipsis, Num(total)], total)
  {
  }

  /** With more than 7 pages the selector is well shaped and has at most 7
      entries. */
  lemma LargeTotalShape(current: int, total: int)
    requires total > 7
    ensures var p := PageNumbers(current, total); 6 <= |p| <= 7 && WellShaped(p, total)
  {
    var p := PageNumbers(current, total);
    if current <= 3 {
      assert p == [Num(1), Num(2), Num(3), Num(4), Ellipsis, Num(total)];
      HeadWindowShape(total);
    } else if current >= total - 2 {
      assert p == [Num(1), Ellipsis, Num(total - 3), Num(total - 2), Num(total - 1), Num(total)];
      TailWindowShape(total);
    } else {
      assert p == [Num(1), Ellipsis, Num(current - 1), Num(current), Num(current + 1), Ellipsis, Num(total)];
      MiddleWindowShape(current, total);
    }
  }

  /** With 1 to 7 pages the selector is well shaped too: every page, no ellipsis. */
  lemma SmallTotalShape(current: int, total: int)
    requires 1 <= total <= 7
    ensures WellShaped(PageNumbers(current, total), total)
  {
  }

  /** Every button names a real page. */
  lemma ButtonsAreRealPages(current: int, total: int)
    ensures var p := PageNumbers(current, total);
      forall j | 0 <= j < |p| && p[j].Num? :: 1 <= p[j].n <= total
  {
  }

  /** The current page, when it is a real page, always has its own button. */
  lemma CurrentPageIsShown(current: int, total: int)
    requires 1 <= current <= total
    ensures Num(current) in PageNumbers(current, total)
  {
    var p := PageNumbers(current, total);
    if total <= 7 {
      assert p[current - 1] == Num(current);
    } else if current <= 3 {
      assert p[current - 1] == Num(current);
    } else if current >= total - 2 {
      assert p[current - total + 5] == Num(current);
    } else {
      assert p[3] == Num(current);
    }
  }

  /** What the component renders: the previous button (disabled or not, and
      the page it goes to), the entries, and the next button. */
  datatype PagerView = PagerView(
    prevDisabled: bool, prevTarget: int, pages: seq<PageEntry>, nextDisabled: bool, nextTarget: int)

  /** The `Pagination` component: nothing at all when there are at most one
      page; otherwise previous is disabled on the first page and next on the
      last. */
  function Pager(currentPage: int, totalPages: int): (v: Option<PagerView>)
    ensures v.None? <==> totalPages <= 1
    ensures v.Some? ==>
      && (v.value.prevDisabled <==> currentPage == 1)
      && (v.value.nextDisabled <==> currentPage == totalPages)
      && v.value.prevTarget == currentPage - 1
      && v.value.nextTarget == currentPage + 1
      && v.value.pages == PageNumbers(currentPage, totalPages)
  {
    if totalPages <= 1 then None
    else Some(PagerView(currentPage == 1, currentPage - 1, PageNumbers(currentPage, totalPages),
      currentPage == totalPages, currentPage + 1))
  }

  /** From a real page, an enabled previous or next button leads to a real
      page, and the current page has a button of its own. */
  lemma NavigationStaysInRange(current: int, total: int)
    requires 1 <= current <= total
    ensures var v := Pager(current, total);
      v.Some? ==>
        && (!v.value.prevDisabled ==> 1 <= v.value.prevTarget <= total)
        && (!v.value.nextDisabled ==> 1 <= v.value.nextTarget <= total)
        && Num(current) in v.value.pages
  {
    CurrentPageIsShown(current, total);
  }
}
