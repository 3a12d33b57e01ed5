/**
 * The pagination bar of the shop's and the administrator's product pages: the
 * list of page buttons with "..." gaps, the "Showing x - y of n" line, and when
 * the Previous and Next buttons are disabled.
 */
module PageNumbers {
  import opened Common
  import opened Paging

  /** A page button, or a "..." placeholder that cannot be clicked. */
  datatype PageEntry = Num(n: int) | Ellipsis

  function Max(a: int, b: int): int { if a >= b then a else b }
  function Min(a: int, b: int): int { if a <= b then a else b }

  /** The buttons `lo`, `lo + 1`, ..., `hi`; none when `hi < lo`. */
  function Run(lo: int, hi: int): (r: seq<PageEntry>)
    ensures |r| == if hi < lo then 0 else hi - lo + 1
    ensures forall k :: 0 <= k < |r| ==> r[k] == Num(lo + k)
    decreases hi - lo + 1
  {
    if hi < lo then [] else Run(lo, hi - 1) + [Num(hi)]
  }

  /**
   * The buttons for `totalPages` pages around `current`: every page when there
   * are at most seven; otherwise the first page, a "..." when current > 4, the
   * pages from max(2, current - 1) to min(totalPages - 1, current + 1), a "..."
   * when current < totalPages - 3, and the last page.
   */
  function PageListSpec(totalPages: int, current: int): (r: seq<PageEntry>)
    ensures |r| <= 7
    ensures forall k :: 0 <= k < |r| && r[k].Num? ==> 1 <= r[k].n <= totalPages
    ensures totalPages >= 1 ==> |r| >= 1 && r[0] == Num(1)
    ensures totalPages >= 1 ==> |r| >= 1 && r[|r| - 1] == Num(totalPages)
  {
    if totalPages <= 7 then Run(1, totalPages)
    else
      [Num(1)]
      + (if current > 4 then [Ellipsis] else [])
      + Run(Max(2, current - 1), Min(totalPages - 1, current + 1))
      + (if current < totalPages - 3 then [Ellipsis] else [])
      + (if totalPages > 1 then [Num(totalPages)] else [])
  }

  /** The page-button builder: pushes the entries one by one in two loops. */
  method PageList(totalPages: int, current: int) returns (pages: seq<PageEntry>)
    ensures pages == PageListSpec(totalPages, current)
  {
    pages := [];
    if totalPages <= 7 {
      pages := PushRun(pages, 1, totalPages);
    } else {
      ghost var lead: seq<PageEntry> := if current > 4 then [Ellipsis] else [];
      ghost var trail: seq<PageEntry> := if current < totalPages - 3 then [Ellipsis] else [];
      pages := pages + [Num(1)];
      if current > 4 {
        pages := pages + [Ellipsis];
      }
      assert pages == [Num(1)] + lead;
      pages := PushRun(pages, Max(2, current - 1), Min(totalPages - 1, current + 1));
      ghost var middle := pages;
      if current < totalPages - 3 {
        pages := pages + [Ellipsis];
      }
      assert pages == middle + trail;
      if totalPages > 1 {
        pages := pages + [Num(totalPages)];
      }
    }
  }

  /** One `for (let i = lo; i <= hi; i++) pages.push(i)` loop. */
  method PushRun(pages: seq<PageEntry>, lo: int, hi: int) returns (r: seq<PageEntry>)
    ensures r == pages + Run(lo, hi)
  {
    r := pages;
    var i := lo;
    while i <= hi
      invariant lo <= i <= Max(hi, lo - 1) + 1
      invariant r == pages + Run(lo, i - 1)
    {
      r := r + [Num(i)];
      i := i + 1;
    }
  }

  /** The numbered entries appear in strictly increasing order. */
  predicate Increasing(pages: seq<PageEntry>)
  {
    forall i, j :: 0 <= i < j < |pages| && pages[i].Num? && pages[j].Num? ==> pages[i].n < pages[j].n
  }

  /** With at most seven pages, every page is listed, in order, with no "...". */
  lemma SmallListsAll(totalPages: int, current: int)
    requires totalPages <= 7
    ensures var pages := PageListSpec(totalPages, current);
            |pages| == Max(totalPages, 0) && forall k :: 0 <= k < |pages| ==> pages[k] == Num(k + 1)
  {
  }

  /**
   * With more than seven pages and the current page in range, the list starts
   * with page 1 and ends with the last page; a "..." follows page 1 exactly when
   * current > 4 and precedes the last page exactly when current < totalPages - 3.
   */
  lemma LargeListShape(totalPages: int, current: int)
    requires totalPages > 7 && 1 <= current <= totalPages
    ensures var pages := PageListSpec(totalPages, current);
            |pages| >= 3 && pages[0] == Num(1) && pages[|pages| - 1] == Num(totalPages)
            && (pages[1] == Ellipsis <==> current > 4)
            && (pages[|pages| - 2] == Ellipsis <==> current < totalPages - 3)
  {
    var lead := if current > 4 then [Ellipsis] else [];
    var trail := if current < totalPages - 3 then [Ellipsis] else [];
    var mid := Run(Max(2, current - 1), Min(totalPages - 1, current + 1));
    assert |mid| >= 1;
    var pages := PageListSpec(totalPages, current);
    assert pages == [Num(1)] + lead + mid + trail + [Num(totalPages)];
    assert pages[1] == (lead + mid + trail + [Num(totalPages)])[0];
    assert pages[|pages| - 2] == ([Num(1)] + lead + mid + trail)[|pages| - 2];
  }

  /**
   * For a current page in range, the list has at most seven entries, its numbers
   * increase strictly, lie between 1 and the last page, and include the current page.
   */
  lemma PageListWellFormed(totalPages: int, current: int)
    requires 1 <= current <= totalPages
    ensures var pages := PageListSpec(totalPages, current);
            |pages| <= 7 && Increasing(pages) && Num(current) in pages
            && forall k :: 0 <= k < |pages| && pages[k].Num? ==> 1 <= pages[k].n <= totalPages
  {
    var pages := PageListSpec(totalPages, current);
    if totalPages <= 7 {
      SmallListsAll(totalPages, current);
      assert pages[current - 1] == Num(current);
    } else {
      LargeListWellFormed(totalPages, current);
    }
  }

  lemma LargeListWellFormed(totalPages: int, current: int)
    requires 7 < totalPages && 1 <= current <= totalPages
    ensures var pages := PageListSpec(totalPages, current);
            |pages| <= 7 && Increasing(pages) && Num(current) in pages
            && forall k :: 0 <= k < |pages| && pages[k].Num? ==> 1 <= pages[k].n <= totalPages
  {
    var pages := PageListSpec(totalPages, current);
    var lo, hi := Max(2, current - 1), Min(totalPages - 1, current + 1);
    var f := if current > 4 then 2 else 1;
    var m := |Run(lo, hi)|;
    LargeListEntries(totalPages, current);
    if current == 1 {
      assert pages[0] == Num(current);
    } else if current == totalPages {
      assert pages[|pages| - 1] == Num(current);
    } else {
      assert pages[f + current - lo] == Num(current);
    }
  }

  /**
   * Where each number of a long list sits: page 1 before the middle run, the run
   * from max(2, current - 1) on, and the last page after it.
   */
  lemma LargeListEntries(totalPages: int, current: int)
    requires 7 < totalPages && 1 <= current <= totalPages
    ensures var pages := PageListSpec(totalPages, current);
            var lo, hi := Max(2, current - 1), Min(totalPages - 1, current + 1);
            var f, m := if current > 4 then 2 else 1, |Run(lo, hi)|;
            1 <= m <= 3 && |pages| == f + m + (if current < totalPages - 3 then 2 else 1)
            && (forall k :: 0 <= k < f && pages[k].Num? ==> pages[k].n == 1)
            && (forall k :: f <= k < f + m ==> pages[k] == Num(lo + k - f))
            && (forall k :: f + m <= k < |pages| && pages[k].Num? ==> pages[k].n == totalPages)
  {
    var pages := PageListSpec(totalPages, current);
    var lead := if current > 4 then [Ellipsis] else [];
    var trail := if current < totalPages - 3 then [Ellipsis] else [];
    var lo, hi := Max(2, current - 1), Min(totalPages - 1, current + 1);
    var mid := Run(lo, hi);
    var front := [Num(1)] + lead;
    var back := trail + [Num(totalPages)];
    assert pages == front + mid + back;
    forall k | 0 <= k < |front|
      ensures pages[k] == front[k]
    {
    }
    forall k | |front| <= k < |front| + |mid|
      ensures pages[k] == mid[k - |front|]
    {
    }
    forall k | |front| + |mid| <= k < |pages|
      ensures pages[k] == back[k - |front| - |mid|]
    {
    }
  }

  /**
   * The buttons skip a page without a "..." when current = 4: with ten pages the
   * list is 1, 3, 4, 5, ..., 10, and page 2 has neither a button nor a gap mark.
   */
  lemma PageTwoSkippedWithoutGap()
    ensures PageListSpec(10, 4) == [Num(1), Num(3), Num(4), Num(5), Ellipsis, Num(10)]
  {
  }

  /**
   * Every gap is marked: neighbouring page numbers are consecutive, and each "..."
   * stands between two numbers with at least one page missing between them.
   */
  predicate GapsMarked(pages: seq<PageEntry>)
  {
    forall k :: 0 <= k < |pages| - 1 ==> StepMarked(pages, k)
  }

  predicate StepMarked(pages: seq<PageEntry>, k: nat)
    requires k < |pages| - 1
  {
    (pages[k].Num? && pages[k + 1].Num? ==> pages[k + 1].n == pages[k].n + 1)
    && (pages[k + 1].Ellipsis? ==> pages[k].Num? && k + 2 < |pages| && pages[k + 2].Num?
                                   && pages[k + 2].n > pages[k].n + 1)
  }

  /** As written, the list for page 4 of 10 leaves page 2 out with no mark. */
  lemma GapUnmarkedAsWritten()
    ensures !GapsMarked(PageListSpec(10, 4))
  {
    PageTwoSkippedWithoutGap();
    var pages := PageListSpec(10, 4);
    assert !StepMarked(pages, 0);
  }

  /**
   * The builder as intended: a "..." exactly where pages are left out, that is
   * after page 1 when current > 3 and before the last page when current < totalPages - 2.
   */
  function PageListFixed(totalPages: int, current: int): seq<PageEntry>
  {
    if totalPages <= 7 then Run(1, totalPages)
    else
      [Num(1)]
      + (if current > 3 then [Ellipsis] else [])
      + Run(Max(2, current - 1), Min(totalPages - 1, current + 1))
      + (if current < totalPages - 2 then [Ellipsis] else [])
      + [Num(totalPages)]
  }

  /** The intended list marks every gap. */
  lemma PageListFixedMarksGaps(totalPages: int, current: int)
    requires 1 <= current <= totalPages
    ensures GapsMarked(PageListFixed(totalPages, current))
  {
    var pages := PageListFixed(totalPages, current);
    if totalPages > 7 {
      var lo, hi := Max(2, current - 1), Min(totalPages - 1, current + 1);
      var front := [Num(1)] + (if current > 3 then [Ellipsis] else []);
      var mid := Run(lo, hi);
      var back := (if current < totalPages - 2 then [Ellipsis] else []) + [Num(totalPages)];
      assert pages == front + mid + back;
      var f, m := |front|, |front| + |mid|;
      assert m > f;
      forall k | 0 <= k < |pages| - 1
        ensures StepMarked(pages, k)
      {
        if k + 1 < f {
          assert pages[k] == Num(1) && pages[k + 1] == Ellipsis && pages[k + 2] == Num(lo);
        } else if k + 1 == f {
          assert pages[k + 1] == Num(lo);
          assert pages[k] == (if current > 3 then Ellipsis else Num(1));
        } else if k + 1 < m {
          assert pages[k] == mid[k - f] && pages[k + 1] == mid[k + 1 - f];
        } else if k + 1 == m {
          assert pages[k] == Num(hi) && pages[k + 1] == back[0];
          if current < totalPages - 2 {
            assert pages[k + 2] == Num(totalPages);
          }
        } else {
          assert pages[k] == Ellipsis && pages[k + 1] == Num(totalPages);
        }
      }
    }
  }

  /** The intended list still starts at page 1, ends at the last page and shows the current one. */
  lemma PageListFixedShowsCurrent(totalPages: int, current: int)
    requires 1 <= current <= totalPages
    ensures var pages := PageListFixed(totalPages, current);
            Num(current) in pages && pages[0] == Num(1) && pages[|pages| - 1] == Num(totalPages)
  {
    var pages := PageListFixed(totalPages, current);
    if totalPages <= 7 {
      assert pages[current - 1] == Num(current);
    } else {
      var lo, hi := Max(2, current - 1), Min(totalPages - 1, current + 1);
      var front := [Num(1)] + (if current > 3 then [Ellipsis] else []);
      var mid := Run(lo, hi);
      var back := (if current < totalPages - 2 then [Ellipsis] else []) + [Num(totalPages)];
      assert pages == front + mid + back;
      if current == 1 {
        assert pages[0] == Num(current);
      } else if current == totalPages {
        assert pages[|pages| - 1] == Num(current);
      } else {
        assert mid[current - lo] == Num(current);
        assert pages[|front| + current - lo] == Num(current);
      }
    }
  }

  /** The "Showing first - last of total" line. */
  datatype Showing = Showing(first: int, last: int)

  /** `(page - 1) * limit + 1` to `min(page * limit, total)`, the limit defaulting to 12 when absent or zero. */
  function ShowingRange(page: int, limit: Option<int>, total: int): (r: Showing)
    ensures r.last <= total
    ensures r.last - r.first + 1 <= OrDefault(limit, 12)
  {
    var l := OrDefault(limit, 12);
    assert page * l == (page - 1) * l + l;
    Showing((page - 1) * l + 1, Min(page * l, total))
  }

  /**
   * For a page that has entries, the line counts exactly the entries shown on it:
   * `last - first + 1` is the size of that page's window, which starts at entry
   * number `first`.
   */
  lemma ShowingCountsPage<T>(s: seq<T>, page: int, limit: int)
    requires limit >= 1 && page >= 1 && (page - 1) * limit < |s|
    ensures var r := ShowingRange(page, Some(limit), |s|);
            var w := Window(s, (page - 1) * limit, limit);
            1 <= r.first <= r.last <= |s| && r.last - r.first + 1 == |w|
  {
    var skip := (page - 1) * limit;
    assert page * limit == skip + limit;
  }

  /** Previous is disabled from page 1 down; Next from the last page up. */
  function PrevDisabled(page: int): bool { page <= 1 }
  function NextDisabled(page: int, totalPages: int): bool { page >= totalPages }

  /**
   * A button is enabled only where it leads to entries: Next is enabled exactly
   * when the following page has entries, and an enabled Previous from any page up
   * to one past the last leads to a page that has entries.
   */
  lemma ButtonsFollowPages<T>(s: seq<T>, limit: nat, page: nat)
    requires limit > 0 && page >= 1
    ensures !NextDisabled(page, CeilDiv(|s|, limit)) <==> |Window(s, PageStart(page + 1, limit), limit)| > 0
    ensures !PrevDisabled(page) && page <= CeilDiv(|s|, limit) + 1 ==>
              |Window(s, PageStart(page - 1, limit), limit)| > 0
  {
    NonEmptyPages(s, limit, page + 1);
    if page >= 2 {
      NonEmptyPages(s, limit, page - 1);
    }
  }

  /**
   * The administrator page disables Previous only at page 1 and Next only at the
   * last page: within range it agrees with the shop's rule, outside it does not.
   */
  function AdminPrevDisabled(page: int): bool { page == 1 }
  function AdminNextDisabled(page: int, totalPages: int): bool { page == totalPages }

  lemma AdminButtonsAgreeInRange(page: int, totalPages: int)
    requires 1 <= page <= totalPages
    ensures AdminPrevDisabled(page) == PrevDisabled(page)
    ensures AdminNextDisabled(page, totalPages) == NextDisabled(page, totalPages)
    ensures !AdminNextDisabled(totalPages + 1, totalPages) && NextDisabled(totalPages + 1, totalPages)
  {
  }
}
