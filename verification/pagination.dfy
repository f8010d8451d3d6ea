/**
 * The page's pagination arithmetic: six records per page, the page count,
 * the slice a page shows, and the Previous/Next page arithmetic.
 */
module Pagination {

  /** `ITEMS_PER_PAGE`. */
  const ItemsPerPage: nat := 6

  /** `Math.ceil(count / ITEMS_PER_PAGE)`: the fewest pages that hold `count` records. */
  function TotalPages(count: nat): (pages: nat)
    ensures count <= pages * ItemsPerPage < count + ItemsPerPage
  {
    (count + ItemsPerPage - 1) / ItemsPerPage
  }

  /** How `Array.prototype.slice` reads an index: negative counts from the end, then clamped to [0, len]. */
  function SliceIndex(i: int, len: nat): (k: nat)
    ensures k <= len
  {
    if i < 0 then (if len + i < 0 then 0 else len + i)
    else if i > len then len
    else i
  }

  /** `s.slice(start, end)`: for indices within the list, the segment between them. */
  function Slice<T>(s: seq<T>, start: int, end: int): (r: seq<T>)
    ensures |r| <= |s|
    ensures 0 <= start <= end <= |s| ==> r == s[start..end]
    ensures end <= start && (start >= 0) == (end >= 0) ==> r == []
  {
    var lo, hi := SliceIndex(start, |s|), SliceIndex(end, |s|);
    if lo < hi then s[lo..hi] else []
  }

  /** `startIndex`: where page `page` (1-based) begins. */
  function StartIndex(page: int): (i: int)
    ensures page >= 1 ==> i >= 0 && i % ItemsPerPage == 0
    ensures page >= 1 ==> i / ItemsPerPage == page - 1
  {
    (page - 1) * ItemsPerPage
  }

  /** `paginatedItems`: the slice from `startIndex` to `endIndex = startIndex + ITEMS_PER_PAGE`. */
  function PageItems<T>(items: seq<T>, page: int): (r: seq<T>)
    ensures |r| <= ItemsPerPage && |r| <= |items|
  {
    Slice(items, StartIndex(page), StartIndex(page) + ItemsPerPage)
  }

  function Min(a: int, b: int): int { if a < b then a else b }

  /** A page from 1 on is the contiguous segment of the list starting at `(page - 1) * 6`. */
  lemma PageIsSegment<T>(items: seq<T>, page: int)
    requires page >= 1
    ensures var lo := Min(StartIndex(page), |items|);
      PageItems(items, page) == items[lo..Min(StartIndex(page) + ItemsPerPage, |items|)]
  {
  }

  /** Pages 1 to `TotalPages` are never empty; every later page is. */
  lemma PageEmptyIffBeyondLast<T>(items: seq<T>, page: int)
    requires page >= 1
    ensures PageItems(items, page) == [] <==> page > TotalPages(|items|)
  {
    var n := |items|;
    var pages := TotalPages(n);
    if page <= pages {
      assert StartIndex(page) < n by {
        assert StartIndex(page) <= StartIndex(pages);
        assert StartIndex(pages) == pages * ItemsPerPage - ItemsPerPage;
      }
    } else {
      assert StartIndex(page) >= n by {
        assert StartIndex(page) >= StartIndex(pages + 1);
        assert StartIndex(pages + 1) == pages * ItemsPerPage;
      }
    }
  }

  /** Pages 1 to `count`, concatenated in order. */
  function AllPages<T>(items: seq<T>, count: nat): seq<T>
  {
    if count == 0 then [] else AllPages(items, count - 1) + PageItems(items, count)
  }

  /** The first `count` pages spell out the first `count * 6` records (or all of them). */
  lemma {:induction false} AllPagesPrefix<T>(items: seq<T>, count: nat)
    ensures AllPages(items, count) == items[..Min(count * ItemsPerPage, |items|)]
  {
    if count > 0 {
      AllPagesPrefix(items, count - 1);
      PageIsSegment(items, count);
      var a := Min((count - 1) * ItemsPerPage, |items|);
      var b := Min(count * ItemsPerPage, |items|);
      assert StartIndex(count) == (count - 1) * ItemsPerPage;
      assert items[..a] + items[a..b] == items[..b];
    }
  }

  /** Concatenating pages 1 to `TotalPages` reproduces the list exactly. */
  lemma PagesPartitionList<T>(items: seq<T>)
    ensures AllPages(items, TotalPages(|items|)) == items
  {
    AllPagesPrefix(items, TotalPages(|items|));
  }

  /** The controls are rendered only when `totalPages > 1`, that is, when more than one page's worth of records are listed. */
  predicate ShowsControls(count: nat)
    ensures ShowsControls(count) <==> count > ItemsPerPage
  {
    TotalPages(count) > 1
  }

  /** Six records: page 1 shows all of them and there are no controls. */
  lemma SixRecordsFitOnePage<T>(items: seq<T>)
    requires |items| == 6
    ensures PageItems(items, 1) == items && !ShowsControls(|items|)
  {
  }

  /** Previous: `Math.max(prev - 1, 1)`. */
  function PrevPage(page: int): (p: int)
    ensures p >= 1
    ensures page > 1 ==> p == page - 1
    ensures page <= 1 ==> p == 1
  {
    if page - 1 > 1 then page - 1 else 1
  }

  /** Next: `Math.min(prev + 1, totalPages)`. */
  function NextPage(page: int, totalPages: nat): (p: int)
    ensures p <= totalPages
    ensures page < totalPages ==> p == page + 1
    ensures page >= totalPages ==> p == totalPages
  {
    if page + 1 < totalPages then page + 1 else totalPages
  }

  /** From a page in [1, totalPages], Previous and Next stay in [1, totalPages]. */
  lemma NavigationStaysInRange(page: int, totalPages: nat)
    requires 1 <= page <= totalPages
    ensures 1 <= PrevPage(page) <= totalPages
    ensures 1 <= NextPage(page, totalPages) <= totalPages
  {
  }

  /** From a stale page beyond the last, Next jumps back to the last page. */
  lemma NextFromStalePage(page: int, totalPages: nat)
    requires page > totalPages
    ensures NextPage(page, totalPages) == totalPages
  {
  }
}
