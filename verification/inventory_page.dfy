/**
 * The inventory page component's state: the search term, the current page
 * and the query's data, with the event handlers that change them.
 */
module InventoryPage {
  import opened Wrappers
  import opened InventoryData
  import opened SearchFilter
  import opened Pagination

  class IndexView {
    var searchTerm: string
    var currentPage: int
    /** The query's data; `None` while the first fetch is loading. */
    var data: Option<Dataset>

    /** The current page never drops below 1. */
    ghost predicate Valid()
      reads this
    {
      currentPage >= 1
    }

    /** `filteredItems`: the loaded records that pass the search, in order. */
    function FilteredItems(): (r: seq<Record>)
      reads this
      ensures |r| <= |LoadedRecords(data)|
      ensures forall i :: 0 <= i < |r| ==> r[i] in LoadedRecords(data) && Keep(r[i], searchTerm)
      ensures searchTerm == "" ==> r == LoadedRecords(data)
    {
      FilterEmptyTerm(LoadedRecords(data));
      Filter(LoadedRecords(data), searchTerm)
    }

    /** `totalPages`. */
    function PageCount(): (pages: nat)
      reads this
      ensures |FilteredItems()| <= pages * ItemsPerPage < |FilteredItems()| + ItemsPerPage
    {
      TotalPages(|FilteredItems()|)
    }

    /** `paginatedItems`: the records on screen. */
    function PaginatedItems(): (r: seq<Record>)
      reads this
      ensures |r| <= ItemsPerPage && |r| <= |FilteredItems()|
      ensures currentPage >= 1 ==> (r == [] <==> currentPage > PageCount())
    {
      var page := PageItems(FilteredItems(), currentPage);
      if currentPage >= 1 then PageEmptyIffBeyondLast(FilteredItems(), currentPage); page else page
    }

    /** Previous, the page buttons and Next are rendered. */
    predicate ShowsPagination()
      reads this
      ensures ShowsPagination() <==> |FilteredItems()| > ItemsPerPage
    {
      ShowsControls(|FilteredItems()|)
    }

    /** The empty state with its "Clear search" button is rendered. */
    predicate ShowsClearSearch()
      reads this
      ensures ShowsClearSearch() ==> PaginatedItems() == [] && !ShowsPagination()
    {
      data.Some? && FilteredItems() == [] && searchTerm != ""
    }

    /** The initial state: no term, page 1, data loading. */
    constructor ()
      ensures Valid()
      ensures searchTerm == "" && currentPage == 1 && data == None
    {
      searchTerm := "";
      currentPage := 1;
      data := None;
    }

    /**
     * A fetch completes and its result replaces the data. The search term
     * and the page number are left as they were, so a page number past the
     * new last page shows no records.
     */
    method Load(o: FetchOutcome)
      requires Valid()
      modifies this`data
      ensures Valid()
      ensures data == Some(Fetch(o))
      ensures searchTerm == old(searchTerm) && currentPage == old(currentPage)
      ensures BadgeText(data.value) == "Live Data" <==> Succeeded(o)
      ensures !Succeeded(o) && searchTerm == "" ==> FilteredItems() == FallbackData && !ShowsPagination()
      ensures currentPage > PageCount() ==> PaginatedItems() == []
    {
      data := Some(Fetch(o));
      BadgeShowsLiveIffSucceeded(o);
    }

    /** `handleSearch`: a new term, and back to page 1. */
    method Search(term: string)
      modifies this`searchTerm, this`currentPage
      ensures Valid()
      ensures searchTerm == term && currentPage == 1
      ensures PaginatedItems() == PageItems(Filter(LoadedRecords(data), term), 1)
    {
      searchTerm := term;
      currentPage := 1;
    }

    /** Previous. */
    method Prev()
      requires Valid() && ShowsPagination()
      modifies this`currentPage
      ensures Valid()
      ensures currentPage == PrevPage(old(currentPage))
      ensures old(currentPage) <= PageCount() ==> currentPage <= PageCount()
    {
      currentPage := PrevPage(currentPage);
    }

    /** Next. */
    method Next()
      requires Valid() && ShowsPagination()
      modifies this`currentPage
      ensures Valid()
      ensures 1 <= currentPage <= PageCount()
      ensures currentPage == NextPage(old(currentPage), PageCount())
    {
      currentPage := NextPage(currentPage, PageCount());
    }

    /** A page-number button, one for each page from 1 to `totalPages`. */
    method GoTo(page: int)
      requires ShowsPagination() && 1 <= page <= PageCount()
      modifies this`currentPage
      ensures Valid()
      ensures currentPage == page
      ensures PaginatedItems() != []
    {
      currentPage := page;
      PageEmptyIffBeyondLast(FilteredItems(), page);
    }

    /** "Clear search": `handleSearch("")`, which shows page 1 of the whole list. */
    method ClearSearch()
      requires ShowsClearSearch()
      modifies this`searchTerm, this`currentPage
      ensures Valid()
      ensures searchTerm == "" && currentPage == 1
      ensures FilteredItems() == LoadedRecords(data)
      ensures PaginatedItems() == PageItems(LoadedRecords(data), 1)
    {
      Search("");
      FilterEmptyTerm(LoadedRecords(data));
    }
  }

  /** The three fallback records fit on one page, so demo mode shows them all and no pagination controls. */
  lemma FallbackFitsOnePage()
    ensures TotalPages(|FallbackData|) == 1 && !ShowsControls(|FallbackData|)
    ensures PageItems(Filter(FallbackData, ""), 1) == FallbackData
  {
    FilterEmptyTerm(FallbackData);
  }
}
