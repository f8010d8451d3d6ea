# Vehicle inventory page: search, pagination, fetch fallback and proxy rewrite

A Dafny model of the logic inside the vehicle inventory page
(`src/pages/Index.tsx`) and of the development proxy's path rewrite
(`vite.config.ts`).

- **Fetch with fallback** (`InventoryData`): `fetchInventory` is a total function of an
  abstract request outcome. The outcome is either a response (status, and a body that
  parsed as JSON or not) or a failure of `fetch` itself. An ok (2xx) response with a parsed body
  gives that body tagged `Api`. Anything else gives the three bundled fallback vehicles
  tagged `Fallback`. The badge reads "Live Data" exactly for `Api`.
- **Search** (`SearchFilter`): a record is a map from field name to an optional string
  (null/undefined is `None`). An empty term keeps every record. Otherwise a record is kept
  when some present field, ASCII-lower-cased, contains the lower-cased term.
- **Pagination** (`Pagination`): six records per page, `ceil(n / 6)` pages, and a page is
  `slice((page - 1) * 6, page * 6)` with JavaScript `slice` semantics. Previous is
  `max(page - 1, 1)` and Next is `min(page + 1, totalPages)`.
- **Page state** (`InventoryPage.IndexView`): the component's `searchTerm`, `currentPage`
  and query data as fields of a class. Its methods are the event handlers: search,
  Previous, Next, a page button, "Clear search", and a fetch delivering data.
- **Proxy rewrite** (`ProxyRewrite`): `path.replace(/^\/api\/inventory/, "/inventory")`.

Modules: `wrappers.dfy` (Option), `ascii.dfy` (ASCII case mapping and substring search),
`inventory_data.dfy`, `search_filter.dfy`, `pagination.dfy`, `inventory_page.dfy`,
`proxy_rewrite.dfy`.

Behaviour the code does not have:
- The code does not check the response's content type. A non-JSON body falls back only because
  `response.json()` throws (`src/pages/Index.tsx:86-90`).
- The code does not clamp the current page when refetched data shrinks. Only a search resets the
  page (`src/pages/Index.tsx:135-138`). `IndexView.Load` therefore keeps `currentPage`, and its
  contract states that a page past the new last page shows no records.

Refetches come from the Refresh button and from the react-query default triggers that
`src/pages/Index.tsx:108-113` leaves on (only `refetchOnWindowFocus` is turned off). Each completed
fetch is an `IndexView.Load`.

## Model

| member | source | states |
|---|---|---|
| `InventoryData.Fetch` | src/pages/Index.tsx:72-101 | never fails; tagged `Api` iff the status is 2xx and the body parsed, and then holds that body's `data`; otherwise exactly the 3 fallback records tagged `Fallback` |
| `InventoryData.BadgeText` | src/pages/Index.tsx:153 | the badge reads "Live Data" exactly for `Api` data and "Demo Mode" exactly for `Fallback` data |
| `InventoryData.BadgeShowsLiveIffSucceeded` | src/pages/Index.tsx:147-155 | the badge reads "Live Data" iff the request succeeded, "Demo Mode" otherwise |
| `InventoryData.LoadedRecords` | src/pages/Index.tsx:116-126 | the list searched is empty while loading or when the body has no `data` member, and is the body's records otherwise |
| `Ascii.Lower` | src/pages/Index.tsx:119 | lower-casing keeps the length and maps each character through ASCII `toLowerCase` |
| `Ascii.Contains` | src/pages/Index.tsx:124 | `includes`: a prefix (in particular the empty string) is contained, and a contained string is no longer than the text |
| `Ascii.LowerOfUpper` | src/pages/Index.tsx:119-124 | lower-casing an upper-cased term equals lower-casing the term |
| `SearchFilter.ValueMatches` | src/pages/Index.tsx:122-125 | a null/undefined value never matches; a present value always matches its own lower-cased text |
| `SearchFilter.Matches` | src/pages/Index.tsx:122-125 | a record whose values are all absent never matches; a match needs a present field at least as long as the term |
| `SearchFilter.Keep` | src/pages/Index.tsx:117-125 | the filter callback keeps every record for an empty term, and otherwise exactly the matching records |
| `SearchFilter.Filter` | src/pages/Index.tsx:116-126 | the result is no longer than the input, and every record in it comes from the input and passes the search |
| `SearchFilter.KeptIndicesIncreasing` | src/pages/Index.tsx:116-126 | the positions of kept records are in range and strictly increasing (order is preserved) |
| `SearchFilter.KeptIndicesComplete` | src/pages/Index.tsx:116-126 | a position is listed iff its record passes the search (nothing matching is dropped) |
| `SearchFilter.FilterSelectsKept` | src/pages/Index.tsx:116-126 | the result is exactly the records at the kept positions, in order: an order-preserving subsequence |
| `SearchFilter.FilterKeepsAll` | src/pages/Index.tsx:116-126 | if every record passes, the result is the input unchanged |
| `SearchFilter.FilterEmptyTerm` | src/pages/Index.tsx:116-118 | an empty term returns every record in the original order |
| `SearchFilter.FilterMembership` | src/pages/Index.tsx:116-125 | a record is in the result iff it is in the input and the term is empty or some present field contains the term, ignoring case |
| `SearchFilter.FilterIdempotent` | src/pages/Index.tsx:116-126 | filtering the filtered list with the same term changes nothing |
| `SearchFilter.FilterDependsOnLowerTerm` | src/pages/Index.tsx:119-124 | two terms with the same lower-cased form give the same result |
| `SearchFilter.FilterCaseInsensitive` | src/pages/Index.tsx:119-124 | searching for the upper-cased term gives the same result as the term itself |
| `SearchFilter.AbsentFieldsNeverMatch` | src/pages/Index.tsx:122-125 | a record whose fields are all null/undefined is excluded by any non-empty term |
| `SearchFilter.FieldEqualToTermMatches` | src/pages/Index.tsx:122-125 | a record with a field equal to the term matches, whatever its other fields are |
| `SearchFilter.FilterNoneKept` | src/pages/Index.tsx:116-126 | when no record passes, the result is empty (the empty state) |
| `SearchFilter.SingleMatch` | src/pages/Index.tsx:116-126 | when exactly one record matches a non-empty term, the result is exactly that record |
| `SearchFilter.ChevroletMissesToyota` | src/pages/Index.tsx:47-53 | no field of the fallback Chevrolet contains "toyota" |
| `SearchFilter.FordMissesToyota` | src/pages/Index.tsx:54-60 | no field of the fallback Ford contains "toyota" |
| `SearchFilter.FallbackToyotaFound` | src/pages/Index.tsx:61-67 | searching the fallback records for "Toyota" gives exactly the Highlander, matched through its title |
| `Pagination.TotalPages` | src/pages/Index.tsx:129 | the page count is the ceiling of n / 6: `n <= 6 * pages < n + 6` |
| `Pagination.SliceIndex` | src/pages/Index.tsx:132 | `slice` reads an index as a position within [0, length] |
| `Pagination.Slice` | src/pages/Index.tsx:132 | `slice` returns at most the list, exactly the segment for in-range indices, and nothing when the end is not past the start |
| `Pagination.StartIndex` | src/pages/Index.tsx:130 | page p >= 1 starts at a non-negative multiple of 6, namely the (p - 1)-th one |
| `Pagination.PageItems` | src/pages/Index.tsx:130-132 | a page holds at most 6 records and no more than the list ("Showing X of Y" has X <= Y) |
| `Pagination.PageIsSegment` | src/pages/Index.tsx:130-132 | page p >= 1 is the contiguous segment starting at (p - 1) * 6, cut at the end of the list |
| `Pagination.PageEmptyIffBeyondLast` | src/pages/Index.tsx:129-132 | pages 1 to totalPages are non-empty and every later page is empty |
| `Pagination.AllPagesPrefix` | src/pages/Index.tsx:129-132 | the first k pages concatenated are the first min(6k, n) records |
| `Pagination.PagesPartitionList` | src/pages/Index.tsx:129-132 | concatenating pages 1 to totalPages reproduces the filtered list exactly |
| `Pagination.ShowsControls` | src/pages/Index.tsx:268 | the pagination controls (`totalPages > 1`) are shown iff there are more than 6 records |
| `Pagination.SixRecordsFitOnePage` | src/pages/Index.tsx:129-132 | with 6 records, page 1 shows all of them and there are no controls |
| `Pagination.PrevPage` | src/pages/Index.tsx:273 | Previous never goes below 1, steps back one page from any page after the first, and stays at 1 on page 1 |
| `Pagination.NextPage` | src/pages/Index.tsx:301 | Next never passes totalPages, steps forward one page from any page before the last, and gives totalPages from the last page or beyond |
| `Pagination.NavigationStaysInRange` | src/pages/Index.tsx:268-310 | from a page in [1, totalPages], Previous and Next stay in [1, totalPages] |
| `Pagination.NextFromStalePage` | src/pages/Index.tsx:301 | from a page past the last, Next goes to the last page |
| `InventoryPage.IndexView.constructor` | src/pages/Index.tsx:104-105 | the page starts with an empty term on page 1, with data still loading |
| `InventoryPage.IndexView.FilteredItems` | src/pages/Index.tsx:116-126 | the listed records come from the loaded data and pass the search; with no term they are all the loaded records |
| `InventoryPage.IndexView.PageCount` | src/pages/Index.tsx:129 | `totalPages` is the ceiling of the listed count over 6 |
| `InventoryPage.IndexView.PaginatedItems` | src/pages/Index.tsx:130-132 | at most 6 records on screen, never more than are listed, and none exactly when the current page is past the last |
| `InventoryPage.IndexView.ShowsPagination` | src/pages/Index.tsx:268 | the controls show iff more than 6 records are listed |
| `InventoryPage.IndexView.ShowsClearSearch` | src/pages/Index.tsx:315-325 | when the "Clear search" empty state shows, no records and no controls are on screen |
| `InventoryPage.IndexView.Load` | src/pages/Index.tsx:72-113 | the data becomes `Fetch` of the outcome; term and page are kept (no clamping), so a page past the new last page shows nothing; the badge reads "Live Data" iff the fetch succeeded; after a failure with no term the fallback records are listed without controls |
| `InventoryPage.IndexView.Search` | src/pages/Index.tsx:135-138 | any term change sets the term and resets to page 1, showing page 1 of the new filter result |
| `InventoryPage.IndexView.Prev` | src/pages/Index.tsx:273 | the page becomes max(page - 1, 1); it stays >= 1 and stays within totalPages if it was |
| `InventoryPage.IndexView.Next` | src/pages/Index.tsx:301 | the page becomes min(page + 1, totalPages) and lies in [1, totalPages] |
| `InventoryPage.IndexView.GoTo` | src/pages/Index.tsx:282-288 | a page button sets the page to its number in 1..totalPages, and that page is non-empty |
| `InventoryPage.IndexView.ClearSearch` | src/pages/Index.tsx:325-327 | Clear search empties the term, returns to page 1, and shows page 1 of the full unfiltered list |
| `InventoryPage.FallbackFitsOnePage` | src/pages/Index.tsx:45-69 | the 3 fallback records fit on one page: demo mode shows them all with no controls |
| `ProxyRewrite.Rewrite` | vite.config.ts:14 | a path starting with `/api/inventory` has that prefix replaced by `/inventory`; any other path is returned unchanged |
| `ProxyRewrite.RewriteReplacesPrefix` | vite.config.ts:14 | a path starting with `/api/inventory` becomes `/inventory` followed by the unchanged remainder |
| `ProxyRewrite.RewriteLeavesNoPrefix` | vite.config.ts:14 | the output never starts with `/api/inventory` |
| `ProxyRewrite.RewriteIdempotent` | vite.config.ts:14 | rewriting twice equals rewriting once |
| `ProxyRewrite.RewriteOnlyLeading` | vite.config.ts:14 | only the leading occurrence is replaced: `/api/inventory/api/inventory` becomes `/inventory/api/inventory` |
| `ProxyRewrite.RewriteNotSegmentBounded` | vite.config.ts:14 | the match ignores path segments: `/api/inventoryX` becomes `/inventoryX` |
| `ProxyRewrite.RewriteKeepsQuery` | vite.config.ts:14 | a `?token=` query after the prefix is kept character for character |
| `ProxyRewrite.RequestKeepsToken` | src/pages/Index.tsx:75 | the page's own request reaches the upstream as `/inventory?token=` with the same token |

## Left out

- Rendering: the JSX, cards, skeletons, icons, CSS classes and the "Showing … of …" text. These are presentation only. The model keeps the quantities the text shows.
- Price and mileage formatting (`parseInt(...).toLocaleString()`), because it is locale-dependent library formatting.
- The real `fetch`, `AbortSignal.timeout(5000)`, the 300 ms fallback delay and the console log. They become the abstract `FetchOutcome`.
- react-query's caching, `retry: false`, the refetch flags and `isRefetching`. Loading is modelled as `data == None`; each completed fetch is a call to `IndexView.Load`.
- Unicode case mapping. Only the 26 ASCII letters change case.
- JavaScript's `String()` coercion of numbers, booleans and objects. A present value is held as the text it would produce.
- A body whose `data` member is present but is not an array. The page would throw while rendering; the model's `data` is either a list of records or absent.
- Elements of `data` that are not objects. A `null` element makes `Object.values` throw with a non-empty term and breaks the card render; a string element is searched character by character. Every element of the model's list is a record.
- The disabled state of the Previous and Next buttons. A click on a disabled button would give the same page anyway (`max(1 - 1, 1) = 1`, `min(total + 1, total) = total`).
- The proxy's `error`, `proxyReq` and `proxyRes` handlers, CORS headers, logging, host, port and timeout settings, and the `@` alias. These are dev-server I/O and configuration.
