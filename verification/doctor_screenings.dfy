/**
 * The doctor's screening list, `app/dashboard/doctor/page.tsx`: the page and
 * search state, the query parameters, the range label and the guarded
 * previous/next buttons.
 */
module DoctorScreenings {
  import opened Base

  const PerPage: int := 10

  /** The list response's `meta`, each part possibly missing. */
  datatype Meta = Meta(lastPage: Option<int>, total: Option<int>)

  /** `data?.meta?.last_page || 1`: a missing or zero page count counts as one page. */
  function TotalPages(meta: Option<Meta>): (r: int)
    ensures meta.Some? && meta.value.lastPage.Some? && meta.value.lastPage.value != 0 ==> r == meta.value.lastPage.value
    ensures !(meta.Some? && meta.value.lastPage.Some? && meta.value.lastPage.value != 0) ==> r == 1
  {
    if meta.Some? && meta.value.lastPage.Some? && meta.value.lastPage.value != 0 then meta.value.lastPage.value else 1
  }

  /** `data?.meta?.total || 0` */
  function GrandTotal(meta: Option<Meta>): (r: int)
    ensures meta.Some? && meta.value.total.Some? ==> r == meta.value.total.value
    ensures !(meta.Some? && meta.value.total.Some?) ==> r == 0
  {
    if meta.Some? && meta.value.total.Some? then meta.value.total.value else 0
  }

  /** The request parameters of the list query. */
  datatype ListQuery = ListQuery(page: int, perPage: int, search: Option<string>)

  /** The range label: `(page - 1) * perPage + 1` to `min(page * perPage, grandTotal)`. */
  datatype Range = Range(first: int, last: int, total: int)

  function RangeLabel(page: int, grandTotal: int): (r: Range)
    ensures r.first == (page - 1) * PerPage + 1
    ensures r.last <= page * PerPage && r.last <= grandTotal
    ensures r.last == page * PerPage || r.last == grandTotal
    ensures r.total == grandTotal
  {
    Range((page - 1) * PerPage + 1, if page * PerPage < grandTotal then page * PerPage else grandTotal, grandTotal)
  }

  /** On a page that has rows the label covers at most ten of them. */
  lemma RangeWithinPage(page: int, grandTotal: int)
    requires page >= 1 && (page - 1) * PerPage < grandTotal
    ensures 1 <= RangeLabel(page, grandTotal).first <= RangeLabel(page, grandTotal).last <= grandTotal
    ensures RangeLabel(page, grandTotal).last - RangeLabel(page, grandTotal).first < PerPage
  {
  }

  /** `currentTotal === 0 && !isFetching`: the "No Data" panel. */
  predicate ShowsEmptyState(rowCount: nat, isFetching: bool) {
    rowCount == 0 && !isFetching
  }

  /** `currentTotal > 0`: the pagination bar. */
  predicate ShowsPagination(rowCount: nat) {
    rowCount > 0
  }

  /** The empty state and the pagination bar never show together; with no rows neither shows while fetching. */
  lemma EmptyStateAndPaginationExclusive(rowCount: nat, isFetching: bool)
    ensures !(ShowsEmptyState(rowCount, isFetching) && ShowsPagination(rowCount))
    ensures rowCount == 0 && isFetching ==> !ShowsEmptyState(rowCount, isFetching) && !ShowsPagination(rowCount)
  {
  }

  class ScreeningsPage {
    var searchInput: string
    var searchQuery: string
    var page: int

    /** The page number never drops below 1. */
    ghost predicate Valid()
      reads this
    {
      page >= 1
    }

    constructor ()
      ensures Valid()
      ensures searchInput == "" && searchQuery == "" && page == 1
    {
      searchInput, searchQuery, page := "", "", 1;
    }

    /** Typing in the search box. */
    method SetSearchInput(text: string)
      modifies this
      ensures searchInput == text && searchQuery == old(searchQuery) && page == old(page)
    {
      searchInput := text;
    }

    /** The debounced effect firing: the typed text becomes the query and the page resets to 1. */
    method ApplySearch()
      modifies this
      ensures Valid()
      ensures searchQuery == searchInput && page == 1 && searchInput == old(searchInput)
    {
      searchQuery := searchInput;
      page := 1;
    }

    /** `search: searchQuery || undefined`: an empty search is not sent. */
    function Query(): (q: ListQuery)
      reads this
      ensures q.page == page && q.perPage == PerPage
      ensures q.search.None? <==> searchQuery == ""
      ensures q.search.Some? ==> q.search.value == searchQuery
    {
      ListQuery(page, PerPage, if searchQuery == "" then None else Some(searchQuery))
    }

    predicate PreviousDisabled(isFetching: bool)
      reads this
    {
      page == 1 || isFetching
    }

    predicate NextDisabled(totalPages: int, isFetching: bool)
      reads this
    {
      page >= totalPages || isFetching
    }

    /** The Previous button: ignored while disabled, otherwise `max(1, page - 1)`. */
    method ClickPrevious(isFetching: bool)
      requires Valid()
      modifies this
      ensures Valid()
      ensures old(PreviousDisabled(isFetching)) ==> page == old(page)
      ensures !old(PreviousDisabled(isFetching)) ==> page == old(page) - 1
      ensures searchInput == old(searchInput) && searchQuery == old(searchQuery)
    {
      if page == 1 || isFetching {
        return;
      }
      page := if page - 1 > 1 then page - 1 else 1;
    }

    /** The Next button: ignored while disabled, otherwise `page + 1`, which never passes `totalPages`. */
    method ClickNext(totalPages: int, isFetching: bool)
      requires Valid()
      modifies this
      ensures Valid()
      ensures old(NextDisabled(totalPages, isFetching)) ==> page == old(page)
      ensures !old(NextDisabled(totalPages, isFetching)) ==> page == old(page) + 1 && page <= totalPages
      ensures searchInput == old(searchInput) && searchQuery == old(searchQuery)
    {
      if page >= totalPages || isFetching {
        return;
      }
      page := page + 1;
    }
  }
}
