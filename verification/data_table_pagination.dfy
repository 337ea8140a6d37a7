/**
 * The server-side pagination controls of `DataTable`,
 * `components/data-table/data-table-pagination.tsx`: prop defaults, the page
 * numbers the handlers report, the range label and the disabled flags.
 */
module DataTablePagination {
  import opened Base

  /** The pagination props as passed; `None` is an omitted (undefined) prop. */
  datatype Props = Props(
    pageCount: Option<int>, pageIndex: Option<int>, pageSize: Option<int>, totalItems: Option<int>,
    hasPageChange: bool, isLoading: Option<bool>)

  /** The props after the destructuring defaults. */
  datatype Pager = Pager(pageCount: int, pageIndex: int, pageSize: int, totalItems: int,
                         hasPageChange: bool, isLoading: bool)

  /** Destructuring with defaults `pageCount = 1, pageIndex = 0, pageSize = 10, totalItems = 0, isLoading = false`. */
  function Resolve(p: Props): (r: Pager)
    ensures r.pageCount == (if p.pageCount.Some? then p.pageCount.value else 1)
    ensures r.pageIndex == (if p.pageIndex.Some? then p.pageIndex.value else 0)
    ensures r.pageSize == (if p.pageSize.Some? then p.pageSize.value else 10)
    ensures r.totalItems == (if p.totalItems.Some? then p.totalItems.value else 0)
    ensures r.isLoading == (p.isLoading.Some? && p.isLoading.value)
    ensures r.hasPageChange == p.hasPageChange
  {
    Pager(p.pageCount.GetOr(1), p.pageIndex.GetOr(0), p.pageSize.GetOr(10), p.totalItems.GetOr(0),
          p.hasPageChange, p.isLoading.GetOr(false))
  }

  /** `handlePreviousPage`: the 1-based page it reports to `onPageChange`, if it calls it. */
  function PreviousPage(p: Pager): (r: Option<int>)
    ensures r.Some? <==> p.hasPageChange && p.pageIndex > 0
    ensures r.Some? ==> r.value == (p.pageIndex + 1) - 1 && r.value >= 1
  {
    if p.hasPageChange && p.pageIndex > 0 then Some(p.pageIndex) else None
  }

  /** `handleNextPage`: the 1-based page it reports, if it calls `onPageChange`. */
  function NextPage(p: Pager): (r: Option<int>)
    ensures r.Some? <==> p.hasPageChange && p.pageIndex < p.pageCount - 1
    ensures r.Some? ==> r.value == (p.pageIndex + 1) + 1 && r.value <= p.pageCount
  {
    if p.hasPageChange && p.pageIndex < p.pageCount - 1 then Some(p.pageIndex + 2) else None
  }

  predicate PreviousDisabled(p: Pager) {
    p.pageIndex == 0 || p.isLoading
  }

  predicate NextDisabled(p: Pager) {
    p.pageIndex >= p.pageCount - 1 || p.isLoading
  }

  /** For a non-negative index the disabled flags are exactly the negated handler guards plus loading:
      an enabled button with a handler always reports a page, a disabled one never could. */
  lemma DisabledMatchesGuards(p: Pager)
    requires p.hasPageChange && p.pageIndex >= 0
    ensures !PreviousDisabled(p) <==> PreviousPage(p).Some? && !p.isLoading
    ensures !NextDisabled(p) <==> NextPage(p).Some? && !p.isLoading
  {
  }

  /** A negative index leaves "previous" enabled although its handler does nothing. */
  lemma NegativeIndexPreviousInert(p: Pager)
    requires p.hasPageChange && p.pageIndex < 0 && !p.isLoading
    ensures !PreviousDisabled(p) && PreviousPage(p).None?
  {
  }

  /** The label `first - last dari total hasil`. */
  datatype Range = Range(first: int, last: int, total: int)

  function Label(p: Pager): (r: Range)
    ensures r.first == p.pageIndex * p.pageSize + 1
    ensures r.last <= (p.pageIndex + 1) * p.pageSize && r.last <= p.totalItems
    ensures r.last == (p.pageIndex + 1) * p.pageSize || r.last == p.totalItems
    ensures r.total == p.totalItems
  {
    var upper := (p.pageIndex + 1) * p.pageSize;
    Range(p.pageIndex * p.pageSize + 1, if upper < p.totalItems then upper else p.totalItems, p.totalItems)
  }

  /** On a page that holds rows the label counts at most one page of them, all within the total. */
  lemma LabelWithinPage(p: Pager)
    requires p.pageSize > 0 && p.pageIndex >= 0 && p.pageIndex * p.pageSize < p.totalItems
    ensures 1 <= Label(p).first <= Label(p).last <= Label(p).total
    ensures Label(p).last - Label(p).first + 1 <= p.pageSize
  {
    assert (p.pageIndex + 1) * p.pageSize == p.pageIndex * p.pageSize + p.pageSize;
  }

  /** With every pagination prop omitted both buttons are disabled, neither handler fires and the label reads 1 - 0 of 0. */
  lemma DefaultsAreInert(hasPageChange: bool)
    ensures var p := Resolve(Props(None, None, None, None, hasPageChange, None));
      PreviousDisabled(p) && NextDisabled(p) && PreviousPage(p).None? && NextPage(p).None?
      && Label(p) == Range(1, 0, 0)
  {
  }
}
