/**
 * The link table (`URLTable`): its pagination and sorting state, the
 * events that issue list calls (column clicks, Previous/Next, page size,
 * delete), how a list response it awaits updates it, and the derived view
 * (footer text, button enablement, header arrows).
 */
module UrlTable {
  import opened Wrappers
  import opened ApiClient
  import opened UrlsContext

  /** The pagination the table shows, as last reported by a list response it awaited. */
  datatype Pagination = Pagination(page: nat, size: nat, totalPages: nat, totalElements: nat)

  /** The column and direction the header shows as active. */
  datatype Sorting = Sorting(sortBy: SortField, sortDirection: Direction)

  datatype Table = Table(pagination: Pagination, sorting: Sorting)

  /** The table's state before any response: page 0 of nothing, ten per page, newest first. */
  const InitialTable: Table := Table(Pagination(0, 10, 0, 0), Sorting(CreatedAt, Desc))

  /** A table event's effect: the table afterwards and the remote calls issued, in order. */
  datatype TableStep = TableStep(table: Table, calls: seq<Call>)

  /** The table's own `getUrls(...)`: a list call whose response the table awaits. */
  function TableFetch(a: ListArgs): Call {
    List(ViaTable, WithDefaults(a))
  }

  /** Mounting the table: its effect calls `fetchUrls()` directly, so the response never reaches the pagination. */
  function MountTable(): (r: TableStep)
    ensures r.table == Table(Pagination(0, 10, 0, 0), Sorting(CreatedAt, Desc))
    ensures r.calls == [List(ViaContext, DefaultRequest)]
  {
    TableStep(InitialTable, [List(ViaContext, WithDefaults(NoArgs))])
  }

  /** The direction a click on `field` selects: DESC only when `field` is already active and ascending. */
  function ToggledDirection(s: Sorting, field: SortField): (d: Direction)
    ensures d == Desc <==> s.sortBy == field && s.sortDirection == Asc
  {
    if s.sortBy == field && s.sortDirection == Asc then Desc else Asc
  }

  /**
   * `handleSort(field)`: make `field` the active column with the toggled
   * direction and request page 0 of it at the current page size.
   */
  function HandleSort(t: Table, field: SortField): (r: TableStep)
    ensures r.table.pagination == t.pagination
    ensures r.table.sorting.sortBy == field
    ensures r.table.sorting.sortDirection == Desc <==> t.sorting.sortBy == field && t.sorting.sortDirection == Asc
    ensures r.calls == [List(ViaTable, ListRequest(0, t.pagination.size, field, r.table.sorting.sortDirection))]
  {
    var direction := ToggledDirection(t.sorting, field);
    TableStep(Table(t.pagination, Sorting(field, direction)),
         [TableFetch(ArgsOf(ListRequest(0, t.pagination.size, field, direction)))])
  }

  /** A click on a column that is not active always starts ascending. */
  lemma NewColumnStartsAscending(t: Table, field: SortField)
    requires t.sorting.sortBy != field
    ensures HandleSort(t, field).table.sorting == Sorting(field, Asc)
  {
  }

  /**
   * Two clicks on the same column: on the active column they restore its
   * direction; on another column they end descending (ASC, then DESC).
   */
  lemma SortTwice(t: Table, field: SortField)
    ensures var t2 := HandleSort(HandleSort(t, field).table, field).table;
            && t2.sorting.sortBy == field
            && (t.sorting.sortBy == field ==> t2.sorting == t.sorting)
            && (t.sorting.sortBy != field ==> t2.sorting.sortDirection == Desc)
  {
  }

  /** Previous is disabled exactly on page 0. */
  predicate PreviousEnabled(p: Pagination) {
    p.page != 0
  }

  /** Next is disabled once the page is at or past the last one (and so whenever there are no pages). */
  predicate NextEnabled(p: Pagination) {
    !(p.page >= p.totalPages - 1)
  }

  /**
   * Previous: when enabled, `getUrls(page - 1, size)`, which leaves the
   * sort arguments to their defaults; when disabled, nothing.
   */
  function Previous(t: Table): (r: TableStep)
    ensures r.table == t
    ensures PreviousEnabled(t.pagination) ==>
              r.calls == [List(ViaTable, ListRequest(t.pagination.page - 1, t.pagination.size, CreatedAt, Desc))]
    ensures !PreviousEnabled(t.pagination) ==> r.calls == []
  {
    if t.pagination.page == 0 then TableStep(t, [])
    else TableStep(t, [TableFetch(ListArgs(Some(t.pagination.page - 1), Some(t.pagination.size), None, None))])
  }

  /** Next: when enabled, `getUrls(page + 1, size)` with default sort arguments; when disabled, nothing. */
  function Next(t: Table): (r: TableStep)
    ensures r.table == t
    ensures NextEnabled(t.pagination) ==>
              r.calls == [List(ViaTable, ListRequest(t.pagination.page + 1, t.pagination.size, CreatedAt, Desc))]
    ensures !NextEnabled(t.pagination) ==> r.calls == []
  {
    if t.pagination.page >= t.pagination.totalPages - 1 then TableStep(t, [])
    else TableStep(t, [TableFetch(ListArgs(Some(t.pagination.page + 1), Some(t.pagination.size), None, None))])
  }

  /** A pagination a server can report: page 0 when there are no pages, a real page otherwise. */
  predicate Consistent(p: Pagination) {
    p.page == 0 || p.page < p.totalPages
  }

  /**
   * An enabled navigation button requests a neighbouring page that exists
   * (from a consistent pagination), at the current size. Previous is
   * enabled iff the page is not 0; Next iff a later page exists.
   */
  lemma NavigationStaysInRange(t: Table)
    requires Consistent(t.pagination)
    ensures PreviousEnabled(t.pagination) <==> t.pagination.page > 0
    ensures NextEnabled(t.pagination) <==> t.pagination.page + 1 < t.pagination.totalPages
    ensures forall c :: c in Previous(t).calls ==>
              c.List? && c.request.size == t.pagination.size
              && c.request.page + 1 == t.pagination.page && c.request.page < t.pagination.totalPages
    ensures forall c :: c in Next(t).calls ==>
              c.List? && c.request.size == t.pagination.size
              && c.request.page == t.pagination.page + 1 && c.request.page < t.pagination.totalPages
  {
  }

  /** Before any table response both navigation buttons are disabled. */
  lemma InitialNavigationDisabled()
    ensures !PreviousEnabled(InitialTable.pagination) && !NextEnabled(InitialTable.pagination)
    ensures Previous(InitialTable).calls == [] && Next(InitialTable).calls == []
  {
  }

  /**
   * `handlePageSizeChange(n)`: `getUrls(0, n)`, which requests page 0 at
   * the new size under the default sort, whatever column is active.
   */
  function PageSizeChange(t: Table, n: nat): (r: TableStep)
    ensures r.table == t
    ensures r.calls == [List(ViaTable, ListRequest(0, n, CreatedAt, Desc))]
  {
    TableStep(t, [TableFetch(ListArgs(Some(0), Some(n), None, None))])
  }

  /**
   * `handleDeleteUrl(code)`: the provider's `deleteUrl`, and after it
   * succeeds the table's own argument-less `getUrls()`. A failed delete is
   * only logged.
   */
  function HandleDelete(t: Table, shortCode: string, outcome: Outcome<ApiError>): (r: TableStep)
    ensures r.table == t
    ensures outcome.Pass? ==>
              r.calls == [Delete(shortCode), List(ViaContext, ListRequest(0, 10, CreatedAt, Desc)),
                          List(ViaTable, ListRequest(0, 10, CreatedAt, Desc))]
    ensures outcome.Fail? ==> r.calls == [Delete(shortCode)]
  {
    var deleted := DeleteUrl(shortCode, outcome);
    match deleted.result
    case Pass => TableStep(t, deleted.calls + [TableFetch(NoArgs)])
    case Fail(_) => TableStep(t, deleted.calls)
  }

  /**
   * A list response the table awaited: on success the provider stores the
   * page and the table takes the response's pagination wholesale; a
   * rejection changes neither. The sorting is never touched.
   */
  function AbsorbTableList(store: Store, t: Table, response: Result<ListResponse, ApiError>): (r: (Store, Table))
    ensures response.Success? ==>
              && r.0.urls == response.value.content
              && r.1.pagination.page == response.value.number
              && r.1.pagination.size == response.value.size
              && r.1.pagination.totalPages == response.value.totalPages
              && r.1.pagination.totalElements == response.value.totalElements
    ensures response.Failure? ==> r.0 == store && r.1 == t
    ensures r.1.sorting == t.sorting
  {
    match response
    case Success(data) =>
      (AbsorbList(store, response),
       Table(Pagination(data.number, data.size, data.totalPages, data.totalElements), t.sorting))
    case Failure(_) => (store, t)
  }

  /** The footer: "Showing first-last of total results" and "Page number of count". */
  datatype Footer = Footer(first: int, last: int, total: nat, pageNumber: nat, pageCount: nat)

  /** The footer text for pagination `p` while `rows` links are displayed. */
  function FooterText(p: Pagination, rows: seq<ShortLink>): (f: Footer)
    ensures f.last - f.first + 1 == |rows|
    ensures f.first - 1 == p.page * p.size
    ensures f.pageNumber == p.page + 1 && f.pageCount == p.totalPages && f.total == p.totalElements
  {
    Footer(p.page * p.size + 1, p.page * p.size + |rows|, p.totalElements, p.page + 1, p.totalPages)
  }

  /**
   * On a full page the footer's range ends where the next page's begins,
   * so consecutive pages show adjoining ranges.
   */
  lemma FooterRangesAdjoin(p: Pagination, rows: seq<ShortLink>, next: seq<ShortLink>)
    requires |rows| == p.size
    ensures FooterText(Pagination(p.page + 1, p.size, p.totalPages, p.totalElements), next).first
            == FooterText(p, rows).last + 1
  {
  }

  /** The arrows a header can show. */
  datatype Arrow = Up | Down

  /** The arrow next to a sortable column header: on the active column only, up for ASC. */
  function HeaderArrow(s: Sorting, column: SortField): (a: Option<Arrow>)
    ensures a.Some? <==> s.sortBy == column
    ensures a == Some(Up) <==> s.sortBy == column && s.sortDirection == Asc
  {
    if s.sortBy == column then Some(if s.sortDirection == Asc then Up else Down) else None
  }

  /** View Logs is disabled exactly for links nobody has visited. */
  function ViewLogsEnabled(link: ShortLink): (enabled: bool)
    ensures !enabled <==> link.clicks == 0
  {
    !(link.clicks == 0)
  }

  /**
   * After a column click, Next requests the default sort while the header
   * still shows the clicked column: the next page is not the next page of
   * what the header claims.
   */
  lemma NextAfterSortIgnoresHeader(t: Table)
    requires NextEnabled(t.pagination)
    ensures var sorted := HandleSort(t, Clicks).table;
            && HeaderArrow(sorted.sorting, Clicks).Some?
            && Next(sorted).calls[0].request.sortBy == CreatedAt
            && HeaderArrow(sorted.sorting, CreatedAt).None?
  {
  }
}
