/**
 * The mounted page as one state machine: the provider's cache, the table
 * and the form, driven by user events and by list responses arriving for
 * calls issued earlier. Every step yields the new state, the remote calls
 * it issued in order, and whether the form's creation callback ran.
 */
module Session {
  import opened Wrappers
  import opened ApiClient
  import opened UrlsContext
  import opened UrlTable
  import opened UrlForm

  datatype State = State(store: Store, table: Table, form: Form)

  /** What can happen next. Remote outcomes of mutations arrive with the click that starts them. */
  datatype Event =
    | SortClick(field: SortField)
    | PreviousClick
    | NextClick
    | PageSizeSelect(size: nat)
    | DeleteClick(shortCode: string, deleted: Outcome<ApiError>)
    | UrlTyped(url: string)
    | CodeTyped(code: string)
    | SubmitClick(hasCallback: bool, created: Outcome<ApiError>)
    | DismissClick
    | ListSettled(origin: Origin, response: Result<ListResponse, ApiError>)

  datatype Effect = Effect(state: State, calls: seq<Call>, notified: bool)

  /**
   * Mounting provider, form and table. React runs the table's effect
   * before the provider's; both are bare `fetchUrls()` calls.
   */
  function MountPage(): (r: Effect)
    ensures r.state.store.urls == [] && r.state.form == InitialForm
    ensures r.state.table.pagination == Pagination(0, 10, 0, 0)
    ensures r.state.table.sorting == Sorting(CreatedAt, Desc)
    ensures r.calls == [List(ViaContext, DefaultRequest), List(ViaContext, DefaultRequest)]
  {
    var provider := UrlsContext.Mount();
    var table := MountTable();
    Effect(State(provider.store, table.table, InitialForm), table.calls + provider.calls, false)
  }

  function FromTable(s: State, step: TableStep): Effect {
    Effect(s.(table := step.table), step.calls, false)
  }

  /** One event applied to the page. */
  function Step(s: State, e: Event): (r: Effect)
    ensures !e.ListSettled? ==> r.state.store == s.store
    ensures !e.ListSettled? ==> r.state.table.pagination == s.table.pagination
    ensures !e.SortClick? ==> r.state.table.sorting == s.table.sorting
    ensures (e.SortClick? || e.PreviousClick? || e.NextClick? || e.PageSizeSelect? || e.DeleteClick? || e.ListSettled?)
              ==> r.state.form == s.form && !r.notified
    ensures (e.UrlTyped? || e.CodeTyped? || e.SubmitClick? || e.DismissClick?)
              ==> r.state.table == s.table && r.state.store == s.store
  {
    match e
    case SortClick(field) => FromTable(s, HandleSort(s.table, field))
    case PreviousClick => FromTable(s, Previous(s.table))
    case NextClick => FromTable(s, Next(s.table))
    case PageSizeSelect(n) => FromTable(s, PageSizeChange(s.table, n))
    case DeleteClick(code, deleted) => FromTable(s, HandleDelete(s.table, code, deleted))
    case UrlTyped(url) => Effect(s.(form := EditUrl(s.form, url)), [], false)
    case CodeTyped(code) => Effect(s.(form := EditCode(s.form, code)), [], false)
    case SubmitClick(hasCallback, created) =>
      var submitted := Submit(s.form, hasCallback, created);
      Effect(s.(form := submitted.form), submitted.calls, submitted.notified)
    case DismissClick => Effect(s.(form := Dismiss(s.form)), [], false)
    case ListSettled(ViaContext, response) => Effect(s.(store := AbsorbList(s.store, response)), [], false)
    case ListSettled(ViaTable, response) =>
      var absorbed := AbsorbTableList(s.store, s.table, response);
      Effect(s.(store := absorbed.0, table := absorbed.1), [], false)
  }

  /** The only request that carries a sort other than createdAt/DESC is the one a column click issues. */
  lemma OnlySortClicksCarrySort(s: State, e: Event)
    ensures forall c :: c in Step(s, e).calls ==>
              c.List? && (c.request.sortBy != CreatedAt || c.request.sortDirection != Desc) ==> e.SortClick?
  {
  }

  /** Every list request starts at page 0 or asks for a page the current (consistent) pagination reports. */
  lemma RequestsStayInRange(s: State, e: Event)
    requires Consistent(s.table.pagination)
    ensures forall c :: c in Step(s, e).calls && c.List? ==>
              c.request.page == 0 || c.request.page < s.table.pagination.totalPages
  {
  }

  /** A list refetch follows a mutation only when the mutation succeeded; a create never triggers one. */
  lemma RefetchOnlyAfterSuccessfulMutation(s: State, e: Event)
    requires e.DeleteClick? || e.SubmitClick?
    ensures (exists c :: c in Step(s, e).calls && c.List?) <==> e.DeleteClick? && e.deleted.Pass?
  {
    if e.DeleteClick? && e.deleted.Pass? {
      assert Step(s, e).calls[1] == List(ViaContext, DefaultRequest);
    }
  }

  /** The pagination changes only when a response the table awaited arrives successfully. */
  lemma PaginationChangesOnlyOnTableResponse(s: State, e: Event)
    requires Step(s, e).state.table.pagination != s.table.pagination
    ensures e.ListSettled? && e.origin == ViaTable && e.response.Success?
  {
  }

  /** A successful response carrying a pagination a server can report. */
  predicate ConsistentResponse(e: Event) {
    e.ListSettled? && e.response.Success? ==> e.response.value.number == 0 || e.response.value.number < e.response.value.totalPages
  }

  /** The page state after a sequence of events (the calls they issue are dropped). */
  function Run(s: State, events: seq<Event>): State
    decreases |events|
  {
    if |events| == 0 then s else Run(Step(s, events[0]).state, events[1..])
  }

  /** Consistent responses keep the pagination consistent. */
  lemma {:induction false} RunKeepsConsistent(s: State, events: seq<Event>)
    requires Consistent(s.table.pagination)
    requires forall i :: 0 <= i < |events| ==> ConsistentResponse(events[i])
    ensures Consistent(Run(s, events).table.pagination)
    decreases |events|
  {
    if |events| > 0 {
      var next := Step(s, events[0]).state;
      assert ConsistentResponse(events[0]);
      if next.table.pagination != s.table.pagination {
        PaginationChangesOnlyOnTableResponse(s, events[0]);
      }
      RunKeepsConsistent(next, events[1..]);
    }
  }

  /** Whether an event is a successful response to a call the table awaited. */
  predicate TableResponse(e: Event) {
    e.ListSettled? && e.origin == ViaTable && e.response.Success?
  }

  /** Without a successful table-awaited response, the pagination never changes. */
  lemma {:induction false} PaginationFrozen(s: State, events: seq<Event>)
    requires forall i :: 0 <= i < |events| ==> !TableResponse(events[i])
    ensures Run(s, events).table.pagination == s.table.pagination
    decreases |events|
  {
    if |events| > 0 {
      var next := Step(s, events[0]).state;
      if next.table.pagination != s.table.pagination {
        PaginationChangesOnlyOnTableResponse(s, events[0]);
      }
      PaginationFrozen(next, events[1..]);
    }
  }

  /**
   * The mount fetches are bare `fetchUrls()` calls, so however many links
   * their responses bring, Next stays disabled and the footer reports 0
   * results until a column click, page-size change or delete has its own
   * response arrive.
   */
  lemma MountedTableCannotPage(events: seq<Event>)
    requires forall i :: 0 <= i < |events| ==> !TableResponse(events[i])
    ensures var p := Run(MountPage().state, events).table.pagination;
            !NextEnabled(p) && p.totalElements == 0
  {
    PaginationFrozen(MountPage().state, events);
  }
}
