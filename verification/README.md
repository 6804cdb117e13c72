# Link table and creation form of a URL-shortener client, in Dafny

This project models the client-side logic of a browser front end for a
link-shortening service: the provider that caches one page of links
(`UrlsProvider`), the paginated, sortable link table (`URLTable`), the
creation form (`URLForm`) and the list query the HTTP client sends
(`apiClient.getUrls`).

The state is immutable and every user event is a pure transition. A
transition returns the new state and the remote calls the event issues,
in order. Remote results are inputs:

- a list response or rejection arrives as its own event;
- the outcome of an opaque create or delete call comes with the click that starts it;
- `apiClient.getUrls` takes the server as a function from request path to response.

Modules, one per source file, plus two helpers:

- `Wrappers`: `Option`, `Result`, `Outcome`.
- `Text`: JavaScript `trim` (ECMAScript whitespace and line terminators) and the decimal rendering of numbers in template literals, with a decimal reader.
- `ApiClient` (`src/services/apiClient.js`): records, argument defaults, the query path and a parser for it.
- `UrlsContext` (`src/UrlsContext.jsx`): the cache, `fetchUrls`, `createUrl`, `deleteUrl`.
- `UrlTable` (`src/components/URLTable.jsx`): pagination and sorting, the events, and the derived view.
- `UrlForm` (`src/components/URLForm.jsx`): inputs, submit, error text and dismiss.
- `Session`: the three components wired together, with lemmas over single steps and whole event sequences.

Each list call carries an origin. The table's own `getUrls` awaits the
response and stores both the page and the pagination (`ViaTable`). A bare
`fetchUrls()` stores only the page (`ViaContext`). The bare calls are the
mount effects and the refetch inside `createUrl`/`deleteUrl`.

## Behaviour of the code worth knowing

- Previous, Next, page-size change and the refresh after a delete call `getUrls` without sort arguments. These requests therefore use `createdAt`/`DESC`, while the header arrows keep showing the clicked column (`UrlTable.NextAfterSortIgnoresHeader`). So a page-size change drops the sort the header still shows.
- After a delete, the table refetches page 0 with all defaults, not the current page.
- The form calls the client's create directly. It issues no list refetch itself; it only invokes the optional `onUrlCreation` callback. The provider's `createUrl` refetches the default page, but the form does not use it.
- The mount effects are bare `fetchUrls()` calls. Until a table-awaited response arrives, the pagination stays `{0, 10, 0, 0}`. Next stays disabled and the footer reports 0 results, however many links the cache holds (`Session.MountedTableCannotPage`).
- A failed create whose `message` is the empty string shows the generic text, because JavaScript's `||` treats `""` as false.

## Model

| member | source | states |
|---|---|---|
| Text.Trim | src/components/URLForm.jsx:15 | the trimmed code has no whitespace at either end, is no longer than the input, and is empty exactly when the input is all whitespace |
| Text.TrimIsInfix | src/components/URLForm.jsx:15 | the input is leading whitespace, then the trimmed code, then trailing whitespace |
| Text.TrimUnique | src/components/URLForm.jsx:15 | any split into whitespace, a middle without whitespace at its ends, and whitespace has that middle as its trim |
| Text.TrimIdempotent | src/components/URLForm.jsx:15 | trimming an already trimmed code changes nothing |
| Text.DecimalRoundTrip | src/services/apiClient.js:5 | the digits interpolated for a page or size read back as that number |
| ApiClient.WithDefaults | src/services/apiClient.js:4 | each supplied argument is used as given; each omitted one becomes 0, 10, createdAt or DESC |
| ApiClient.DefaultRequestIs | src/UrlsContext.jsx:9 | an argument-less fetch asks for page 0, size 10, createdAt, DESC |
| ApiClient.WithDefaultsKeepsSupplied | src/UrlsContext.jsx:9-10 | passing fetchUrls' defaulted arguments on to getUrls defaults nothing a second time |
| ApiClient.QueryPathRoundTrip | src/services/apiClient.js:5 | parsing the path key by key in the order page, size, sortBy, sortDirection gives back exactly the request |
| ApiClient.QueryPathInjective | src/services/apiClient.js:5 | distinct page/size/sortBy/sortDirection tuples are sent as distinct paths |
| ApiClient.GetUrls | src/services/apiClient.js:4-7 | the server is asked for the defaulted query path; its body is returned unchanged and a rejection propagates unchanged |
| UrlsContext.Mount | src/UrlsContext.jsx:25-27 | the cache starts empty and mounting issues one fetch of the default page |
| UrlsContext.AbsorbList | src/UrlsContext.jsx:10-11 | a resolved list call replaces the whole cache with its content; a rejected one leaves the cache as it was |
| UrlsContext.FetchUrls | src/UrlsContext.jsx:9-13 | fetchUrls queries the defaulted arguments, caches the page and returns the whole response; on rejection the cache is untouched and the error propagates |
| UrlsContext.AfterMutation | src/UrlsContext.jsx:15-23 | the remote call comes first; a default-page refetch follows only on success, and the outcome propagates |
| UrlsContext.CreateUrl | src/UrlsContext.jsx:15-18 | create is called with the given URL and code; the default page is refetched iff it succeeded; its error propagates |
| UrlsContext.DeleteUrl | src/UrlsContext.jsx:20-23 | delete is called with the code; the default page is refetched iff it succeeded; its error propagates |
| UrlTable.MountTable | src/components/URLTable.jsx:7-34 | the table starts at page 0, size 10, 0 pages, 0 results, sorted by createdAt/DESC, and its mount effect is a bare default fetch that does not update the pagination |
| UrlTable.ToggledDirection | src/components/URLTable.jsx:37-40 | a click selects DESC exactly when the column is already active and ascending |
| UrlTable.HandleSort | src/components/URLTable.jsx:36-43 | the clicked column becomes active with the toggled direction; page 0 is requested at the current size with that column and direction; the pagination is untouched |
| UrlTable.NewColumnStartsAscending | src/components/URLTable.jsx:37-41 | clicking a column that is not active always makes it ascending |
| UrlTable.SortTwice | src/components/URLTable.jsx:37-41 | two clicks on the active column restore its direction; two clicks on another column leave it descending |
| UrlTable.Previous | src/components/URLTable.jsx:155-157 | when page is not 0, page-1 is requested at the current size under createdAt/DESC; otherwise nothing is requested; the state is unchanged |
| UrlTable.Next | src/components/URLTable.jsx:165-167 | when page < totalPages-1, page+1 is requested at the current size under createdAt/DESC; otherwise nothing is requested; the state is unchanged |
| UrlTable.NavigationStaysInRange | src/components/URLTable.jsx:155-168 | from a consistent pagination, Previous is enabled iff page > 0 and Next iff page+1 < totalPages, and each requests the neighbouring page, which lies in [0, totalPages-1], at the current size |
| UrlTable.InitialNavigationDisabled | src/components/URLTable.jsx:7-12 | in the initial state both navigation buttons are disabled and request nothing |
| UrlTable.PageSizeChange | src/components/URLTable.jsx:54-56 | page 0 is requested at the new size under createdAt/DESC, whatever column is active |
| UrlTable.HandleDelete | src/components/URLTable.jsx:45-52 | delete is called; on success a bare default refetch and then a table default refetch follow; on failure nothing follows |
| UrlTable.AbsorbTableList | src/components/URLTable.jsx:18-30 | on success the cache takes the content and the pagination takes number/size/totalPages/totalElements wholesale; on failure neither changes; sorting is never touched |
| UrlTable.FooterText | src/components/URLTable.jsx:149-151 | the range starts after page x size rows and spans exactly the displayed rows; the page label is page+1 of totalPages |
| UrlTable.FooterRangesAdjoin | src/components/URLTable.jsx:149-150 | after a full page, the next page's range starts right after this page's range ends |
| UrlTable.HeaderArrow | src/components/URLTable.jsx:67-88 | only the active column shows an arrow, and it points up exactly for ASC |
| UrlTable.ViewLogsEnabled | src/components/URLTable.jsx:124 | View Logs is disabled exactly for links with 0 clicks |
| UrlTable.NextAfterSortIgnoresHeader | src/components/URLTable.jsx:166 | after clicking the clicks column, Next requests createdAt while the header shows the arrow on clicks only |
| UrlForm.EditUrl | src/components/URLForm.jsx:43 | typing changes the URL input only |
| UrlForm.EditCode | src/components/URLForm.jsx:57 | typing changes the custom-code input only |
| UrlForm.NormaliseCode | src/components/URLForm.jsx:15 | the code is sent as null exactly when it is all whitespace, and otherwise as its non-empty trim |
| UrlForm.NormaliseCodeStripsPadding | src/components/URLForm.jsx:15 | a code typed with surrounding whitespace is sent as the bare code |
| UrlForm.ErrorMessage | src/components/URLForm.jsx:22 | the message is the response body's non-empty message when present, otherwise "An error occurred"; it is never empty |
| UrlForm.BeginSubmit | src/components/URLForm.jsx:10-15 | submitting first clears the error; create gets the URL exactly as typed and the normalised code |
| UrlForm.CompleteSubmit | src/components/URLForm.jsx:16-23 | on success the callback runs iff one was given and both inputs are emptied; on failure the inputs are kept, no callback runs and the extracted message is shown |
| UrlForm.Submit | src/components/URLForm.jsx:10-24 | a submission with an empty URL is blocked by the required input; otherwise exactly one create is issued and the form ends empty with no error on success, or keeps its inputs with the error shown on failure |
| UrlForm.Dismiss | src/components/URLForm.jsx:74 | dismiss hides the error and leaves both inputs unchanged |
| UrlForm.FailureMessageReplaced | src/components/URLForm.jsx:12-22 | a second failed submission shows its own message, not the earlier one |
| Session.MountPage | src/components/URLTable.jsx:32-34 | after mounting, the cache is empty, the form is empty, the table is in its initial state, and two bare default fetches are issued |
| Session.Step | src/components/URLTable.jsx:18-56 | only list responses change the cache or the pagination; only column clicks change the sorting; table events and list responses, failed ones included, leave the form untouched and run no callback; form events leave the table and cache untouched |
| Session.OnlySortClicksCarrySort | src/components/URLTable.jsx:41-56 | every list request whose sort is not createdAt/DESC was issued by a column click |
| Session.RequestsStayInRange | src/components/URLTable.jsx:155-168 | from a consistent pagination, every list request asks for page 0 or a page below totalPages |
| Session.RefetchOnlyAfterSuccessfulMutation | src/components/URLTable.jsx:45-51 | a delete or submit issues a list refetch exactly when it is a successful delete |
| Session.PaginationChangesOnlyOnTableResponse | src/components/URLTable.jsx:18-30 | the pagination changes only when a table-awaited list response succeeds |
| Session.RunKeepsConsistent | src/components/URLTable.jsx:21-26 | if every response reports a consistent pagination, the table's pagination stays consistent over any sequence of events |
| Session.PaginationFrozen | src/components/URLTable.jsx:18-34 | over any sequence of events without a successful table-awaited response, the pagination does not change |
| Session.MountedTableCannotPage | src/components/URLTable.jsx:32-34 | after mounting, Next stays disabled and the footer total stays 0 until a table-awaited response succeeds |

## Left out

- Markup, styling and the hard-coded short-link host in the link's href: presentation only.
- React mechanics: state batching, and the fact that the refetch inside `createUrl`/`deleteUrl` is not awaited.
- The effect loop on `fetchUrls`. Every successful list response re-renders the provider, which re-creates `fetchUrls` and so re-runs the table's effect. The code therefore sends an endless series of bare default fetches, each of which resets the cached rows to page 0 under createdAt/DESC; after Next, the rows shown soon revert to page 0's. In the model a `ListSettled` event issues no calls, so this loop is not represented.
- Concurrency. Overlapping list calls may settle in any order, and the last one to settle wins. The model lets responses arrive as events in any order but does not tie a response to its request.
- The HTTP layer (`../api`) and the client's create and delete calls. Their code is not part of this model, so only their success or failure is modelled. `src/services/apiClient.js` defines only `getUrls`, so as written both calls throw a TypeError with no `response`, and the form shows "An error occurred". The model keeps both the success and the failure outcome on purpose, so that it also covers a client that does define them.
- `src/App.jsx`: an earlier standalone draft of the list, with one fetch and no other logic.
- The access-log panel. Its fetching, in-memory sorting and paging are not part of the code modelled here.
- `console.log` reporting of swallowed errors.
- What the `onUrlCreation` callback does. It belongs to the unseen parent, so the model only records whether it was invoked.
- Numbers of 10^21 or more, which JavaScript renders in exponent notation. `Text.Decimal` renders every natural number in plain digits.
- Page sizes are any natural number. The select offers only 10, 20 and 50, and `Number(...)` of those values is exact.
