/**
 * The shared links provider (`UrlsProvider`): the cached page of links,
 * `fetchUrls` with its defaults, and `createUrl`/`deleteUrl`, which refetch
 * the default page after the remote call succeeds. The remote create and
 * delete calls are opaque: only their outcome is an input.
 */
module UrlsContext {
  import opened Wrappers
  import opened ApiClient

  /**
   * Who awaits a list response. `ViaTable` is the table's `getUrls`, which
   * stores the page and then the pagination; `ViaContext` is a bare
   * `fetchUrls()` call, which stores only the page.
   */
  datatype Origin = ViaTable | ViaContext

  /** A remote call issued by the client, in the order it is issued. */
  datatype Call =
    | List(origin: Origin, request: ListRequest)
    | Create(url: string, customCode: Option<string>)
    | Delete(shortCode: string)

  /** The provider's state: the cached page of links. */
  datatype Store = Store(urls: seq<ShortLink>)

  /** The provider as first rendered, and the calls its mount effect issues. */
  datatype Mounted = Mounted(store: Store, calls: seq<Call>)

  /** Mounting the provider: an empty cache and one argument-less fetch. */
  function Mount(): (m: Mounted)
    ensures m.store.urls == []
    ensures m.calls == [List(ViaContext, ListRequest(0, 10, CreatedAt, Desc))]
  {
    Mounted(Store([]), [List(ViaContext, WithDefaults(NoArgs))])
  }

  /**
   * The cache once a list call settles: a resolved call replaces the whole
   * page with the response's content; a rejected one throws before the
   * cache is touched.
   */
  function AbsorbList(store: Store, response: Result<ListResponse, ApiError>): (r: Store)
    ensures response.Success? ==> r.urls == response.value.content
    ensures response.Failure? ==> r == store
  {
    match response
    case Success(data) => Store(data.content)
    case Failure(_) => store
  }

  /** A settled `fetchUrls`: the new cache and what the call resolves or rejects with. */
  datatype Fetched = Fetched(store: Store, result: Result<ListResponse, ApiError>)

  /**
   * `fetchUrls(page, size, sortBy, sortDirection)` awaited to the end: it
   * queries the defaulted arguments, replaces the cache with the page it
   * gets and returns the whole response; a rejection leaves the cache as it
   * was and propagates.
   */
  function FetchUrls(store: Store, a: ListArgs, server: Server): (r: Fetched)
    ensures var answer := server(QueryPath(WithDefaults(a)));
            && (answer.Success? ==>
                  r.store.urls == answer.value.data.content && r.result == Success(answer.value.data))
            && (answer.Failure? ==> r.store == store && r.result == Failure(answer.error))
  {
    var result := GetUrls(a, server);
    Fetched(AbsorbList(store, result), result)
  }

  /** A settled `createUrl` or `deleteUrl`: the calls it issued and how it ended. */
  datatype Mutated = Mutated(calls: seq<Call>, result: Outcome<ApiError>)

  /** After a remote mutation: an argument-less refetch on success, the error propagated otherwise. */
  function AfterMutation(remote: Call, outcome: Outcome<ApiError>): (r: Mutated)
    ensures |r.calls| > 0 && r.calls[0] == remote
    ensures r.result == outcome
    ensures outcome.Pass? ==> r.calls == [remote, List(ViaContext, ListRequest(0, 10, CreatedAt, Desc))]
    ensures outcome.Fail? ==> r.calls == [remote]
  {
    match outcome
    case Pass => Mutated([remote, List(ViaContext, WithDefaults(NoArgs))], outcome)
    case Fail(_) => Mutated([remote], outcome)
  }

  /** `createUrl(url, customCode = null)`; `None` stands for the null code. */
  function CreateUrl(url: string, customCode: Option<string>, outcome: Outcome<ApiError>): (r: Mutated)
    ensures |r.calls| > 0 && r.calls[0] == Create(url, customCode)
    ensures r.result == outcome
    ensures outcome.Pass? <==> List(ViaContext, DefaultRequest) in r.calls
  {
    AfterMutation(Create(url, customCode), outcome)
  }

  /** `deleteUrl(shortCode)`. */
  function DeleteUrl(shortCode: string, outcome: Outcome<ApiError>): (r: Mutated)
    ensures |r.calls| > 0 && r.calls[0] == Delete(shortCode)
    ensures r.result == outcome
    ensures outcome.Pass? <==> List(ViaContext, DefaultRequest) in r.calls
  {
    AfterMutation(Delete(shortCode), outcome)
  }
}
