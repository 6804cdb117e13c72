/**
 * The list endpoint of the HTTP client (`apiClient.getUrls`): the records
 * it exchanges, how its optional arguments default, and the query path it
 * requests. The HTTP layer itself is a parameter: a `Server` maps a request
 * path to a response or a rejection.
 */
module ApiClient {
  import opened Wrappers
  import Text

  /** The two columns the list can be sorted by, sent as `sortBy`. */
  datatype SortField = CreatedAt | Clicks

  /** The two sort directions, sent as `sortDirection`. */
  datatype Direction = Asc | Desc

  function FieldName(f: SortField): string {
    match f
    case CreatedAt => "createdAt"
    case Clicks => "clicks"
  }

  function DirectionName(d: Direction): string {
    match d
    case Asc => "ASC"
    case Desc => "DESC"
  }

  /** One row of the link list as the service returns it. */
  datatype ShortLink = ShortLink(shortUrl: string, originalUrl: string, createdAt: string, clicks: nat)

  /** The body of a successful list response: one page of links and the server's pagination. */
  datatype ListResponse = ListResponse(
    content: seq<ShortLink>,
    number: nat,
    size: nat,
    totalPages: nat,
    totalElements: nat)

  /** The JSON body of an error response, whose `message` may be missing. */
  datatype ErrorBody = ErrorBody(message: Option<string>)

  /** The HTTP response attached to a rejected call, whose body may be missing. */
  datatype ErrorResponse = ErrorResponse(status: int, data: Option<ErrorBody>)

  /** A rejected call: `response` is absent for transport failures. */
  datatype ApiError = ApiError(response: Option<ErrorResponse>)

  /** A resolved HTTP call: status and decoded body. */
  datatype HttpResponse = HttpResponse(status: int, data: ListResponse)

  /** The remote service as seen through `GET`: a path answered or rejected. */
  type Server = string -> Result<HttpResponse, ApiError>

  /** A fully determined list query. */
  datatype ListRequest = ListRequest(page: nat, size: nat, sortBy: SortField, sortDirection: Direction)

  /** The arguments of a `getUrls`/`fetchUrls` call; `None` is an omitted (undefined) argument. */
  datatype ListArgs = ListArgs(
    page: Option<nat>,
    size: Option<nat>,
    sortBy: Option<SortField>,
    sortDirection: Option<Direction>)

  const DefaultPage: nat := 0
  const DefaultSize: nat := 10
  const DefaultSortBy: SortField := CreatedAt
  const DefaultDirection: Direction := Desc

  /** A call with every argument omitted. */
  const NoArgs: ListArgs := ListArgs(None, None, None, None)

  /** A call that supplies exactly the fields of `r`. */
  function ArgsOf(r: ListRequest): ListArgs {
    ListArgs(Some(r.page), Some(r.size), Some(r.sortBy), Some(r.sortDirection))
  }

  /** The query a call makes once JavaScript's default parameters are applied. */
  function WithDefaults(a: ListArgs): (r: ListRequest)
    ensures a.page.Some? ==> r.page == a.page.value
    ensures a.page.None? ==> r.page == DefaultPage
    ensures a.size.Some? ==> r.size == a.size.value
    ensures a.size.None? ==> r.size == DefaultSize
    ensures a.sortBy.Some? ==> r.sortBy == a.sortBy.value
    ensures a.sortBy.None? ==> r.sortBy == DefaultSortBy
    ensures a.sortDirection.Some? ==> r.sortDirection == a.sortDirection.value
    ensures a.sortDirection.None? ==> r.sortDirection == DefaultDirection
  {
    ListRequest(
      a.page.GetOr(DefaultPage),
      a.size.GetOr(DefaultSize),
      a.sortBy.GetOr(DefaultSortBy),
      a.sortDirection.GetOr(DefaultDirection))
  }

  /** The query an argument-less call makes. */
  const DefaultRequest: ListRequest := WithDefaults(NoArgs)

  /** The defaults are page 0, ten per page, newest first. */
  lemma DefaultRequestIs()
    ensures DefaultRequest == ListRequest(0, 10, CreatedAt, Desc)
  {
  }

  /** Supplying every argument leaves nothing to default; defaulting twice changes nothing. */
  lemma WithDefaultsKeepsSupplied(r: ListRequest, a: ListArgs)
    ensures WithDefaults(ArgsOf(r)) == r
    ensures WithDefaults(ArgsOf(WithDefaults(a))) == WithDefaults(a)
  {
  }

  const PagePrefix := "/links?page="
  const SizeKey := "&size="
  const SortByKey := "&sortBy="
  const DirectionKey := "&sortDirection="

  /** The path `getUrls` requests: `/links?page=P&size=S&sortBy=B&sortDirection=D`. */
  function QueryPath(r: ListRequest): string {
    PagePrefix + (Text.Decimal(r.page) + SizeTail(r))
  }

  function SizeTail(r: ListRequest): string {
    SizeKey + (Text.Decimal(r.size) + SortTail(r))
  }

  function SortTail(r: ListRequest): string {
    SortByKey + (FieldName(r.sortBy) + (DirectionKey + DirectionName(r.sortDirection)))
  }

  /** `s` with the literal `prefix` removed, if it starts with it. */
  function StripPrefix(prefix: string, s: string): (r: Option<string>)
    ensures r.Some? <==> |prefix| <= |s| && s[..|prefix|] == prefix
    ensures r.Some? ==> s == prefix + r.value
  {
    if |prefix| <= |s| && s[..|prefix|] == prefix then Some(s[|prefix|..]) else None
  }

  /** Reads a leading decimal number and returns it with the rest of `s`. */
  function ReadNumber(s: string): Option<(nat, string)> {
    var k := Text.DigitSpan(s);
    if k == 0 then None else Some((Text.ParseDecimal(s[..k]), s[k..]))
  }

  function ParseDirection(s: string): Option<Direction> {
    if s == "ASC" then Some(Asc) else if s == "DESC" then Some(Desc) else None
  }

  function ParseSortTail(s: string): Option<(SortField, Direction)> {
    match StripPrefix(SortByKey, s)
    case None => None
    case Some(rest) =>
      match StripPrefix(FieldName(CreatedAt) + DirectionKey, rest)
      case Some(d) =>
        (match ParseDirection(d)
         case Some(dir) => Some((CreatedAt, dir))
         case None => None)
      case None =>
        match StripPrefix(FieldName(Clicks) + DirectionKey, rest)
        case Some(d) =>
          (match ParseDirection(d)
           case Some(dir) => Some((Clicks, dir))
           case None => None)
        case None => None
  }

  /**
   * Reads a list query path back into its parameters, key by key in the
   * order `page`, `size`, `sortBy`, `sortDirection`.
   */
  function ParseQueryPath(path: string): Option<ListRequest> {
    match StripPrefix(PagePrefix, path)
    case None => None
    case Some(s1) =>
      match ReadNumber(s1)
      case None => None
      case Some((page, s2)) =>
        match StripPrefix(SizeKey, s2)
        case None => None
        case Some(s3) =>
          match ReadNumber(s3)
          case None => None
          case Some((size, s4)) =>
            match ParseSortTail(s4)
            case None => None
            case Some((field, dir)) => Some(ListRequest(page, size, field, dir))
  }

  /** A number rendered in front of a `&` is read back whole, and the `&` part is what remains. */
  lemma ReadNumberOfDecimal(n: nat, rest: string)
    requires |rest| > 0 && rest[0] == '&'
    ensures ReadNumber(Text.Decimal(n) + rest) == Some((n, rest))
  {
    Text.DigitSpanOfDecimal(n, rest);
    Text.DecimalRoundTrip(n);
  }

  lemma ParseSortTailRoundTrip(r: ListRequest)
    ensures ParseSortTail(SortTail(r)) == Some((r.sortBy, r.sortDirection))
  {
    var rest := FieldName(r.sortBy) + (DirectionKey + DirectionName(r.sortDirection));
    assert StripPrefix(SortByKey, SortTail(r)) == Some(rest);
    var tail := DirectionName(r.sortDirection);
    if r.sortBy == CreatedAt {
      assert rest == (FieldName(CreatedAt) + DirectionKey) + tail;
      assert StripPrefix(FieldName(CreatedAt) + DirectionKey, rest) == Some(tail);
    } else {
      assert rest == (FieldName(Clicks) + DirectionKey) + tail;
      assert rest[..|FieldName(CreatedAt) + DirectionKey|][1] != (FieldName(CreatedAt) + DirectionKey)[1];
      assert StripPrefix(FieldName(CreatedAt) + DirectionKey, rest).None?;
      assert StripPrefix(FieldName(Clicks) + DirectionKey, rest) == Some(tail);
    }
  }

  /** Every list query path can be read back into the request that produced it. */
  lemma {:induction false} QueryPathRoundTrip(r: ListRequest)
    ensures ParseQueryPath(QueryPath(r)) == Some(r)
  {
    var s1 := Text.Decimal(r.page) + SizeTail(r);
    assert StripPrefix(PagePrefix, QueryPath(r)) == Some(s1);
    ReadNumberOfDecimal(r.page, SizeTail(r));
    var s3 := Text.Decimal(r.size) + SortTail(r);
    assert StripPrefix(SizeKey, SizeTail(r)) == Some(s3);
    ReadNumberOfDecimal(r.size, SortTail(r));
    ParseSortTailRoundTrip(r);
  }

  /** Distinct queries are sent as distinct paths. */
  lemma QueryPathInjective(r1: ListRequest, r2: ListRequest)
    requires r1 != r2
    ensures QueryPath(r1) != QueryPath(r2)
  {
    QueryPathRoundTrip(r1);
    QueryPathRoundTrip(r2);
  }

  /**
   * `apiClient.getUrls(page, size, sortBy, sortDirection)`: request the
   * query path of the defaulted arguments and hand back the response body
   * unchanged; a rejection propagates unchanged.
   */
  function GetUrls(a: ListArgs, server: Server): (r: Result<ListResponse, ApiError>)
    ensures var answer := server(QueryPath(WithDefaults(a)));
            && (r.Success? <==> answer.Success?)
            && (r.Success? ==> r.value == answer.value.data)
            && (r.Failure? ==> r.error == answer.error)
  {
    match server(QueryPath(WithDefaults(a)))
    case Success(response) => Success(response.data)
    case Failure(e) => Failure(e)
  }
}
