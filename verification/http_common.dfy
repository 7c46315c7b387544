/** The HTTP error type shared by all handlers and the pagination conversions
    (http/common/errors.rs, http/common/dtos.rs). */
module HttpCommon {
  import opened Wrappers
  import opened Text
  import Pagination

  type StatusCode = x: int | 100 <= x < 1000 witness 200

  const OK: StatusCode := 200
  const TEMPORARY_REDIRECT: StatusCode := 307
  const NOT_FOUND: StatusCode := 404
  const CONFLICT: StatusCode := 409
  const UNPROCESSABLE_ENTITY: StatusCode := 422
  const INTERNAL_SERVER_ERROR: StatusCode := 500

  /** An error answer: a status and a plain-text body. */
  datatype AppError = AppError(status: StatusCode, details: string)

  /** A plain-text response. */
  datatype Response = Response(status: StatusCode, body: string)

  /** `IntoResponse for AppError`: the status with the details as body. */
  function IntoResponse(e: AppError): (r: Response)
    ensures r.status == e.status && r.body == e.details
  {
    Response(e.status, e.details)
  }

  // ---------------------------------------------------------------- headers

  /** `http::header::InvalidHeaderValue`: carries no data. */
  datatype InvalidHeaderValue = InvalidHeaderValue

  /** Display text of `InvalidHeaderValue`. */
  const INVALID_HEADER_VALUE_TEXT: string := "failed to parse header value"

  /** `From<InvalidHeaderValue> for AppError`. */
  function FromInvalidHeaderValue(e: InvalidHeaderValue): (r: AppError)
    ensures r.status == UNPROCESSABLE_ENTITY && r.details == INVALID_HEADER_VALUE_TEXT
  {
    AppError(UNPROCESSABLE_ENTITY, INVALID_HEADER_VALUE_TEXT)
  }

  /** `From<PaginationBuilderError> for AppError`: both variants are 422 with their display text. */
  function FromPaginationError(e: Pagination.PaginationBuilderError): (r: AppError)
    ensures r.status == UNPROCESSABLE_ENTITY
    ensures r.details == Pagination.Display(e)
  {
    AppError(UNPROCESSABLE_ENTITY, Pagination.Display(e))
  }

  /** The two variants stay distinguishable to the client through their texts. */
  lemma PaginationErrorsDistinct()
    ensures FromPaginationError(Pagination.PageIsZero) != FromPaginationError(Pagination.LimitIsZero)
  {
    assert Pagination.Display(Pagination.PageIsZero)[0] != Pagination.Display(Pagination.LimitIsZero)[0];
  }

  /** `HeaderValue::from_str` accepts visible ASCII, spaces, tabs and bytes of 128 and above,
      i.e. everything but control characters and DEL. */
  predicate ValidHeaderValue(s: string) {
    forall i :: 0 <= i < |s| ==> s[i] == '\t' || (' ' <= s[i] && s[i] as int != 0x7f)
  }

  function HeaderValueFromStr(s: string): (r: Result<string, InvalidHeaderValue>)
    ensures r.Success? <==> ValidHeaderValue(s)
    ensures r.Success? ==> r.value == s
  {
    if ValidHeaderValue(s) then Success(s) else Failure(InvalidHeaderValue)
  }

  const PAGINATION_LIMIT_HEADER: string := "pagination-limit"
  const PAGINATION_PAGE_HEADER: string := "pagination-page"

  type HeaderMap = map<string, string>

  /** `TryFrom<Pagination> for HeaderMap`: the limit and the page in decimal. The error branch
      is unreachable: decimal digits are always valid header text. */
  function HeadersOf(p: Pagination.Pagination): (r: Result<HeaderMap, InvalidHeaderValue>)
    ensures r.Success?
    ensures r.value.Keys == {PAGINATION_LIMIT_HEADER, PAGINATION_PAGE_HEADER}
    ensures ParseDecimal(r.value[PAGINATION_LIMIT_HEADER]) == Some(p.limit as nat)
    ensures ParseDecimal(r.value[PAGINATION_PAGE_HEADER]) == Some(p.page as nat)
    // the values are the canonical `to_string()` texts: no sign, no leading zeros
    ensures r.value[PAGINATION_LIMIT_HEADER] == Decimal(p.limit)
    ensures r.value[PAGINATION_PAGE_HEADER] == Decimal(p.page)
  {
    DecimalRoundTrip(p.limit);
    DecimalRoundTrip(p.page);
    match (HeaderValueFromStr(Decimal(p.limit)), HeaderValueFromStr(Decimal(p.page)))
    case (Success(limit), Success(page)) => Success(map[PAGINATION_LIMIT_HEADER := limit, PAGINATION_PAGE_HEADER := page])
    case _ => Failure(InvalidHeaderValue)
  }

  // ---------------------------------------------------------------- query parameters

  /** The `page` and `limit` query parameters, each optional. */
  datatype HttpPaginationParams = HttpPaginationParams(page: Option<Pagination.Usize>, limit: Option<Pagination.Usize>)

  /** `TryInto<Pagination> for HttpPaginationParams`: start from the default builder, override
      what is present, build, and turn a builder error into a 422. */
  function ToPagination(q: HttpPaginationParams): (r: Result<Pagination.Pagination, AppError>)
    ensures r.Success? <==> q.page != Some(0) && q.limit != Some(0)
    ensures r.Success? ==>
      && r.value.page == q.page.GetOr(Pagination.DEFAULT_PAGINATION_PAGE)
      && r.value.limit == q.limit.GetOr(Pagination.DEFAULT_PAGINATION_LIMIT)
      && Pagination.Positive(r.value)
    ensures q.page == Some(0) ==>
      r == Failure(AppError(UNPROCESSABLE_ENTITY, "Page number must be greater than zero"))
    ensures q.page != Some(0) && q.limit == Some(0) ==>
      r == Failure(AppError(UNPROCESSABLE_ENTITY, "Entites limit must be greater than zero"))
  {
    var b0 := Pagination.DefaultBuilder;
    var b1 := if q.limit.Some? then b0.(limit := q.limit.value) else b0;
    var b2 := if q.page.Some? then b1.(page := q.page.value) else b1;
    Pagination.Build(b2).MapFailure(FromPaginationError)
  }

  /** An empty query gives the default page. */
  lemma EmptyQueryDefaults()
    ensures ToPagination(HttpPaginationParams(None, None)) == Success(Pagination.Pagination(1, 10))
  {
  }

  /** The headers of a response carry exactly the pagination that was requested: reading them
      back as query parameters rebuilds the same pagination. */
  lemma HeadersRoundTrip(p: Pagination.Pagination)
    requires Pagination.Positive(p)
    ensures var h := HeadersOf(p).value;
      ToPagination(HttpPaginationParams(
        Some(ParseDecimal(h[PAGINATION_PAGE_HEADER]).value),
        Some(ParseDecimal(h[PAGINATION_LIMIT_HEADER]).value))) == Success(p)
  {
  }
}
