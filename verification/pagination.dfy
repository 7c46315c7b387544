/** Pagination parameters and their builder (dao/common/pagination.rs). */
module Pagination {
  import opened Wrappers

  const USIZE_BOUND: int := 0x1_0000_0000_0000_0000

  /** Rust's `usize` on a 64-bit target. */
  type Usize = x: int | 0 <= x < USIZE_BOUND

  const DEFAULT_PAGINATION_PAGE: Usize := 1
  const DEFAULT_PAGINATION_LIMIT: Usize := 10

  /** A page number and a page size. The fields are private in the program, so `build` is the
      only way to obtain one. */
  datatype Pagination = Pagination(page: Usize, limit: Usize)

  /** What `build` guarantees of every `Pagination`, so `(page - 1) * limit` cannot underflow. */
  predicate Positive(p: Pagination) {
    p.page >= 1 && p.limit >= 1
  }

  datatype PaginationBuilder = PaginationBuilder(page: Usize, limit: Usize)

  datatype PaginationBuilderError = PageIsZero | LimitIsZero

  /** `PaginationBuilder::default()`. */
  const DefaultBuilder: PaginationBuilder := PaginationBuilder(DEFAULT_PAGINATION_PAGE, DEFAULT_PAGINATION_LIMIT)

  /** `PaginationBuilder::build`: zero page first, then zero limit. */
  function Build(b: PaginationBuilder): (r: Result<Pagination, PaginationBuilderError>)
    ensures r.Success? <==> b.page != 0 && b.limit != 0
    ensures r.Success? ==> r.value.page == b.page && r.value.limit == b.limit && Positive(r.value)
    ensures r == Failure(PageIsZero) <==> b.page == 0
    ensures r == Failure(LimitIsZero) <==> b.page != 0 && b.limit == 0
  {
    if b.page == 0 then Failure(PageIsZero)
    else if b.limit == 0 then Failure(LimitIsZero)
    else Success(Pagination(b.page, b.limit))
  }

  /** The default builder builds page 1 with 10 entries. */
  lemma DefaultBuild()
    ensures Build(DefaultBuilder) == Success(Pagination(1, 10))
  {
  }

  /** Every positive pagination is what building its own fields gives. */
  lemma BuildRoundTrip(p: Pagination)
    ensures Build(PaginationBuilder(p.page, p.limit)) == Success(p) <==> Positive(p)
  {
  }

  /** Display text of the errors (`#[error(...)]`). */
  function Display(e: PaginationBuilderError): string {
    match e
    case PageIsZero => "Page number must be greater than zero"
    case LimitIsZero => "Entites limit must be greater than zero"
  }
}
