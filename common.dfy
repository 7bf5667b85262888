/**
 * Values shared by the three table components: an optional value (a field
 * that is `undefined` until it is assigned), the paged list body the
 * backend returns, and the outcome of one HTTP call as the subscriber
 * sees it.
 */
module Common {

  /** A field or an input that may still be `undefined` (or `null`). */
  datatype Option<T> = None | Some(value: T)

  /** A paged list body: the rows of one page and the size of the whole remote collection. */
  datatype ListResponse<T> = ListResponse(data: seq<T>, count: nat)

  /**
   * One HTTP call as its subscriber sees it: it either emits a body, or it
   * errors (network error, non-2xx status, bad body: all collapsed).
   */
  datatype FetchResult<T> = Success(body: ListResponse<T>) | Failure
}
