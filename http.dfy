/**
 * FastAPI's HTTPException and the three ways an endpoint of the core can end:
 * a value, a raised HTTPException, or any other uncaught Python exception
 * (which FastAPI answers with 500).
 */
module Http {
  import opened Wrappers
  import opened Json

  const BAD_REQUEST := 400
  const UNAUTHORIZED := 401
  const FORBIDDEN := 403
  const NOT_FOUND := 404
  const SERVICE_UNAVAILABLE := 503

  /** An HTTPException: status code, detail and an optional WWW-Authenticate challenge. */
  datatype HttpError = HttpError(status: int, detail: Detail, authenticate: Option<string>)

  /**
   * The `detail` of an HTTPException. `str(e)` of a caught exception is kept
   * symbolic: its rendering belongs to Starlette and to Python.
   */
  datatype Detail =
    | Text(text: string)                // a plain string
    | ReasonPhrase                      // no detail given: the status code's standard phrase
    | JsonDetail(value: Json)           // a decoded JSON value passed through unchanged
    | StrOfHttp(error: HttpError)       // str() of a caught HTTPException
    | StrOfLookup(failure: LookupFailure)  // str() of a caught KeyError or TypeError
    | StrOfFault(fault: Fault)          // str() of any other caught exception

  /** An uncaught Python exception. */
  datatype Fault =
    | TransportFault            // an aiohttp error left unhandled
    | BodyFault(text: string)   // any other error while reading a response, left unhandled
    | LookupFault(failure: LookupFailure)
    | IndexFault                // a TypeError or KeyError from `value[0]`
    | ValidationFault           // pydantic rejected a record
    | AttributeFault(name: string)
    | UnknownStatus(status: int)  // ValueError: the code is not in Python's http.HTTPStatus
    | OverflowFault             // OverflowError: a datetime outside year 1 to year 9999

  datatype Outcome<+T> = Returned(value: T) | Raised(error: HttpError) | Crashed(fault: Fault)

  /** An HTTPException without a challenge header. */
  function Error(status: int, detail: string): (e: HttpError)
  {
    HttpError(status, Text(detail), None)
  }

  /** The codes Python's `http.HTTPStatus` lists, each with its standard reason phrase. */
  predicate HasReasonPhrase(status: int) {
    || 100 <= status <= 103
    || 200 <= status <= 208 || status == 226
    || 300 <= status <= 305 || status == 307 || status == 308
    || 400 <= status <= 418 || 421 <= status <= 426 || status == 428 || status == 429
    || status == 431 || status == 451
    || 500 <= status <= 508 || status == 510 || status == 511
  }

  /**
   * Starlette's `HTTPException(status_code=status, detail=detail)`. Without a
   * detail the constructor looks up the status's reason phrase, and that
   * lookup raises ValueError for a code Python's table does not list.
   */
  function NewHttpException(status: int, detail: Option<Detail>): (r: Result<HttpError, Fault>)
  {
    match detail
    case Some(d) => Ok(HttpError(status, d, None))
    case None => if HasReasonPhrase(status) then Ok(HttpError(status, ReasonPhrase, None)) else Err(UnknownStatus(status))
  }
}
