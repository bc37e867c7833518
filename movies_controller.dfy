/**
 * `MoviesController.findAll`: the listing's query-string defaults and the parsing
 * of the `filters` parameter, before delegating to `MoviesService.findAll`.
 */
module MoviesController {
  import opened Http
  import Movies

  /** A JavaScript number as far as the controller cares: NaN or a finite value. */
  datatype JsNumber = NaN | Num(value: real)

  predicate TruthyNumber(n: JsNumber)
  {
    n.Num? && n.value != 0.0
  }

  /** Unary plus on an optional query value; `+undefined` is NaN. */
  function ToNumber(s: Option<string>, parseNumber: string -> JsNumber): (n: JsNumber)
    ensures s.None? ==> n == NaN
  {
    if s.None? then NaN else parseNumber(s.value)
  }

  /** `x || fallback` for numbers. */
  function OrElse(x: JsNumber, fallback: JsNumber): (r: JsNumber)
    ensures TruthyNumber(x) ==> r == x
    ensures !TruthyNumber(x) ==> r == fallback
  {
    if TruthyNumber(x) then x else fallback
  }

  /** What `JSON.parse` does with the `filters` string. */
  datatype ParseOutcome = Parsed(filters: seq<Movies.FilterDescriptor>) | SyntaxError(message: string)

  /** The query string of `GET /movies`. */
  datatype FindAllQuery = FindAllQuery(page: Option<string>, limit: Option<string>, filters: Option<string>)

  /** The arguments `findAll` passes to the service. */
  datatype FindAllArgs = FindAllArgs(page: JsNumber, limit: JsNumber, filters: seq<Movies.FilterDescriptor>)

  /**
   * The controller's decision: `limit` is the numeric limit or `DEFAULT_PAGE_SIZE`,
   * `page` the numeric page or 1, `filters` the parsed list or `[]` when absent or
   * empty; a filters string that does not parse is BadRequest.
   */
  function FindAll(query: FindAllQuery, defaultPageSize: JsNumber,
                   parseNumber: string -> JsNumber, parse: string -> ParseOutcome): (r: Result<FindAllArgs>)
    ensures r.Err? <==> query.filters.Some? && query.filters.value != "" && parse(query.filters.value).SyntaxError?
    ensures r.Err? ==> r.error == BadRequest(parse(query.filters.value).message)
    ensures r.Ok? ==> TruthyNumber(r.value.page)
    ensures r.Ok? && TruthyNumber(ToNumber(query.page, parseNumber)) ==> r.value.page == ToNumber(query.page, parseNumber)
    ensures r.Ok? && !TruthyNumber(ToNumber(query.page, parseNumber)) ==> r.value.page == Num(1.0)
    ensures r.Ok? && TruthyNumber(ToNumber(query.limit, parseNumber)) ==> r.value.limit == ToNumber(query.limit, parseNumber)
    ensures r.Ok? && !TruthyNumber(ToNumber(query.limit, parseNumber)) ==> r.value.limit == defaultPageSize
    ensures r.Ok? && (query.filters.None? || query.filters.value == "") ==> r.value.filters == []
    ensures r.Ok? && query.filters.Some? && query.filters.value != "" ==> r.value.filters == parse(query.filters.value).filters
  {
    var limit := OrElse(ToNumber(query.limit, parseNumber), defaultPageSize);
    var page := OrElse(ToNumber(query.page, parseNumber), Num(1.0));
    if query.filters.Some? && query.filters.value != "" then
      match parse(query.filters.value)
      case SyntaxError(message) => Err(BadRequest(message))
      case Parsed(filters) => Ok(FindAllArgs(page, limit, filters))
    else Ok(FindAllArgs(page, limit, []))
  }

  /** `{page: 1, limit: 10}` without filters reaches the service as `(1, 10, [])`. */
  lemma FirstPageOfTen(defaultPageSize: JsNumber, parseNumber: string -> JsNumber, parse: string -> ParseOutcome)
    requires parseNumber("1") == Num(1.0) && parseNumber("10") == Num(10.0)
    ensures FindAll(FindAllQuery(Some("1"), Some("10"), None), defaultPageSize, parseNumber, parse)
         == Ok(FindAllArgs(Num(1.0), Num(10.0), []))
  {
  }

  /** A listing with no parameters at all asks for page 1 of `DEFAULT_PAGE_SIZE`. */
  lemma NoParametersUseDefaults(defaultPageSize: JsNumber, parseNumber: string -> JsNumber, parse: string -> ParseOutcome)
    ensures FindAll(FindAllQuery(None, None, None), defaultPageSize, parseNumber, parse)
         == Ok(FindAllArgs(Num(1.0), defaultPageSize, []))
  {
  }
}
