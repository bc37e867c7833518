/** The parts of Express's request and response objects the middlewares touch. */
module Express {
  import opened Http

  /** A decoded JWT payload, as the plain object `verifyAsync` resolves to. */
  type Claims = map<string, string>

  /** `!!s` for a possibly undefined string: defined and non-empty. */
  predicate Truthy(s: Option<string>)
  {
    s.Some? && s.value != ""
  }

  /** An incoming request; header names are stored lower-cased, as Node does. */
  class Request {
    var headers: map<string, string>
    var query: map<string, string>
    /** `req.user`, set by the authentication middleware. */
    var user: Option<Claims>

    constructor (headers: map<string, string>, query: map<string, string>)
      ensures this.headers == headers && this.query == query && user.None?
    {
      this.headers := headers;
      this.query := query;
      user := None;
    }

    /** The value of a header or of a query parameter, `undefined` when absent. */
    function Header(name: string): Option<string>
      reads this
    {
      if name in headers then Some(headers[name]) else None
    }

    function QueryValue(name: string): Option<string>
      reads this
    {
      if name in query then Some(query[name]) else None
    }
  }

  /** One entry of the `errors` array of an error body. */
  datatype ErrorEntry = ErrorEntry(code: string, message: string)

  /** What a middleware writes with `res.status(...).send(...)`. */
  class Response {
    var status: Option<int>
    var body: Option<seq<ErrorEntry>>

    constructor ()
      ensures status.None? && body.None?
    {
      status := None;
      body := None;
    }

    method Send(status: int, errors: seq<ErrorEntry>)
      modifies this
      ensures this.status == Some(status) && body == Some(errors)
    {
      this.status := Some(status);
      body := Some(errors);
    }
  }

  /** The `next` callback of a middleware, counting its calls. */
  class Next {
    var calls: nat

    constructor ()
      ensures calls == 0
    {
      calls := 0;
    }

    method Call()
      modifies this
      ensures calls == old(calls) + 1
    {
      calls := calls + 1;
    }
  }
}
