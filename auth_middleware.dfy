/**
 * The authentication middleware: a bearer token taken from the `authorization`
 * header is checked by the JWT verifier; a missing or rejected token answers 401,
 * an accepted one puts the decoded payload on the request.
 */
module Auth {
  import opened Http
  import opened Strings
  import opened Express

  /** The single entry of the 401 body's `errors` array. */
  const NotAuthorized: ErrorEntry := ErrorEntry("USER_NOT_AUTHORIZED", "User credentials are invalid")

  /**
   * `getAuthTokenFromRequest`: when the header is set and its first space-separated
   * piece is `Bearer`, the second piece (undefined if there is none); otherwise null.
   */
  function AuthToken(authorization: Option<string>): (token: Option<string>)
    ensures token.Some? ==> Truthy(authorization) && Split(authorization.value, ' ')[0] == "Bearer"
    ensures token.Some? ==> ' ' !in token.value
  {
    if Truthy(authorization) && Split(authorization.value, ' ')[0] == "Bearer" then
      var parts := Split(authorization.value, ' ');
      if |parts| >= 2 then Some(parts[1]) else None
    else None
  }

  /** `Bearer <token>`, optionally followed by a space and anything, yields `<token>`. */
  lemma BearerHeaderYieldsToken(token: string, rest: string)
    requires ' ' !in token
    requires rest == [] || rest[0] == ' '
    ensures AuthToken(Some("Bearer " + token + rest)) == Some(token)
  {
    var s := "Bearer " + token + rest;
    assert s == "Bearer" + [' '] + (token + rest);
    SplitAfterPiece("Bearer", token + rest, ' ');
    FirstPiece(token, rest, ' ');
  }

  /**
   * Conversely, a token is extracted only from a header of that shape: `Bearer`, one
   * space, the space-free token, then the end or another space.
   */
  lemma TokenOnlyFromBearerHeader(authorization: Option<string>)
    requires AuthToken(authorization).Some?
    ensures var token := AuthToken(authorization).value;
            exists rest :: (rest == [] || rest[0] == ' ') && authorization.value == "Bearer " + token + rest
  {
    var s := authorization.value;
    var parts := Split(s, ' ');
    var token := parts[1];
    JoinSplit(s, ' ');
    JoinCons(parts[0], parts[1..], ' ');
    assert parts == [parts[0]] + parts[1..];
    assert parts[1..] == [token] + parts[2..];
    JoinCons(token, parts[2..], ' ');
    var rest := if parts[2..] == [] then "" else [' '] + Join(parts[2..], ' ');
    assert s == "Bearer " + token + rest;
  }

  /** `jwtService.verifyAsync`, recording the tokens it is given. */
  class JwtVerifier {
    /** The decoded payload of a valid token; None where verification rejects. */
    const decode: string -> Option<Claims>
    var received: seq<string>

    constructor (decode: string -> Option<Claims>)
      ensures this.decode == decode && received == []
    {
      this.decode := decode;
      received := [];
    }

    method VerifyAsync(token: string) returns (r: Option<Claims>)
      modifies this
      ensures r == decode(token) && received == old(received) + [token]
    {
      received := received + [token];
      r := decode(token);
    }
  }

  class AuthMiddleware {
    const jwtService: JwtVerifier

    constructor (jwtService: JwtVerifier)
      ensures this.jwtService == jwtService
    {
      this.jwtService := jwtService;
    }

    /**
     * `use`: without a truthy token, 401 and neither the verifier nor `next` called;
     * otherwise the verifier gets exactly the token, and either `req.user` is the
     * decoded payload and `next` is called once, or 401 with `req.user` untouched.
     */
    method Use(req: Request, res: Response, next: Next)
      modifies req, res, next, jwtService
      ensures req.headers == old(req.headers) && req.query == old(req.query)
      ensures var token := AuthToken(old(req.Header("authorization")));
              !Truthy(token) ==>
                res.status == Some(UnauthorizedStatus) && res.body == Some([NotAuthorized])
                && req.user == old(req.user) && next.calls == old(next.calls)
                && jwtService.received == old(jwtService.received)
      ensures var token := AuthToken(old(req.Header("authorization")));
              Truthy(token) ==> jwtService.received == old(jwtService.received) + [token.value]
      ensures var token := AuthToken(old(req.Header("authorization")));
              Truthy(token) && jwtService.decode(token.value).None? ==>
                res.status == Some(UnauthorizedStatus) && res.body == Some([NotAuthorized])
                && req.user == old(req.user) && next.calls == old(next.calls)
      ensures var token := AuthToken(old(req.Header("authorization")));
              Truthy(token) && jwtService.decode(token.value).Some? ==>
                req.user == jwtService.decode(token.value) && next.calls == old(next.calls) + 1
                && res.status == old(res.status) && res.body == old(res.body)
    {
      var authToken := AuthToken(req.Header("authorization"));
      if !Truthy(authToken) {
        res.Send(UnauthorizedStatus, [NotAuthorized]);
        return;
      }
      var decoded := jwtService.VerifyAsync(authToken.value);
      if decoded.None? {
        res.Send(UnauthorizedStatus, [NotAuthorized]);
        return;
      }
      req.user := decoded;
      next.Call();
    }
  }
}
