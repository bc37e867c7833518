/**
 * The API-key middleware: a key taken from the `x-apiKey` header or the `apiKey`
 * query parameter must be one of the configured keys; the matching application's
 * name is then stamped on the request.
 */
module ApiKey {
  import opened Http
  import opened Express

  const MovieApp: string := "Movie-app"
  const ApplicationHeader: string := "application-name"
  const InvalidApiKey: HttpError := Unauthorized("UNAUTHORIZED", "Api key is invalid")

  /** One configured key; the key is undefined when its environment variable is unset. */
  datatype ApiKeyEntry = ApiKeyEntry(key: Option<string>, application: string)

  /** `API_KEYS`, given the value of `MOVIE_APP_API_KEY`. */
  function ApiKeys(movieAppKey: Option<string>): (keys: seq<ApiKeyEntry>)
    ensures |keys| == 1 && keys[0].key == movieAppKey && keys[0].application == MovieApp
  {
    [ApiKeyEntry(movieAppKey, MovieApp)]
  }

  /** `getApiKey`: a truthy value, or undefined. */
  function GetApiKey(apiKey: Option<string>): (r: Option<string>)
    ensures Truthy(apiKey) ==> r == apiKey
    ensures !Truthy(apiKey) ==> r.None?
  {
    if Truthy(apiKey) then apiKey else None
  }

  /** The key `use` checks: a truthy header wins over the query value. */
  function SelectApiKey(header: Option<string>, query: Option<string>): (r: Option<string>)
    ensures Truthy(header) ==> r == header
    ensures !Truthy(header) && Truthy(query) ==> r == query
    ensures !Truthy(header) && !Truthy(query) ==> r.None?
  {
    if Truthy(header) then header else GetApiKey(query)
  }

  /** `validateApiKey`: membership in the configured keys, undefined matching undefined. */
  function ValidateApiKey(keys: seq<ApiKeyEntry>, apiKey: Option<string>): (ok: bool)
    ensures ok <==> exists i :: 0 <= i < |keys| && keys[i].key == apiKey
  {
    if keys == [] then false
    else keys[0].key == apiKey || ValidateApiKey(keys[1..], apiKey)
  }

  /** `_.find(API_KEYS, k => k.key === apiKey).application`: the first matching entry's. */
  function FindApplication(keys: seq<ApiKeyEntry>, apiKey: Option<string>): (application: string)
    requires ValidateApiKey(keys, apiKey)
    ensures exists i :: 0 <= i < |keys| && keys[i].key == apiKey && keys[i].application == application
                        && forall j :: 0 <= j < i ==> keys[j].key != apiKey
  {
    if keys[0].key == apiKey then keys[0].application
    else
      var application := FindApplication(keys[1..], apiKey);
      var i :| 0 <= i < |keys[1..]| && keys[1..][i].key == apiKey && keys[1..][i].application == application
               && forall j :: 0 <= j < i ==> keys[1..][j].key != apiKey;
      assert keys[i + 1].key == apiKey && forall j :: 0 <= j < i + 1 ==> keys[j].key != apiKey;
      application
  }

  /**
   * With the single configured key, a request is accepted exactly when its selected
   * key equals `MOVIE_APP_API_KEY` (so with that variable unset, a request carrying
   * no key is accepted), and it is then stamped as `Movie-app`.
   */
  lemma AcceptedIffConfiguredKey(movieAppKey: Option<string>, header: Option<string>, query: Option<string>)
    ensures ValidateApiKey(ApiKeys(movieAppKey), SelectApiKey(header, query))
        <==> SelectApiKey(header, query) == movieAppKey
    ensures SelectApiKey(header, query) == movieAppKey ==>
              FindApplication(ApiKeys(movieAppKey), SelectApiKey(header, query)) == MovieApp
  {
  }

  class ApiKeyMiddleware {
    const apiKeys: seq<ApiKeyEntry>

    constructor (movieAppKey: Option<string>)
      ensures apiKeys == ApiKeys(movieAppKey)
    {
      apiKeys := ApiKeys(movieAppKey);
    }

    /**
     * `use`: a rejected key raises Unauthorized with the headers untouched and `next`
     * not called; an accepted key sets `application-name` to the matching
     * application and calls `next` once.
     */
    method Use(req: Request, next: Next) returns (r: Result<()>)
      modifies req, next
      ensures req.query == old(req.query) && req.user == old(req.user)
      ensures var apiKey := SelectApiKey(old(req.Header("x-apikey")), old(req.QueryValue("apiKey")));
              !ValidateApiKey(apiKeys, apiKey) ==>
                r == Err(InvalidApiKey) && req.headers == old(req.headers) && next.calls == old(next.calls)
      ensures var apiKey := SelectApiKey(old(req.Header("x-apikey")), old(req.QueryValue("apiKey")));
              ValidateApiKey(apiKeys, apiKey) ==>
                r == Ok(()) && next.calls == old(next.calls) + 1
                && req.headers == old(req.headers)[ApplicationHeader := FindApplication(apiKeys, apiKey)]
    {
      var apiKey := SelectApiKey(req.Header("x-apikey"), req.QueryValue("apiKey"));
      if !ValidateApiKey(apiKeys, apiKey) {
        return Err(InvalidApiKey);
      }
      var application := FindApplication(apiKeys, apiKey);
      req.headers := req.headers[ApplicationHeader := application];
      next.Call();
      r := Ok(());
    }
  }
}
