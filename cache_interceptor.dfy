/**
 * The read-through response cache put in front of `GET /movies`: the canonical
 * cache key built from the request path and its query object, the per-route TTL,
 * and the hit/miss step over the cache manager.
 */
module CacheInterceptor {
  import opened Http
  import opened Strings

  /**
   * A request's query object: its own keys with their values, in the order
   * `Object.keys` lists them. A JavaScript object has each key once, so every
   * operation below asks for `DistinctNames`.
   */
  type Query = seq<(string, string)>

  predicate DistinctNames(q: Query)
  {
    forall i, j :: 0 <= i < j < |q| ==> q[i].0 != q[j].0
  }

  /** `Object.keys(queryParams)`. */
  function Names(q: Query): seq<string>
  {
    if q == [] then [] else [q[0].0] + Names(q[1..])
  }

  /** `queryParams[name]` for a name the object has. */
  function ValueOf(q: Query, name: string): string
    requires name in Names(q)
  {
    if q[0].0 == name then q[0].1 else ValueOf(q[1..], name)
  }

  /** `` names.map((key) => `${key}=${queryParams[key]}`) ``. */
  function Assignments(names: seq<string>, q: Query): seq<string>
    requires forall n :: n in names ==> n in Names(q)
  {
    if names == [] then [] else [names[0] + "=" + ValueOf(q, names[0])] + Assignments(names[1..], q)
  }

  /** `Object.keys(queryParams).sort()`. */
  function SortedNames(q: Query): (names: seq<string>)
    ensures forall n :: n in names <==> n in Names(q)
  {
    var names := Sort(Names(q));
    assert forall n :: n in names <==> n in multiset(Names(q));
    names
  }

  /**
   * The cache key: the parsed path unchanged when the query is empty; otherwise the
   * path up to its first `?`, then `?`, then the `name=value` pairs in ascending
   * name order joined by `&`.
   */
  function CacheKey(path: string, q: Query): (key: string)
    ensures q == [] ==> key == path
  {
    if q == [] then path
    else Split(path, '?')[0] + "?" + Join(Assignments(SortedNames(q), q), '&')
  }

  lemma {:induction false} NamesAt(q: Query, i: int)
    requires 0 <= i < |q|
    ensures |Names(q)| == |q| && Names(q)[i] == q[i].0
    decreases |q|
  {
    if i > 0 {
      NamesAt(q[1..], i - 1);
    } else if |q| > 1 {
      NamesAt(q[1..], 0);
    }
  }

  lemma {:induction false} NamesLength(q: Query)
    ensures |Names(q)| == |q|
    decreases |q|
  {
    if q != [] {
      NamesLength(q[1..]);
    }
  }

  lemma NamesDistinct(q: Query)
    requires DistinctNames(q)
    ensures Distinct(Names(q))
  {
    forall i, j | 0 <= i < j < |Names(q)| ensures Names(q)[i] != Names(q)[j] {
      NamesLength(q);
      NamesAt(q, i);
      NamesAt(q, j);
    }
  }

  /** The pair a name came from is in the query. */
  lemma {:induction false} PairOfName(q: Query, name: string)
    requires name in Names(q)
    ensures (name, ValueOf(q, name)) in q
    decreases |q|
  {
    if q[0].0 != name {
      PairOfName(q[1..], name);
    }
  }

  /** With distinct names, a pair of the query determines the lookup of its name. */
  lemma {:induction false} ValueOfPair(q: Query, p: (string, string))
    requires DistinctNames(q) && p in q
    ensures p.0 in Names(q) && ValueOf(q, p.0) == p.1
    decreases |q|
  {
    if q[0] != p {
      var k :| 0 <= k < |q| && q[k] == p;
      assert k != 0 && q[0].0 != p.0;
      assert p in q[1..];
      ValueOfPair(q[1..], p);
    }
  }

  lemma {:induction false} AssignmentsAgree(names: seq<string>, q1: Query, q2: Query)
    requires forall n :: n in names ==> n in Names(q1) && n in Names(q2) && ValueOf(q1, n) == ValueOf(q2, n)
    ensures Assignments(names, q1) == Assignments(names, q2)
    decreases |names|
  {
    if names != [] {
      AssignmentsAgree(names[1..], q1, q2);
    }
  }

  /**
   * Reordering the parameters does not change the key: two query objects holding
   * the same name/value pairs in any order give the same key.
   */
  lemma CacheKeyPermutationInvariant(path: string, q1: Query, q2: Query)
    requires DistinctNames(q1) && DistinctNames(q2)
    requires multiset(q1) == multiset(q2)
    ensures CacheKey(path, q1) == CacheKey(path, q2)
  {
    assert |q1| == |multiset(q1)| == |q2|;
    if q1 != [] {
      forall n | n in Names(q1) ensures n in Names(q2) && ValueOf(q1, n) == ValueOf(q2, n) {
        PairOfName(q1, n);
        assert (n, ValueOf(q1, n)) in multiset(q2);
        ValueOfPair(q2, (n, ValueOf(q1, n)));
      }
      forall n | n in Names(q2) ensures n in Names(q1) {
        PairOfName(q2, n);
        assert (n, ValueOf(q2, n)) in multiset(q1);
        ValueOfPair(q1, (n, ValueOf(q2, n)));
      }
      NamesDistinct(q1);
      NamesDistinct(q2);
      NamesLength(q1);
      NamesLength(q2);
      var s1, s2 := SortedNames(q1), SortedNames(q2);
      assert |s1| == |multiset(s1)| == |Names(q1)|;
      assert |s2| == |multiset(s2)| == |Names(q2)|;
      AscendingUnique(s1, s2);
      AssignmentsAgree(s1, q1, q2);
    }
  }

  /** The names in the key are those of the query, each once, in ascending order. */
  lemma SortedNamesAscending(q: Query)
    requires DistinctNames(q)
    ensures var names := SortedNames(q);
            Ascending(names) && |names| == |q| && forall n :: n in names <==> n in Names(q)
  {
    var names := SortedNames(q);
    NamesDistinct(q);
    NamesLength(q);
    assert |names| == |multiset(names)| == |Names(q)|;
  }

  /**
   * A key for a non-empty query is the path's part before its first `?`, then `?`;
   * when no name or value contains `&`, the rest splits on `&` into exactly the
   * `name=value` pairs in ascending name order.
   */
  lemma CacheKeyParameters(path: string, q: Query)
    requires DistinctNames(q) && q != []
    requires forall i :: 0 <= i < |q| ==> '&' !in q[i].0 && '&' !in q[i].1
    ensures var prefix := Split(path, '?')[0];
            var key := CacheKey(path, q);
            && '?' !in prefix && |key| > |prefix|
            && key[..|prefix|] == prefix && key[|prefix|] == '?'
            && Split(key[|prefix| + 1..], '&') == Assignments(SortedNames(q), q)
  {
    var names := SortedNames(q);
    SortedNamesAscending(q);
    var parts := Assignments(names, q);
    AssignmentsFree(names, q);
    AssignmentsLength(names, q);
    SplitJoin(parts, '&');
    var prefix := Split(path, '?')[0];
    var key := CacheKey(path, q);
    assert key == prefix + "?" + Join(parts, '&');
    assert key[..|prefix|] == prefix;
    assert key[|prefix| + 1..] == Join(parts, '&');
  }

  lemma {:induction false} AssignmentsLength(names: seq<string>, q: Query)
    requires forall n :: n in names ==> n in Names(q)
    ensures |Assignments(names, q)| == |names|
    decreases |names|
  {
    if names != [] {
      AssignmentsLength(names[1..], q);
    }
  }

  lemma {:induction false} ValueOfFree(q: Query, name: string)
    requires name in Names(q)
    requires forall i :: 0 <= i < |q| ==> '&' !in q[i].1
    ensures '&' !in ValueOf(q, name)
    decreases |q|
  {
    if q[0].0 != name {
      ValueOfFree(q[1..], name);
    }
  }

  lemma {:induction false} AssignmentsFree(names: seq<string>, q: Query)
    requires forall n :: n in names ==> n in Names(q)
    requires forall i :: 0 <= i < |q| ==> '&' !in q[i].0 && '&' !in q[i].1
    ensures forall i :: 0 <= i < |Assignments(names, q)| ==> '&' !in Assignments(names, q)[i]
    decreases |names|
  {
    if names != [] {
      AssignmentsFree(names[1..], q);
      ValueOfFree(q, names[0]);
      PairOfName(q, names[0]);
      var p := (names[0], ValueOf(q, names[0]));
      var k :| 0 <= k < |q| && q[k] == p;
      assert '&' !in names[0];
      assert '&' !in "=";
    }
  }

  /**
   * For a non-empty query the key keeps only the part of the path before its
   * first `?`: whatever query string the parsed path carried is replaced.
   */
  lemma CacheKeyReplacesPathQuery(path: string, rest: string, q: Query)
    requires '?' !in path && q != []
    ensures CacheKey(path + "?" + rest, q) == CacheKey(path, q)
  {
    var withQuery := path + "?" + rest;
    assert withQuery == path + ['?'] + rest;
    SplitAfterPiece(path, rest, '?');
    SplitWithoutSeparator(path, '?');
    assert Split(withQuery, '?')[0] == Split(path, '?')[0];
  }

  /** For a non-empty query, the part of the key before its first `?` is the bare path. */
  lemma CacheKeyPathPrefix(path: string, q: Query)
    requires '?' !in path && q != []
    ensures Split(CacheKey(path, q), '?')[0] == path
  {
    SplitWithoutSeparator(path, '?');
    var tail := "?" + Join(Assignments(SortedNames(q), q), '&');
    assert CacheKey(path, q) == path + tail;
    FirstPiece(path, tail, '?');
  }

  /**
   * The TTL for a route template: its entry in the TTL table, or the default when
   * the entry is missing or falsy (0). It depends on the template, not on the
   * concrete path or the query.
   */
  function Ttl(ttlMap: map<string, int>, defaultTtl: int, route: string): (ttl: int)
    ensures route in ttlMap && ttlMap[route] != 0 ==> ttl == ttlMap[route]
    ensures route !in ttlMap || ttlMap[route] == 0 ==> ttl == defaultTtl
  {
    if route in ttlMap && ttlMap[route] != 0 then ttlMap[route] else defaultTtl
  }

  /**
   * A response payload as the cache sees it: `Falsy` stands for every value that
   * JavaScript treats as false (`null`, `undefined`, `0`, `''`, `false`), `Data`
   * for every other value. `body` is an opaque label naming a truthy payload, not
   * the payload itself, so `Data("")` is a truthy value too.
   */
  datatype Payload = Falsy | Data(body: string)

  datatype CacheEntry = CacheEntry(value: Payload, ttl: int)

  /**
   * What `intercept` resolves to: on a hit the two-slot array `[, cachedData]`
   * whose first slot is a hole; on a miss the handler's data.
   */
  datatype Reply = CachedPair(cached: Payload) | Handled(data: Payload)

  /** One read-through step on the store contents: the reply and the new contents. */
  function ReadThrough(entries: map<string, CacheEntry>, key: string, ttl: int, handlerData: Payload)
    : (r: (Reply, map<string, CacheEntry>))
    ensures key in entries && entries[key].value.Data? ==>
              r.0 == CachedPair(entries[key].value) && r.1 == entries
    ensures !(key in entries && entries[key].value.Data?) ==>
              r.0 == Handled(handlerData) && key in r.1 && r.1[key] == CacheEntry(handlerData, ttl)
    ensures forall k :: k != key ==> (k in r.1 <==> k in entries) && (k in entries ==> r.1[k] == entries[k])
  {
    if key in entries && entries[key].value.Data? then (CachedPair(entries[key].value), entries)
    else (Handled(handlerData), entries[key := CacheEntry(handlerData, ttl)])
  }

  /**
   * After a miss that produced truthy data, the same request with its query
   * parameters in any other order is answered from the cache with that data.
   */
  lemma ReorderedRequestHits(entries: map<string, CacheEntry>, ttl: int, path: string,
                             q1: Query, q2: Query, data: Payload, later: Payload)
    requires DistinctNames(q1) && DistinctNames(q2) && multiset(q1) == multiset(q2)
    requires data.Data?
    requires !(CacheKey(path, q1) in entries && entries[CacheKey(path, q1)].value.Data?)
    ensures var after := ReadThrough(entries, CacheKey(path, q1), ttl, data).1;
            ReadThrough(after, CacheKey(path, q2), ttl, later) == (CachedPair(data), after)
  {
    CacheKeyPermutationInvariant(path, q1, q2);
  }

  /** The cache manager (`get`/`set` over keys), seen as its contents. */
  class CacheStore {
    var entries: map<string, CacheEntry>

    constructor (entries: map<string, CacheEntry>)
      ensures this.entries == entries
    {
      this.entries := entries;
    }

    /** `cacheManager.get(key)`: the stored value, or `None` for `undefined`. */
    method Get(key: string) returns (v: Option<Payload>)
      ensures key in entries ==> v == Some(entries[key].value)
      ensures key !in entries ==> v == None
    {
      v := if key in entries then Some(entries[key].value) else None;
    }

    /** `cacheManager.set(key, value, ttl)`: one whole entry written, overwriting any earlier one. */
    method Set(key: string, value: Payload, ttl: int)
      modifies this
      ensures entries == old(entries)[key := CacheEntry(value, ttl)]
    {
      entries := entries[key := CacheEntry(value, ttl)];
    }
  }

  /** The route handler behind the interceptor (`next`), counting its invocations. */
  class CallHandler {
    const data: Payload
    var calls: nat

    constructor (data: Payload)
      ensures this.data == data && calls == 0
    {
      this.data := data;
      calls := 0;
    }

    /** `next.handle()`: runs the handler once and yields its data. */
    method Handle() returns (d: Payload)
      modifies this
      ensures d == data && calls == old(calls) + 1
    {
      d := data;
      calls := calls + 1;
    }
  }

  class CachingInterceptor {
    /** `CACHE_TTL_MAP`, parsed once from the environment: route template to TTL. */
    const ttlMap: map<string, int>
    /** `CACHE_DEFAULT_TTL`. */
    const defaultTtl: int
    const cacheManager: CacheStore

    constructor (ttlMap: map<string, int>, defaultTtl: int, cacheManager: CacheStore)
      ensures this.ttlMap == ttlMap && this.defaultTtl == defaultTtl && this.cacheManager == cacheManager
    {
      this.ttlMap := ttlMap;
      this.defaultTtl := defaultTtl;
      this.cacheManager := cacheManager;
    }

    /**
     * `intercept` for a request whose route template is `route`, whose parsed path
     * is `path` and whose query object is `query`. On a hit the stored value comes
     * back in the second slot, the handler is not run and the store is untouched;
     * on a miss the handler runs once and its data is stored under the same key
     * with the route's TTL, no other key changing.
     */
    method Intercept(route: string, path: string, query: Query, next: CallHandler) returns (reply: Reply)
      requires DistinctNames(query)
      modifies cacheManager, next
      ensures var key := CacheKey(path, query);
              (reply, cacheManager.entries)
                == ReadThrough(old(cacheManager.entries), key, Ttl(ttlMap, defaultTtl, route), next.data)
      ensures var key := CacheKey(path, query);
              var hit := key in old(cacheManager.entries) && old(cacheManager.entries)[key].value.Data?;
              next.calls == if hit then old(next.calls) else old(next.calls) + 1
    {
      var cacheKey := CacheKey(path, query);
      var ttl := Ttl(ttlMap, defaultTtl, route);
      var cachedData := cacheManager.Get(cacheKey);
      if cachedData.Some? && cachedData.value.Data? {
        return CachedPair(cachedData.value);
      }
      var data := next.Handle();
      cacheManager.Set(cacheKey, data, ttl);
      reply := Handled(data);
    }
  }
}
