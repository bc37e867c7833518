/**
 * The movie service: creating, reading, updating and removing movie records,
 * compiling `{field, value}` filter descriptors into a conjunctive query,
 * paginating a listing, and the running-mean rating update.
 */
module Movies {
  import opened Http

  type MovieId = string

  /** A stored movie document. `averageRating` is exact (a real), not a float. */
  datatype Movie = Movie(
    id: MovieId,
    title: string,
    overview: string,
    genreIds: seq<int>,
    averageRating: real,
    rateCount: nat)

  /** The body of `POST /movies`; the rating fields are optional and ignored by `create`. */
  datatype CreateMovieDto = CreateMovieDto(
    title: string,
    overview: string,
    genreIds: seq<int>,
    originalTitle: Option<string>,
    averageRating: Option<real>,
    rateCount: Option<nat>)

  /** The body of `PATCH /movies/:id`: every stored field of a movie may be replaced. */
  datatype UpdateMovieDto = UpdateMovieDto(
    title: Option<string>,
    overview: Option<string>,
    genreIds: Option<seq<int>>,
    averageRating: Option<real>,
    rateCount: Option<nat>)

  /** A record of the genre collection. */
  datatype Genre = Genre(id: int, name: string)

  // ---------------------------------------------------------------------------
  // Creating and updating records

  /**
   * The record `create` stores: the DTO's fields, with the rating reset to (0, 0)
   * whatever the DTO says. `original_title` is not a path of the movie schema, so
   * the store drops it.
   */
  function NewMovie(id: MovieId, dto: CreateMovieDto): (m: Movie)
    ensures m.id == id && m.title == dto.title && m.overview == dto.overview
    ensures m.genreIds == dto.genreIds
    ensures m.averageRating == 0.0 && m.rateCount == 0
  {
    Movie(id, dto.title, dto.overview, dto.genreIds, 0.0, 0)
  }

  /** A field after `findByIdAndUpdate`: the DTO's value when it carries one. */
  function Patch<T>(current: T, replacement: Option<T>): T
  {
    if replacement.Some? then replacement.value else current
  }

  /** The record `findByIdAndUpdate` leaves: each field the DTO carries replaced, the id kept. */
  function ApplyUpdate(m: Movie, dto: UpdateMovieDto): (r: Movie)
    ensures r.id == m.id
    ensures r.title == (if dto.title.Some? then dto.title.value else m.title)
    ensures r.overview == (if dto.overview.Some? then dto.overview.value else m.overview)
    ensures r.genreIds == (if dto.genreIds.Some? then dto.genreIds.value else m.genreIds)
    ensures r.averageRating == (if dto.averageRating.Some? then dto.averageRating.value else m.averageRating)
    ensures r.rateCount == (if dto.rateCount.Some? then dto.rateCount.value else m.rateCount)
  {
    Movie(m.id, Patch(m.title, dto.title), Patch(m.overview, dto.overview), Patch(m.genreIds, dto.genreIds),
          Patch(m.averageRating, dto.averageRating), Patch(m.rateCount, dto.rateCount))
  }

  // ---------------------------------------------------------------------------
  // The rating aggregate

  datatype RatingState = RatingState(averageRating: real, rateCount: nat)

  /**
   * The `$inc` of `updateRatingAndCount`: one more rating, and the average moved by
   * `(newRating - averageRating) / (rateCount + 1)`. The result is the weighted mean
   * of the old average (counted `rateCount` times) and the new rating.
   */
  function RatingStep(s: RatingState, newRating: int): (r: RatingState)
    ensures r.rateCount == s.rateCount + 1
    ensures r.averageRating * (s.rateCount + 1) as real == s.averageRating * s.rateCount as real + newRating as real
  {
    var n := (s.rateCount + 1) as real;
    var inc := (newRating as real - s.averageRating) / n;
    assert inc * n == newRating as real - s.averageRating;
    assert (s.averageRating + inc) * n == s.averageRating * n + inc * n;
    RatingState(s.averageRating + inc, s.rateCount + 1)
  }

  /** The rating state after the ratings `rs`, in order, starting from `create`'s (0, 0). */
  function Aggregate(rs: seq<int>): RatingState
    decreases |rs|
  {
    if rs == [] then RatingState(0.0, 0)
    else RatingStep(Aggregate(rs[..|rs| - 1]), rs[|rs| - 1])
  }

  function Sum(rs: seq<int>): int
    decreases |rs|
  {
    if rs == [] then 0 else Sum(rs[..|rs| - 1]) + rs[|rs| - 1]
  }

  function Mean(rs: seq<int>): real
    requires |rs| > 0
  {
    Sum(rs) as real / |rs| as real
  }

  /** From (0, 0), the count is the number of ratings and the average is their exact mean. */
  lemma {:induction false} AggregateIsMean(rs: seq<int>)
    ensures Aggregate(rs).rateCount == |rs|
    ensures Aggregate(rs).averageRating * |rs| as real == Sum(rs) as real
    ensures |rs| > 0 ==> Aggregate(rs).averageRating == Mean(rs)
    decreases |rs|
  {
    if rs != [] {
      AggregateIsMean(rs[..|rs| - 1]);
      var a := Aggregate(rs).averageRating;
      var n := |rs| as real;
      assert a * n == Sum(rs) as real;
      assert a == (a * n) / n;
    }
  }

  /** When every rating lies in [1, 10], so does the stored average once there is a rating. */
  lemma {:induction false} AggregateWithinBounds(rs: seq<int>)
    requires |rs| > 0
    requires forall i :: 0 <= i < |rs| ==> 1 <= rs[i] <= 10
    ensures 1.0 <= Aggregate(rs).averageRating <= 10.0
    decreases |rs|
  {
    var init := rs[..|rs| - 1];
    if init != [] {
      assert forall i :: 0 <= i < |init| ==> init[i] == rs[i];
      AggregateWithinBounds(init);
    }
    var s := Aggregate(init);
    StepWithinBounds(s.averageRating, s.rateCount, rs[|rs| - 1], RatingStep(s, rs[|rs| - 1]).averageRating);
  }

  /**
   * A rating in [1, 10] keeps an average in [1, 10], or starts one from no ratings:
   * `after` is any average satisfying `RatingStep`'s weighted-mean equation.
   */
  lemma StepWithinBounds(average: real, count: nat, r: int, after: real)
    requires count == 0 || 1.0 <= average <= 10.0
    requires 1 <= r <= 10
    requires after * (count + 1) as real == average * count as real + r as real
    ensures 1.0 <= after <= 10.0
  {
    if count == 0 {
      FirstRatingWithinBounds(average, r, after);
    } else {
      NextRatingWithinBounds(average, count as real, r as real, after);
    }
  }

  lemma FirstRatingWithinBounds(average: real, r: int, after: real)
    requires 1 <= r <= 10
    requires after * 1.0 == average * 0.0 + r as real
    ensures 1.0 <= after <= 10.0
  {
  }

  lemma NextRatingWithinBounds(average: real, n: real, r: real, after: real)
    requires n > 0.0 && 1.0 <= average <= 10.0 && 1.0 <= r <= 10.0
    requires after * (n + 1.0) == average * n + r
    ensures 1.0 <= after <= 10.0
  {
    ScaledRange(average, n);
    ScaledBounds(after, n + 1.0, average * n + r);
  }

  lemma ScaledBounds(a: real, k: real, total: real)
    requires k > 0.0 && k <= total <= 10.0 * k && a * k == total
    ensures 1.0 <= a <= 10.0
  {
    if a < 1.0 {
      MulLess(a, 1.0, k);
    }
    if a > 10.0 {
      MulLess(10.0, a, k);
    }
  }

  lemma ScaledRange(a: real, n: real)
    requires 1.0 <= a <= 10.0 && n >= 0.0
    ensures n <= a * n <= 10.0 * n
  {
    assert a * n - n == (a - 1.0) * n;
    assert 10.0 * n - a * n == (10.0 - a) * n;
  }

  lemma MulLess(x: real, y: real, n: real)
    requires x < y && n > 0.0
    ensures x * n < y * n
  {
    assert y * n - x * n == (y - x) * n;
  }

  /** One more rating appended is one more `RatingStep`. */
  lemma AggregateAppend(rs: seq<int>, r: int)
    ensures Aggregate(rs + [r]) == RatingStep(Aggregate(rs), r)
  {
    assert (rs + [r])[..|rs|] == rs;
  }

  /** The movie with its rating updated by one rating. */
  function Rate(m: Movie, newRating: int): (r: Movie)
    ensures r == m.(averageRating := r.averageRating, rateCount := m.rateCount + 1)
    ensures RatingState(r.averageRating, r.rateCount) == RatingStep(RatingState(m.averageRating, m.rateCount), newRating)
  {
    var s := RatingStep(RatingState(m.averageRating, m.rateCount), newRating);
    m.(averageRating := s.averageRating, rateCount := s.rateCount)
  }

  // ---------------------------------------------------------------------------
  // The filter compiler

  /** The `value` of a filter descriptor, as the DTO types it. */
  datatype FilterValue = Str(s: string) | StrList(items: seq<string>) | Num(n: real)

  datatype FilterDescriptor = FilterDescriptor(field: string, value: FilterValue)

  /** One clause of the compiled MongoDB query. */
  datatype Clause =
    | Regex(pattern: FilterValue, options: string)   // { $regex: value, $options: 'i' }
    | All(ids: seq<int>)                             // { $all: genreIds }
    | Gte(bound: FilterValue)                        // { $gte: value }

  /** The query object: its keys are AND-ed by MongoDB. */
  type MovieQuery = map<string, Clause>

  /** `Array.isArray(value) ? value : [value]`. */
  function GenreNames(v: FilterValue): (names: seq<FilterValue>)
    ensures v.StrList? ==> |names| == |v.items| && forall i :: 0 <= i < |names| ==> names[i] == Str(v.items[i])
    ensures !v.StrList? ==> names == [v]
  {
    match v
    case StrList(items) => seq(|items|, i requires 0 <= i < |items| => Str(items[i]))
    case _ => [v]
  }

  /**
   * `genreModel.find({ name: { $in: names } })` mapped to `g.id`: the ids of the
   * genre records whose name is one of `names`, in collection order. Names that
   * match no record contribute nothing.
   */
  function GenreIds(genres: seq<Genre>, names: seq<FilterValue>): (ids: seq<int>)
    ensures |ids| <= |genres|
    ensures forall id :: id in ids <==> exists g :: g in genres && g.id == id && Str(g.name) in names
    decreases |genres|
  {
    if genres == [] then []
    else
      var rest := GenreIds(genres[1..], names);
      assert forall g :: g in genres[1..] ==> g in genres;
      assert forall g :: g in genres ==> g == genres[0] || g in genres[1..];
      if Str(genres[0].name) in names then [genres[0].id] + rest else rest
  }

  /** The query key a descriptor's field writes, if the field is recognised. */
  function Target(field: string): Option<string>
  {
    if field == "title" then Some("title")
    else if field == "genres" then Some("genre_ids")
    else if field == "minRating" then Some("averageRating")
    else None
  }

  /** The clause a recognised descriptor writes under its target key. */
  function ClauseOf(genres: seq<Genre>, d: FilterDescriptor): Clause
  {
    if d.field == "title" then Regex(d.value, "i")
    else if d.field == "genres" then All(GenreIds(genres, GenreNames(d.value)))
    else Gte(d.value)
  }

  /** The query `buildMoviesFilters` returns for `filters`, as a left fold. */
  function Compile(genres: seq<Genre>, filters: seq<FilterDescriptor>): MovieQuery
    decreases |filters|
  {
    if filters == [] then map[]
    else
      var q := Compile(genres, filters[..|filters| - 1]);
      var d := filters[|filters| - 1];
      match Target(d.field)
      case None => q
      case Some(k) => q[k := ClauseOf(genres, d)]
  }

  /** The query has a key exactly when some descriptor targets it. */
  lemma {:induction false} CompileKeys(genres: seq<Genre>, filters: seq<FilterDescriptor>, k: string)
    ensures k in Compile(genres, filters) <==> exists i :: 0 <= i < |filters| && Target(filters[i].field) == Some(k)
    decreases |filters|
  {
    if filters != [] {
      var init := filters[..|filters| - 1];
      CompileKeys(genres, init, k);
      if exists i :: 0 <= i < |init| && Target(init[i].field) == Some(k) {
        var i :| 0 <= i < |init| && Target(init[i].field) == Some(k);
        assert filters[i] == init[i];
      }
      if exists i :: 0 <= i < |filters| && Target(filters[i].field) == Some(k) {
        var i :| 0 <= i < |filters| && Target(filters[i].field) == Some(k);
        if i < |init| {
          assert init[i] == filters[i];
        }
      }
    }
  }

  /**
   * Later descriptors overwrite earlier ones: the clause under a key is the one
   * written by the last descriptor that targets that key.
   */
  lemma {:induction false} CompileLastWins(genres: seq<Genre>, filters: seq<FilterDescriptor>, i: int)
    requires 0 <= i < |filters| && Target(filters[i].field).Some?
    requires forall j :: i < j < |filters| ==> Target(filters[j].field) != Target(filters[i].field)
    ensures var k := Target(filters[i].field).value;
            k in Compile(genres, filters) && Compile(genres, filters)[k] == ClauseOf(genres, filters[i])
    decreases |filters|
  {
    var init := filters[..|filters| - 1];
    if i < |filters| - 1 {
      assert init[i] == filters[i];
      CompileLastWins(genres, init, i);
    }
  }

  /** A list with no recognised field, the empty list included, compiles to the empty query. */
  lemma NothingRecognisedCompilesToEmpty(genres: seq<Genre>, filters: seq<FilterDescriptor>)
    requires forall i :: 0 <= i < |filters| ==> Target(filters[i].field).None?
    ensures Compile(genres, filters) == map[]
  {
    forall k ensures k !in Compile(genres, filters) {
      CompileKeys(genres, filters, k);
    }
  }

  /**
   * Whether a movie satisfies one clause; `titleMatches` stands for the case-insensitive
   * `$regex`. MongoDB's `$all` with an empty array matches no document.
   */
  predicate ClauseHolds(m: Movie, key: string, c: Clause, titleMatches: (string, FilterValue) -> bool)
  {
    match c
    case Regex(p, _) => key == "title" && titleMatches(m.title, p)
    case All(ids) => key == "genre_ids" && |ids| > 0 && forall id :: id in ids ==> id in m.genreIds
    case Gte(b) => key == "averageRating" && b.Num? && m.averageRating >= b.n
  }

  /** A movie matches a query when it satisfies every clause (the clauses are AND-ed). */
  predicate Satisfies(m: Movie, q: MovieQuery, titleMatches: (string, FilterValue) -> bool)
  {
    forall k :: k in q ==> ClauseHolds(m, k, q[k], titleMatches)
  }

  /**
   * A `genres` descriptor requires every resolved id: a movie matches it exactly
   * when at least one named genre exists and its genre ids contain the ids of all
   * named genres that exist. Names that resolve to nothing add no id, and a list
   * in which no name resolves (the empty list included) matches no movie.
   */
  lemma GenresFilterRequiresAll(genres: seq<Genre>, names: seq<string>, m: Movie,
                                titleMatches: (string, FilterValue) -> bool)
    ensures Satisfies(m, Compile(genres, [FilterDescriptor("genres", StrList(names))]), titleMatches)
        <==> (exists g :: g in genres && g.name in names)
             && (forall g :: g in genres && g.name in names ==> g.id in m.genreIds)
  {
    var d := FilterDescriptor("genres", StrList(names));
    var ns := GenreNames(d.value);
    assert [d][..0] == [];
    assert Compile(genres, [d][..0]) == map[];
    var q := Compile(genres, [d]);
    var ids := GenreIds(genres, ns);
    assert q == map["genre_ids" := All(ids)];
    forall g | g in genres ensures Str(g.name) in ns <==> g.name in names {
      if g.name in names {
        var i :| 0 <= i < |names| && names[i] == g.name;
        assert ns[i] == Str(g.name);
      }
    }
    if Satisfies(m, q, titleMatches) {
      assert "genre_ids" in q;
      assert ClauseHolds(m, "genre_ids", All(ids), titleMatches);
      forall g | g in genres && g.name in names ensures g.id in m.genreIds {
        assert g.id in ids;
      }
      assert ids[0] in ids;
      var g :| g in genres && g.id == ids[0] && Str(g.name) in ns;
      assert g.name in names;
    }
    if (exists g :: g in genres && g.name in names)
       && (forall g :: g in genres && g.name in names ==> g.id in m.genreIds) {
      var g0 :| g0 in genres && g0.name in names;
      assert g0.id in ids;
      forall id | id in ids ensures id in m.genreIds {
        var g :| g in genres && g.id == id && Str(g.name) in ns;
        assert g.name in names;
      }
      assert forall id :: id in ids ==> id in m.genreIds;
      assert ClauseHolds(m, "genre_ids", All(ids), titleMatches);
    }
  }

  /** The movies of the collection that match (`find(query)`, which promises no order). */
  function Matching(movies: seq<Movie>, q: MovieQuery, titleMatches: (string, FilterValue) -> bool)
    : (r: seq<Movie>)
    ensures |r| <= |movies|
    ensures forall m :: m in r <==> m in movies && Satisfies(m, q, titleMatches)
    decreases |movies|
  {
    if movies == [] then []
    else
      var rest := Matching(movies[1..], q, titleMatches);
      assert forall m :: m in movies <==> m == movies[0] || m in movies[1..];
      if Satisfies(movies[0], q, titleMatches) then [movies[0]] + rest else rest
  }

  /** A movie added to the collection joins the result once, at the end, exactly when it matches. */
  lemma {:induction false} MatchingAppend(movies: seq<Movie>, m: Movie, q: MovieQuery,
                                          titleMatches: (string, FilterValue) -> bool)
    ensures Matching(movies + [m], q, titleMatches)
         == Matching(movies, q, titleMatches) + (if Satisfies(m, q, titleMatches) then [m] else [])
    decreases |movies|
  {
    if movies != [] {
      assert (movies + [m])[1..] == movies[1..] + [m];
      MatchingAppend(movies[1..], m, q, titleMatches);
    }
  }

  // ---------------------------------------------------------------------------
  // Pagination

  /** `(page - 1) * limit`. */
  function Skip(page: int, limit: int): int
  {
    (page - 1) * limit
  }

  /** `Math.ceil(totalCount / limit)` for a positive limit. */
  function TotalPages(totalCount: nat, limit: int): (pages: nat)
    requires limit > 0
    ensures pages * limit >= totalCount
    ensures totalCount > 0 ==> (pages - 1) * limit < totalCount
    ensures totalCount == 0 ==> pages == 0
  {
    var a := totalCount + limit - 1;
    var p := a / limit;
    assert a == p * limit + a % limit;
    p
  }

  /** `.skip(skip).limit(limit)` over the matching movies. */
  function Window(ms: seq<Movie>, skip: nat, limit: nat): (r: seq<Movie>)
    ensures |r| == if skip >= |ms| then 0 else if |ms| - skip < limit then |ms| - skip else limit
    ensures forall i :: 0 <= i < |r| ==> skip + i < |ms| && r[i] == ms[skip + i]
  {
    if skip >= |ms| then []
    else if skip + limit >= |ms| then ms[skip..]
    else ms[skip..skip + limit]
  }

  /** A page is non-empty exactly when its number is at most `totalPages`. */
  lemma PageNonEmptyIff(totalCount: nat, page: int, limit: int)
    requires page >= 1 && limit >= 1
    ensures Skip(page, limit) < totalCount <==> page <= TotalPages(totalCount, limit)
  {
    var tp := TotalPages(totalCount, limit);
    if page <= tp {
      MulMonotone(page - 1, tp - 1, limit);
    } else {
      MulMonotone(tp, page - 1, limit);
    }
  }

  lemma MulMonotone(x: int, y: int, l: int)
    requires x <= y && l >= 0
    ensures x * l <= y * l
  {
    assert y * l - x * l == (y - x) * l;
  }

  /** What `findAll` resolves to. */
  datatype MoviesPage = MoviesPage(movies: seq<Movie>, totalPages: nat, totalCount: nat)

  // ---------------------------------------------------------------------------
  // The collection

  predicate UniqueIds(movies: seq<Movie>)
  {
    forall i, j :: 0 <= i < j < |movies| ==> movies[i].id != movies[j].id
  }

  /** The position of the movie with that id, or -1 (`findById`). */
  function IndexOf(movies: seq<Movie>, id: MovieId): (i: int)
    ensures -1 <= i < |movies|
    ensures i >= 0 ==> movies[i].id == id
    ensures i < 0 ==> forall m :: m in movies ==> m.id != id
    decreases |movies|
  {
    if movies == [] then -1
    else if movies[0].id == id then 0
    else
      var j := IndexOf(movies[1..], id);
      assert forall m :: m in movies ==> m == movies[0] || m in movies[1..];
      if j < 0 then -1 else j + 1
  }

  /** The message of `findOne`'s NotFound. */
  function FindOneMessage(id: MovieId): string
  {
    "Movie with id " + id + " not found"
  }

  const MovieNotFound: string := "Movie not found"

  class MoviesService {
    /** The movie collection, in insertion order. */
    var movies: seq<Movie>
    /** The genre collection; the service only reads it. */
    var genres: seq<Genre>

    ghost predicate Valid()
      reads this
    {
      UniqueIds(movies)
    }

    constructor (movies: seq<Movie>, genres: seq<Genre>)
      requires UniqueIds(movies)
      ensures Valid() && this.movies == movies && this.genres == genres
    {
      this.movies := movies;
      this.genres := genres;
    }

    /**
     * `create`: stores the DTO with `averageRating = 0` and `rateCount = 0`; `id` is
     * the new `_id`. The schema's `required` title rejects a missing or empty title
     * (SchemaViolation), and nothing is stored.
     */
    method Create(dto: CreateMovieDto, id: MovieId) returns (r: Result<Movie>)
      requires Valid()
      requires forall x :: x in movies ==> x.id != id
      modifies this
      ensures Valid() && genres == old(genres)
      ensures dto.title == "" ==> r == Err(SchemaViolation("title")) && movies == old(movies)
      ensures dto.title != "" ==> r == Ok(NewMovie(id, dto)) && movies == old(movies) + [r.value]
    {
      if dto.title == "" {
        return Err(SchemaViolation("title"));
      }
      var m := NewMovie(id, dto);
      movies := movies + [m];
      r := Ok(m);
    }

    /** `findOne`: the movie with that id, or NotFound. */
    method FindOne(id: MovieId) returns (r: Result<Movie>)
      ensures r.Ok? <==> exists m :: m in movies && m.id == id
      ensures r.Ok? ==> r.value in movies && r.value.id == id
      ensures r.Err? ==> r.error == NotFound(FindOneMessage(id))
    {
      var i := IndexOf(movies, id);
      if i < 0 {
        return Err(NotFound(FindOneMessage(id)));
      }
      return Ok(movies[i]);
    }

    /** `update`: replaces the fields the DTO carries, or NotFound with nothing changed. */
    method Update(id: MovieId, dto: UpdateMovieDto) returns (r: Result<Movie>)
      requires Valid()
      modifies this
      ensures Valid() && genres == old(genres)
      ensures IndexOf(old(movies), id) < 0 ==> r == Err(NotFound(MovieNotFound)) && movies == old(movies)
      ensures var i := IndexOf(old(movies), id);
              i >= 0 ==> r == Ok(ApplyUpdate(old(movies)[i], dto)) && movies == old(movies)[i := r.value]
    {
      var i := IndexOf(movies, id);
      if i < 0 {
        return Err(NotFound(MovieNotFound));
      }
      var updated := ApplyUpdate(movies[i], dto);
      movies := movies[i := updated];
      r := Ok(updated);
    }

    /** `remove`: deletes the movie and confirms, or NotFound with nothing changed. */
    method Remove(id: MovieId) returns (r: Result<string>)
      requires Valid()
      modifies this
      ensures Valid() && genres == old(genres)
      ensures IndexOf(old(movies), id) < 0 ==> r == Err(NotFound(MovieNotFound)) && movies == old(movies)
      ensures var i := IndexOf(old(movies), id);
              i >= 0 ==> r == Ok("Movie with ID " + id + " deleted successfully")
                         && movies == old(movies)[..i] + old(movies)[i + 1..]
    {
      var i := IndexOf(movies, id);
      if i < 0 {
        return Err(NotFound(MovieNotFound));
      }
      movies := movies[..i] + movies[i + 1..];
      r := Ok("Movie with ID " + id + " deleted successfully");
    }

    /**
     * `buildMoviesFilters`: one pass over the descriptors, each recognised one
     * assigning its clause to its key of the query object.
     */
    method BuildMoviesFilters(filters: seq<FilterDescriptor>) returns (query: MovieQuery)
      ensures query == Compile(genres, filters)
    {
      query := map[];
      for i := 0 to |filters|
        invariant query == Compile(genres, filters[..i])
      {
        var filter := filters[i];
        assert filters[..i + 1][..i] == filters[..i];
        if filter.field == "title" {
          query := query["title" := Regex(filter.value, "i")];
        } else if filter.field == "genres" {
          var genreNames := GenreNames(filter.value);
          var genreIds := GenreIds(genres, genreNames);
          query := query["genre_ids" := All(genreIds)];
        } else if filter.field == "minRating" {
          query := query["averageRating" := Gte(filter.value)];
        }
      }
      assert filters[..|filters|] == filters;
    }

    /**
     * `findAll`: the page of matching movies, the number of pages and the number of
     * matches. `titleMatches` stands for MongoDB's `$regex` evaluation.
     */
    method FindAll(page: int, limit: int, filters: seq<FilterDescriptor>,
                   titleMatches: (string, FilterValue) -> bool) returns (r: MoviesPage)
      requires page >= 1 && limit >= 1
      ensures var matching := Matching(movies, Compile(genres, filters), titleMatches);
              && r.totalCount == |matching|
              && r.totalPages == TotalPages(|matching|, limit)
              && r.movies == Window(matching, Skip(page, limit), limit)
    {
      var skip := (page - 1) * limit;
      var query := BuildMoviesFilters(filters);
      var matching := Matching(movies, query, titleMatches);
      var totalCount := |matching|;
      var totalPages := TotalPages(totalCount, limit);
      r := MoviesPage(Window(matching, skip, limit), totalPages, totalCount);
    }

    /**
     * `updateRatingAndCount`: on an existing movie, one `RatingStep` with the new
     * rating and nothing else changed; on a missing one, NotFound and no change.
     */
    method UpdateRatingAndCount(id: MovieId, newRating: int) returns (r: Result<()>)
      requires Valid()
      modifies this
      ensures Valid() && genres == old(genres)
      ensures IndexOf(old(movies), id) < 0 ==> r == Err(NotFound(MovieNotFound)) && movies == old(movies)
      ensures var i := IndexOf(old(movies), id);
              i >= 0 ==> r == Ok(()) && movies == old(movies)[i := Rate(old(movies)[i], newRating)]
    {
      var i := IndexOf(movies, id);
      if i < 0 {
        return Err(NotFound(MovieNotFound));
      }
      var movie := movies[i];
      var ratingIncrement := (newRating as real - movie.averageRating) / (movie.rateCount + 1) as real;
      movies := movies[i := movie.(averageRating := movie.averageRating + ratingIncrement,
                                   rateCount := movie.rateCount + 1)];
      r := Ok(());
    }
  }
}
