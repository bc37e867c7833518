# MovieService in Dafny

A Dafny model of the request-handling core of MovieService, a NestJS movie catalogue
with reviews, watchlists and users, backed by MongoDB and a Redis cache. The model covers:

- the read-through response cache in front of `GET /movies`. This is the canonical cache
  key (sorted `name=value` pairs), the per-route TTL and the hit/miss step
  (`cache_interceptor.dfy`);
- the movie service (`movies_service.dfy`). It covers create/read/update/remove with
  their NotFound branches, the filter compiler that turns `{field, value}` descriptors
  into a conjunctive MongoDB query, the pagination arithmetic of the listing, and the
  running-mean rating update;
- the three check-then-insert services: reviews (one per user and movie, each feeding the
  movie's rating), watchlist entries (one per user and movie) and users (unique usernames,
  bcrypt digest stored instead of the password)
  (`reviews_service.dfy`, `watchlist_service.dfy`, `users_service.dfy`);
- the `findAll` query defaults of the movies controller (`movies_controller.dfy`);
- the API-key and bearer-token middlewares (`api_key_middleware.dfy`,
  `auth_middleware.dfy`, with the Express request/response parts in `express.dfy`);
- the field projections of the movie and user views (`movie_view.dfy`, `user_view.dfy`,
  with lodash's `pick` in `objects.dfy`).

Shared pieces: `http.dfy` holds `Option`, `Result` and the HTTP exceptions.
`strings.dfy` holds JavaScript's `split`/`join` on one separator, with their round-trip
lemmas, and the default string order of `sort()` with an insertion sort proved to give
the unique ascending arrangement.

Stateful code takes the source's own form. The MongoDB collections, the cache store,
`req`, `res`, `next` and the JWT service are classes whose methods change their fields.
Each such method is specified against a pure function whose properties are proved as
lemmas. Examples: `Intercept` against `CacheKey`, `Ttl` and `ReadThrough`;
`BuildMoviesFilters` against `Compile`; `UpdateRatingAndCount` against `RatingStep`.

The most important results:

- the cache key does not depend on the order of the query parameters;
- starting from `(0, 0)`, a movie's `averageRating` is the exact mean of the ratings it
  has received, and it stays within [1, 10];
- `createReview` keeps every movie's rating equal to the aggregate of its stored reviews;
- later filter descriptors overwrite earlier ones, and unrecognised fields are ignored;
- failures in the check-then-insert flows leave the stores unchanged, and those flows
  preserve their uniqueness invariants.

Three places where the model follows the code as written rather than what its
guards, tests or declarations suggest:

- In `createReview` and `addToWatchlist`, `MoviesService.findOne` already throws
  `NotFound("Movie with id <id> not found")` for a missing movie. The services' own
  `!existingMovie` guard and the unit tests that mock `findOne` to return null
  (src/reviews/reviews.service.spec.ts:69-85, src/watchlist/watchlist.service.spec.ts:38-50)
  expect `NotFound('Movie not found')`, but that guard cannot fire. The model returns
  `findOne`'s error.
- `CreateReviewDto` declares `rating` an integer in [1, 10], but `POST /reviews` takes a
  bare `@Body()` and `main.ts` installs no global pipe. Only the review schema's
  `min: 1, max: 10` bounds the rating: `reviewModel.create` rejects an out-of-range rating
  before the rating update runs, so nothing changes.
- The movie schema has no `original_title` path, so `create` drops that field of the DTO.
- `POST /movies` also takes a bare `@Body()`, so only the movie schema's `required` title
  guards `create`: `movieModel.create` rejects a missing or empty title and stores nothing.

## Model

| member | source | states |
|---|---|---|
| CacheInterceptor.CacheKey | src/shared/cache-interceptor.ts:26-37 | An empty query object leaves the parsed path as the key. |
| CacheInterceptor.SortedNames | src/shared/cache-interceptor.ts:30 | The sorted names are exactly the query object's own keys. |
| CacheInterceptor.CacheKeyPermutationInvariant | src/shared/cache-interceptor.ts:29-35 | Two query objects with the same name/value pairs in any order give the same key. |
| CacheInterceptor.SortedNamesAscending | src/shared/cache-interceptor.ts:30-33 | The names in the key are the query's names, each exactly once, in strictly ascending order. |
| CacheInterceptor.CacheKeyParameters | src/shared/cache-interceptor.ts:31-34 | A non-empty query's key is the path before its first `?`, then `?`, then a part that splits on `&` into the `name=value` pairs in ascending name order. |
| CacheInterceptor.CacheKeyReplacesPathQuery | src/shared/cache-interceptor.ts:34 | For a non-empty query, any query string already in the parsed path is replaced. |
| CacheInterceptor.CacheKeyPathPrefix | src/shared/cache-interceptor.ts:34 | For a non-empty query, the key's part before its first `?` is the bare path. |
| CacheInterceptor.Ttl | src/shared/cache-interceptor.ts:38 | The TTL is the route template's table entry when present and non-zero, otherwise the default. |
| CacheInterceptor.ReadThrough | src/shared/cache-interceptor.ts:40-50 | A truthy stored value is a hit: it is returned in the pair and the store is unchanged. Otherwise the handler's data is returned and stored under the key with the TTL. No other key changes. |
| CacheInterceptor.ReorderedRequestHits | src/shared/cache-interceptor.ts:29-50 | After a miss that stored truthy data, the same request with its parameters reordered is a hit returning that data. |
| CacheInterceptor.CacheStore.Get | src/shared/cache-interceptor.ts:40 | Returns the stored value, or undefined for a missing key. |
| CacheInterceptor.CacheStore.Set | src/shared/cache-interceptor.ts:47 | Writes one entry (value and TTL) and changes nothing else. |
| CacheInterceptor.CallHandler.Handle | src/shared/cache-interceptor.ts:45 | Runs the handler once and yields its data. |
| CacheInterceptor.CachingInterceptor.Intercept | src/shared/cache-interceptor.ts:23-51 | The reply and the new store contents are `ReadThrough` at `CacheKey(path, query)` with the route's TTL. The handler runs once on a miss and never on a hit. |
| Strings.Sort | src/shared/cache-interceptor.ts:30 | Sorting is a permutation, and it is strictly ascending for distinct names. |
| Strings.SplitJoin | src/shared/cache-interceptor.ts:31-34 | Splitting a join of separator-free pieces gives the pieces back. |
| Movies.NewMovie | src/movies/movies.service.ts:17-22 | A created record carries the DTO's title, overview and genre ids, with `averageRating = 0` and `rateCount = 0` whatever the DTO says. |
| Movies.MoviesService.Create | src/movies/movies.service.ts:17-25 | A missing or empty title breaks the schema's `required` title and is rejected as a schema violation on `title`, with nothing stored. Otherwise exactly the new record is appended and returned, and ids stay unique. |
| Movies.MoviesService.FindOne | src/movies/movies.service.ts:46-55 | Returns the movie with that id when one exists, otherwise `NotFound("Movie with id <id> not found")`. |
| Movies.ApplyUpdate | src/movies/movies.service.ts:57-63 | Each field the DTO carries replaces the stored one; the others and the id are kept. |
| Movies.MoviesService.Update | src/movies/movies.service.ts:57-68 | A missing id gives `NotFound('Movie not found')` and changes nothing. Otherwise only that record is replaced by the updated one, which is returned. |
| Movies.MoviesService.Remove | src/movies/movies.service.ts:70-77 | A missing id gives `NotFound('Movie not found')` and changes nothing. Otherwise exactly that record is deleted and the confirmation message is returned. |
| Movies.GenreNames | src/movies/movies.service.ts:91 | A list value is used element by element, and a scalar becomes a one-element list. |
| Movies.GenreIds | src/movies/movies.service.ts:92-95 | An id is resolved exactly when some genre record with that id has a name in the list, so unknown names contribute nothing. |
| Movies.CompileKeys | src/movies/movies.service.ts:80-106 | The query has a key exactly when some descriptor's field targets it (`title`, `genre_ids` or `averageRating`). |
| Movies.CompileLastWins | src/movies/movies.service.ts:82-101 | The clause under a key is the one written by the last descriptor targeting that key. |
| Movies.NothingRecognisedCompilesToEmpty | src/movies/movies.service.ts:80-107 | An empty list, or one with only unrecognised fields, compiles to the empty query. |
| Movies.GenresFilterRequiresAll | src/movies/movies.service.ts:90-97 | A movie matches a `genres` filter exactly when its genre ids contain every resolved id, so at least one named genre must exist: a list in which no name resolves (the empty list included) compiles to `$all: []` and matches no movie. |
| Movies.MoviesService.BuildMoviesFilters | src/movies/movies.service.ts:79-108 | The loop builds exactly `Compile(genres, filters)`. |
| Movies.Matching | src/movies/movies.service.ts:37-38 | The result holds exactly the movies satisfying every clause; an unsorted `find` promises no order. |
| Movies.MatchingAppend | src/movies/movies.service.ts:37-39 | A movie added to the collection is listed once more exactly when it satisfies the query, and no other listing changes. So `find` and `countDocuments` count each matching movie once. |
| Movies.TotalPages | src/movies/movies.service.ts:41 | For `limit > 0`: `totalPages * limit >= totalCount`, `(totalPages - 1) * limit < totalCount` when `totalCount > 0`, and 0 pages for 0 movies. |
| Movies.Window | src/movies/movies.service.ts:37 | The page holds exactly `min(limit, max(0, count - skip))` movies, the ones at positions `skip`, `skip + 1`, and so on. |
| Movies.PageNonEmptyIff | src/movies/movies.service.ts:33-41 | Page `p` starts inside the results exactly when `p <= totalPages`. |
| Movies.MoviesService.FindAll | src/movies/movies.service.ts:28-44 | Returns the window at `skip = (page - 1) * limit` of the matching movies, `ceil(count / limit)` pages and the match count. |
| Movies.RatingStep | src/movies/movies.service.ts:118-129 | One rating adds 1 to the count, and the new average times the new count equals the old average times the old count plus the rating. |
| Movies.Rate | src/movies/movies.service.ts:118-129 | Only `averageRating` and `rateCount` of the record change, by one `RatingStep`. |
| Movies.AggregateIsMean | src/movies/movies.service.ts:17-22 | From (0, 0), after ratings r1..rn, `rateCount = n` and `averageRating` is their exact mean. |
| Movies.AggregateWithinBounds | src/movies/movies.service.ts:118-129 | When every rating is in [1, 10], the average after at least one rating is in [1, 10]. |
| Movies.StepWithinBounds | src/movies/movies.service.ts:118-129 | One rating in [1, 10] moves an average in [1, 10], or the first rating sets it, to a new average in [1, 10]. |
| Movies.AggregateAppend | src/movies/movies.service.ts:121-129 | One more rating is one more `RatingStep`. |
| Movies.IndexOf | src/movies/movies.service.ts:48 | Finds the position of the record with the id, or reports that none has it. |
| Movies.MoviesService.UpdateRatingAndCount | src/movies/movies.service.ts:110-130 | A missing id gives `NotFound('Movie not found')` and changes nothing. Otherwise the record takes one `RatingStep` with the new rating and nothing else changes. |
| Reviews.AddKeepsOneReviewPerPair | src/reviews/reviews.service.ts:29-39 | Adding a review for a pair not yet reviewed keeps at most one review per (userId, movieId). |
| Reviews.ReviewsOf | src/reviews/reviews.service.ts:47-52 | Returns exactly the reviews with that movieId; an unsorted `find` promises no order. |
| Reviews.ReviewsOfAppend | src/reviews/reviews.service.ts:34-52 | A stored review is listed once for its own movie and changes no other movie's listing, so each review is counted once. |
| Reviews.RatingsFor | src/reviews/reviews.service.ts:47-52 | Returns the ratings of exactly those reviews, position by position. |
| Reviews.ReviewKeepsRatingsConsistent | src/reviews/reviews.service.ts:34-42 | Storing a review and applying its rating to its movie keeps every movie's rating state equal to the aggregate of its reviews' ratings. |
| Reviews.CreateKeepsRatingsConsistent | src/movies/movies.service.ts:17-22 | A new movie at (0, 0) with no reviews keeps the consistency invariant. |
| Reviews.ConsistentRatingIsMean | src/reviews/reviews.service.ts:41-42 | Under the invariant, `rateCount` is the movie's number of reviews. When there is one or more, `averageRating` is their exact mean and lies in [1, 10]. |
| Reviews.ReviewsService.CreateReview | src/reviews/reviews.service.ts:19-45 | A missing movie gives `findOne`'s NotFound. A user who already reviewed the movie gets `Conflict('User has already reviewed this movie')`. A rating outside the schema's [1, 10] is a schema violation on `rating`. All three leave reviews and ratings unchanged. Otherwise exactly one review is appended and returned, and the movie takes one `RatingStep` with its rating. |
| Reviews.ReviewsService.FindReviewsByMovie | src/reviews/reviews.service.ts:47-52 | Returns exactly the reviews of that movie. |
| Watchlist.AddKeepsOneEntryPerPair | src/watchlist/watchlist.service.ts:25-37 | Adding a pair not yet listed keeps every (userId, movieId) pair unique. |
| Watchlist.EntriesOf | src/watchlist/watchlist.service.ts:42-44 | Returns exactly the entries with that userId, in insertion order. |
| Watchlist.EntriesOfAppend | src/watchlist/watchlist.service.ts:34-44 | An added entry joins the listing of its own user only. |
| Watchlist.WatchlistService.AddToWatchlist | src/watchlist/watchlist.service.ts:19-40 | The movie's existence is checked first, so a missing movie is NotFound even when an entry exists. A listed pair gets `Conflict('Movie already in watchlist')`. Both leave the store unchanged. Otherwise exactly one entry is appended and returned. |
| Watchlist.WatchlistService.GetWatchlist | src/watchlist/watchlist.service.ts:42-44 | Returns exactly the user's entries. |
| Users.AddKeepsUsernamesUnique | src/users/users.service.ts:26-41 | Adding a user whose username is free keeps usernames unique. |
| Users.FindUser | src/users/users.service.ts:26-28 | Finds the position of the user with that username, or reports that none has it. |
| Users.Validate | src/users/users.service.ts:61-68 | An unknown username is `NotFound('User not found')`, not null. A password `compare` rejects gives null. Otherwise the result is the stored user. Both directions hold: a found user whose password `compare` accepts gives that user, and a found user whose password it rejects gives null. |
| Users.ValidateAfterCreate | src/users/users.service.ts:34-41 | When `compare` accepts `hash`'s digests, validating a newly registered user with the same password returns the stored record. |
| Users.UsersService.CreateUser | src/users/users.service.ts:23-48 | A taken username gives `Conflict('User already exists')` and inserts nothing. Otherwise one record with the hashed password (never the plain one) is appended. The result carries only `name` and `username`. |
| Users.UsersService.FindByUsername | src/users/users.service.ts:50-59 | Returns the user with that username, or `NotFound('User not found')` exactly when there is none. |
| Users.UsersService.ValidateUser | src/users/users.service.ts:61-68 | Resolves to `Validate` of the collection. |
| Objects.Pick | src/users/views/user.view.ts:17 | The result's keys are the document's keys among the paths, with their values unchanged. |
| Objects.MapAll | src/movies/views/movie.view.ts:10 | The same length, with each element mapped in place. |
| MovieView.RenderMovie | src/movies/views/movie.view.ts:16-26 | The keys are exactly the document's keys among the six public fields, so none is added. Values are copied unchanged. `original_title` and any other field never appear. |
| MovieView.Render | src/movies/views/movie.view.ts:8-14 | A single document renders to one; an array renders element by element with the same length and order. |
| UserView.RenderUser | src/users/views/user.view.ts:16-19 | The keys are exactly the document's keys among `name` and `username`, so none is added. Values are copied. `password` and `_id` never appear. |
| UserView.Render | src/users/views/user.view.ts:8-14 | A single document renders to one; an array renders element by element with the same length and order. |
| MoviesController.ToNumber | src/movies/movies.controller.ts:91-92 | An absent query value converts to NaN. |
| MoviesController.OrElse | src/movies/movies.controller.ts:91-92 | A truthy number is kept, and NaN or 0 falls back. |
| MoviesController.FindAll | src/movies/movies.controller.ts:87-104 | `limit` is the numeric limit, or `DEFAULT_PAGE_SIZE` when that is absent, 0 or NaN. `page` is the numeric page or 1. Absent or empty filters become `[]`. Filters that fail to parse give BadRequest, and exactly then. |
| MoviesController.FirstPageOfTen | src/movies/movies.controller.ts:90-103 | `{page: 1, limit: 10}` without filters reaches the service as `(1, 10, [])`. |
| MoviesController.NoParametersUseDefaults | src/movies/movies.controller.ts:90-98 | No parameters at all gives page 1, `DEFAULT_PAGE_SIZE` and `[]`. |
| ApiKey.ApiKeys | src/shared/api-key.middleware.ts:13-18 | One configured entry, holding `MOVIE_APP_API_KEY` for `Movie-app`. |
| ApiKey.GetApiKey | src/shared/api-key.middleware.ts:41-43 | A truthy value is kept; anything else becomes undefined. |
| ApiKey.SelectApiKey | src/shared/api-key.middleware.ts:25 | A truthy `x-apiKey` header wins, then a truthy `apiKey` query value, else undefined. |
| ApiKey.ValidateApiKey | src/shared/api-key.middleware.ts:45-47 | A key is accepted exactly when some configured entry's key equals it, with undefined matching undefined. |
| ApiKey.FindApplication | src/shared/api-key.middleware.ts:34 | Returns the application of the first entry whose key matches. |
| ApiKey.AcceptedIffConfiguredKey | src/shared/api-key.middleware.ts:25-47 | A request is accepted exactly when its selected key equals `MOVIE_APP_API_KEY` (so a missing key passes when that variable is unset), and it is then stamped `Movie-app`. |
| ApiKey.ApiKeyMiddleware.Use | src/shared/api-key.middleware.ts:24-39 | A rejected key raises `Unauthorized({code: 'UNAUTHORIZED', message: 'Api key is invalid'})`, leaves the headers untouched and does not call `next`. An accepted key sets `application-name` to the matching application and calls `next` once. |
| Auth.AuthToken | src/shared/auth.middleware.ts:44-52 | A token is extracted only from a truthy header whose first space-separated piece is `Bearer`, and it contains no space. |
| Auth.BearerHeaderYieldsToken | src/shared/auth.middleware.ts:44-52 | `Bearer <token>`, optionally followed by a space and anything, yields `<token>`. |
| Auth.TokenOnlyFromBearerHeader | src/shared/auth.middleware.ts:44-52 | An extracted token comes from a header that is exactly `Bearer`, one space, the token, then the end or another space. |
| Auth.JwtVerifier.VerifyAsync | src/shared/auth.middleware.ts:27-29 | Records the token it receives and resolves to its decoded payload or a rejection. |
| Auth.AuthMiddleware.Use | src/shared/auth.middleware.ts:13-42 | Without a truthy token: 401 with the `USER_NOT_AUTHORIZED` body, and neither the verifier nor `next` is called. Otherwise the verifier receives exactly the token. On rejection: the same 401, `req.user` untouched and no `next`. On success: `req.user` is the payload and `next` is called once. |

## Left out

- Concurrency: calls are sequential. The model makes no claim about the read-then-`$inc` rating update racing with another review, nor about `findAll`'s `Promise.all`.
- Cache store failures, TTL expiry and the asynchrony of the rxjs `tap`: the store is a map, `set` is a plain write, and the miss path runs the handler and then stores.
- The `parseInt` of the TTL and the `JSON.parse` of `CACHE_TTL_MAP`: TTLs are integers already, and a NaN TTL is not modelled.
- Query values that the query-string parser turns into arrays or nested objects: every query value is a string.
- String order: names are compared by Unicode code point. JavaScript's default `sort()` compares UTF-16 code units, which orders differently only for characters outside the Basic Multilingual Plane against U+E000..U+FFFF.
- Floating point: `averageRating` is an exact real, so IEEE rounding is not modelled.
- MongoDB `$regex` matching: the title clause's match is a function parameter (`titleMatches`). Mongoose casts filter values to the schema's path types before the query runs, and the model does not. For `averageRating`, a Number path, a string bound such as `"7"` is cast to 7 and lists the movies rated 7 or more. A bound that does not cast, such as `"abc"`, makes the request fail with a CastError. For genre `name`, a String path, a number in the `$in` list is cast to its string and can match a genre of that name. The model compares without casting: a `$gte` clause with a non-numeric bound matches no movie, and a non-string genre name resolves to no genre.
- `new Types.ObjectId(id)` throwing on a malformed id: ids are plain strings. The ids MongoDB generates (`_id`, `insertedId`) are parameters the caller supplies fresh.
- Movies.MoviesService.FindAll: requires `page >= 1` and `limit >= 1`. The controller can pass NaN, fractional or negative numbers, and the model does not follow MongoDB's treatment of those or of `limit(0)`.
- Movies.MoviesService.Update: may overwrite `averageRating` and `rateCount`, so the ratings-consistency invariant is proved only for `create` and `createReview`. The invariant ranges over stored movies, so `remove` leaving a movie's reviews behind does not break it.
- src/movies/dto/update-movie.dto.ts is not part of this model: `UpdateMovieDto` is taken to be the stored fields of a movie, each optional.
- src/users/schemas/user.schema.ts is not part of this model: a user record holds the fields `createUser` inserts (`name`, `username`, `password`) and its `_id`.
- Movies.MoviesService.Create: a missing title is modelled as the empty string. The schema violation carries the offending path, not Mongoose's error message, and the HTTP status Nest answers it with is not modelled.
- Reviews.ReviewsService.CreateReview: ratings are integers, so the fractional ratings that the schema's bounds accept are not modelled. The schema violation carries the offending path, not Mongoose's error message, and the HTTP status Nest answers it with is not modelled.
- Reviews.ReviewsService.CreateReview: the `!existingMovie` guard's `NotFound('Movie not found')` is unreachable because `findOne` throws first, so the model returns `findOne`'s NotFound message. The same holds for Watchlist.WatchlistService.AddToWatchlist.
- `populate()` in `findReviewsByMovie` and `getWatchlist`: listings return the stored entries without the joined user or movie documents.
- The watchlist's `addedAt` default (`Date.now`): a parameter.
- bcrypt: `hash` and `compare` are function-valued fields of the user service, and the random salt is a parameter. The cost factor 10 is not modelled.
- JWT verification: `verifyAsync` is a function from token to optional payload, and the secret is not modelled.
- `JSON.parse` of the `filters` parameter and the unary-plus number conversion are function parameters. A filters string that parses to something other than an array of descriptors is not modelled.
- `process.env` values (`DEFAULT_PAGE_SIZE`, `MOVIE_APP_API_KEY`): parameters.
- The `x-apiKey` header lookup: Express matches header names case-insensitively, and the model looks up the lower-cased name.
- The validation pipe, `auth.service.ts`, the delegating controllers (reviews, users, watchlist), the Nest modules, `main.ts`, the database and cache-store providers and `bin/populateTMDBData.js`: wiring, I/O or third-party validation outside the core.
