/**
 * The review service: one review per (user, movie), each new review feeding the
 * movie's running-mean rating, and the per-movie listing.
 */
module Reviews {
  import opened Http
  import opened Movies

  datatype Review = Review(userId: string, movieId: MovieId, rating: int, reviewText: Option<string>)

  /**
   * The body of `POST /reviews`. No validation pipe runs on that route, so `rating`
   * reaches the service unchecked; only the review schema's `min: 1, max: 10` bounds it.
   */
  datatype CreateReviewDto = CreateReviewDto(movieId: MovieId, rating: int, reviewText: Option<string>)

  const AlreadyReviewed: string := "User has already reviewed this movie"

  /** The review schema's bounds on `rating`. */
  predicate RatingInRange(rating: int)
  {
    1 <= rating <= 10
  }

  /** Every stored review satisfies the schema's rating bounds. */
  predicate RatingsInRange(reviews: seq<Review>)
  {
    forall r :: r in reviews ==> RatingInRange(r.rating)
  }

  /** At most one review per (userId, movieId). */
  predicate OneReviewPerPair(reviews: seq<Review>)
  {
    forall i, j :: 0 <= i < j < |reviews| ==>
      (reviews[i].userId, reviews[i].movieId) != (reviews[j].userId, reviews[j].movieId)
  }

  predicate HasReviewed(reviews: seq<Review>, userId: string, movieId: MovieId)
  {
    exists r :: r in reviews && r.userId == userId && r.movieId == movieId
  }

  /** Appending a review of a pair not yet reviewed keeps one review per pair. */
  lemma AddKeepsOneReviewPerPair(reviews: seq<Review>, r: Review)
    requires OneReviewPerPair(reviews) && !HasReviewed(reviews, r.userId, r.movieId)
    ensures OneReviewPerPair(reviews + [r])
  {
    var reviews' := reviews + [r];
    forall i, j | 0 <= i < j < |reviews'|
      ensures (reviews'[i].userId, reviews'[i].movieId) != (reviews'[j].userId, reviews'[j].movieId)
    {
      if j == |reviews| {
        assert reviews'[i] in reviews;
      }
    }
  }

  /** `reviewModel.find({ movieId })`: the reviews of one movie (an unsorted find, so no order is promised). */
  function ReviewsOf(reviews: seq<Review>, movieId: MovieId): (r: seq<Review>)
    ensures |r| <= |reviews|
    ensures forall x :: x in r <==> x in reviews && x.movieId == movieId
    decreases |reviews|
  {
    if reviews == [] then []
    else
      var init := reviews[..|reviews| - 1];
      var last := reviews[|reviews| - 1];
      assert forall x :: x in reviews <==> x in init || x == last by {
        assert reviews == init + [last];
      }
      ReviewsOf(init, movieId) + (if last.movieId == movieId then [last] else [])
  }

  /** A stored review joins the listing of its own movie only, once, at the end. */
  lemma ReviewsOfAppend(reviews: seq<Review>, r: Review, movieId: MovieId)
    ensures ReviewsOf(reviews + [r], movieId)
         == ReviewsOf(reviews, movieId) + (if r.movieId == movieId then [r] else [])
  {
    assert (reviews + [r])[..|reviews|] == reviews;
  }

  /** The ratings of one movie's reviews, in insertion order. */
  function RatingsFor(reviews: seq<Review>, movieId: MovieId): (rs: seq<int>)
    ensures |rs| == |ReviewsOf(reviews, movieId)|
    ensures forall i :: 0 <= i < |rs| ==> rs[i] == ReviewsOf(reviews, movieId)[i].rating
    decreases |reviews|
  {
    if reviews == [] then []
    else
      var last := reviews[|reviews| - 1];
      RatingsFor(reviews[..|reviews| - 1], movieId) + (if last.movieId == movieId then [last.rating] else [])
  }

  /** Every stored movie's rating state is the aggregate of its reviews' ratings. */
  ghost predicate RatingsConsistent(movies: seq<Movie>, reviews: seq<Review>)
  {
    forall m :: m in movies ==>
      RatingState(m.averageRating, m.rateCount) == Aggregate(RatingsFor(reviews, m.id))
  }

  lemma RatingsForAppend(reviews: seq<Review>, r: Review, movieId: MovieId)
    ensures RatingsFor(reviews + [r], movieId)
         == RatingsFor(reviews, movieId) + (if r.movieId == movieId then [r.rating] else [])
  {
    assert (reviews + [r])[..|reviews|] == reviews;
  }

  /**
   * Storing a review of movie `i` and applying its rating to movie `i` keeps every
   * movie's rating the aggregate of its reviews.
   */
  lemma ReviewKeepsRatingsConsistent(movies: seq<Movie>, reviews: seq<Review>, i: int, r: Review)
    requires UniqueIds(movies) && 0 <= i < |movies| && movies[i].id == r.movieId
    requires RatingsConsistent(movies, reviews)
    ensures RatingsConsistent(movies[i := Rate(movies[i], r.rating)], reviews + [r])
  {
    var movies' := movies[i := Rate(movies[i], r.rating)];
    forall m | m in movies'
      ensures RatingState(m.averageRating, m.rateCount) == Aggregate(RatingsFor(reviews + [r], m.id))
    {
      var j :| 0 <= j < |movies'| && movies'[j] == m;
      RatingsForAppend(reviews, r, m.id);
      if j == i {
        AggregateAppend(RatingsFor(reviews, m.id), r.rating);
      } else {
        assert m == movies[j] && m.id != r.movieId;
        assert RatingsFor(reviews + [r], m.id) == RatingsFor(reviews, m.id);
      }
    }
  }

  /** A freshly created movie, whose id no review mentions, starts consistent at (0, 0). */
  lemma CreateKeepsRatingsConsistent(movies: seq<Movie>, reviews: seq<Review>, m: Movie)
    requires RatingsConsistent(movies, reviews)
    requires m.averageRating == 0.0 && m.rateCount == 0
    requires forall r :: r in reviews ==> r.movieId != m.id
    ensures RatingsConsistent(movies + [m], reviews)
  {
    NoReviewsOf(reviews, m.id);
  }

  lemma {:induction false} NoReviewsOf(reviews: seq<Review>, movieId: MovieId)
    requires forall r :: r in reviews ==> r.movieId != movieId
    ensures ReviewsOf(reviews, movieId) == []
    decreases |reviews|
  {
    if reviews != [] {
      NoReviewsOf(reviews[..|reviews| - 1], movieId);
    }
  }

  /**
   * Under the consistency invariant, a reviewed movie's `rateCount` is its number of
   * reviews and its `averageRating` is the exact mean of their ratings, within [1, 10].
   */
  lemma ConsistentRatingIsMean(movies: seq<Movie>, reviews: seq<Review>, m: Movie)
    requires RatingsConsistent(movies, reviews) && m in movies
    requires RatingsInRange(reviews)
    ensures m.rateCount == |ReviewsOf(reviews, m.id)|
    ensures m.rateCount > 0 ==> m.averageRating == Mean(RatingsFor(reviews, m.id))
    ensures m.rateCount > 0 ==> 1.0 <= m.averageRating <= 10.0
  {
    var rs := RatingsFor(reviews, m.id);
    AggregateIsMean(rs);
    if |rs| > 0 {
      forall k | 0 <= k < |rs| ensures 1 <= rs[k] <= 10 {
        assert ReviewsOf(reviews, m.id)[k] in ReviewsOf(reviews, m.id);
      }
      AggregateWithinBounds(rs);
    }
  }

  class ReviewsService {
    /** The review collection, in insertion order. */
    var reviews: seq<Review>
    const movieService: MoviesService

    ghost predicate Valid()
      reads this, movieService
    {
      OneReviewPerPair(reviews) && RatingsInRange(reviews) && movieService.Valid()
    }

    constructor (movieService: MoviesService)
      requires movieService.Valid()
      ensures Valid() && reviews == [] && this.movieService == movieService
    {
      reviews := [];
      this.movieService := movieService;
    }

    /**
     * `createReview`: the movie must exist (`findOne`'s NotFound otherwise) and the
     * user must not have reviewed it (Conflict otherwise), and `reviewModel.create`
     * must accept the rating (the schema's bounds, a SchemaViolation otherwise); the
     * failures change nothing. On success exactly one review is stored and returned,
     * and then the movie's rating takes one `RatingStep` with the review's rating.
     */
    method CreateReview(userId: string, dto: CreateReviewDto) returns (r: Result<Review>)
      requires Valid()
      modifies this, movieService
      ensures Valid() && movieService.genres == old(movieService.genres)
      ensures var i := IndexOf(old(movieService.movies), dto.movieId);
              i < 0 ==> r == Err(NotFound(FindOneMessage(dto.movieId)))
                        && reviews == old(reviews) && movieService.movies == old(movieService.movies)
      ensures var i := IndexOf(old(movieService.movies), dto.movieId);
              i >= 0 && HasReviewed(old(reviews), userId, dto.movieId) ==>
                r == Err(Conflict(AlreadyReviewed))
                && reviews == old(reviews) && movieService.movies == old(movieService.movies)
      ensures var i := IndexOf(old(movieService.movies), dto.movieId);
              i >= 0 && !HasReviewed(old(reviews), userId, dto.movieId) && !RatingInRange(dto.rating) ==>
                r == Err(SchemaViolation("rating"))
                && reviews == old(reviews) && movieService.movies == old(movieService.movies)
      ensures var i := IndexOf(old(movieService.movies), dto.movieId);
              i >= 0 && !HasReviewed(old(reviews), userId, dto.movieId) && RatingInRange(dto.rating) ==>
                r == Ok(Review(userId, dto.movieId, dto.rating, dto.reviewText))
                && reviews == old(reviews) + [r.value]
                && movieService.movies == old(movieService.movies)[i := Rate(old(movieService.movies)[i], dto.rating)]
      ensures RatingsConsistent(old(movieService.movies), old(reviews))
              ==> RatingsConsistent(movieService.movies, reviews)
    {
      var existingMovie := movieService.FindOne(dto.movieId);
      if existingMovie.Err? {
        return Err(existingMovie.error);
      }
      if exists x :: x in reviews && x.userId == userId && x.movieId == dto.movieId {
        return Err(Conflict(AlreadyReviewed));
      }
      if !RatingInRange(dto.rating) {
        return Err(SchemaViolation("rating"));
      }
      var review := Review(userId, dto.movieId, dto.rating, dto.reviewText);
      ghost var oldMovies, oldReviews := movieService.movies, reviews;
      AddKeepsOneReviewPerPair(reviews, review);
      reviews := reviews + [review];
      var _ := movieService.UpdateRatingAndCount(dto.movieId, dto.rating);
      if RatingsConsistent(oldMovies, oldReviews) {
        ReviewKeepsRatingsConsistent(oldMovies, oldReviews, IndexOf(oldMovies, dto.movieId), review);
      }
      r := Ok(review);
    }

    /** `findReviewsByMovie`: exactly the reviews of that movie. */
    method FindReviewsByMovie(movieId: MovieId) returns (rs: seq<Review>)
      ensures rs == ReviewsOf(reviews, movieId)
      ensures forall x :: x in rs <==> x in reviews && x.movieId == movieId
    {
      rs := ReviewsOf(reviews, movieId);
    }
  }
}
