/** The watchlist service: one entry per (user, movie), and the per-user listing. */
module Watchlist {
  import opened Http
  import opened Movies

  /** A watchlist record; `addedAt` is the clock reading `Date.now` supplies. */
  datatype WatchlistEntry = WatchlistEntry(userId: string, movieId: MovieId, addedAt: int)

  const AlreadyInWatchlist: string := "Movie already in watchlist"

  /** No (userId, movieId) pair appears twice. */
  predicate OneEntryPerPair(entries: seq<WatchlistEntry>)
  {
    forall i, j :: 0 <= i < j < |entries| ==>
      (entries[i].userId, entries[i].movieId) != (entries[j].userId, entries[j].movieId)
  }

  predicate Listed(entries: seq<WatchlistEntry>, userId: string, movieId: MovieId)
  {
    exists e :: e in entries && e.userId == userId && e.movieId == movieId
  }

  /** Appending a pair that is not yet listed keeps every pair unique. */
  lemma AddKeepsOneEntryPerPair(entries: seq<WatchlistEntry>, e: WatchlistEntry)
    requires OneEntryPerPair(entries) && !Listed(entries, e.userId, e.movieId)
    ensures OneEntryPerPair(entries + [e])
  {
    var entries' := entries + [e];
    forall i, j | 0 <= i < j < |entries'|
      ensures (entries'[i].userId, entries'[i].movieId) != (entries'[j].userId, entries'[j].movieId)
    {
      if j == |entries| {
        assert entries'[i] in entries;
      }
    }
  }

  /** `watchlistModel.find({ userId })`: one user's entries, in insertion order. */
  function EntriesOf(entries: seq<WatchlistEntry>, userId: string): (r: seq<WatchlistEntry>)
    ensures |r| <= |entries|
    ensures forall e :: e in r <==> e in entries && e.userId == userId
    decreases |entries|
  {
    if entries == [] then []
    else
      var rest := EntriesOf(entries[1..], userId);
      assert forall e :: e in entries <==> e == entries[0] || e in entries[1..];
      if entries[0].userId == userId then [entries[0]] + rest else rest
  }

  /** An added entry joins the listing of its own user only. */
  lemma {:induction false} EntriesOfAppend(entries: seq<WatchlistEntry>, e: WatchlistEntry, userId: string)
    ensures EntriesOf(entries + [e], userId)
         == EntriesOf(entries, userId) + (if e.userId == userId then [e] else [])
    decreases |entries|
  {
    if entries != [] {
      assert (entries + [e])[1..] == entries[1..] + [e];
      EntriesOfAppend(entries[1..], e, userId);
    }
  }

  class WatchlistService {
    /** The watchlist collection, in insertion order. */
    var entries: seq<WatchlistEntry>
    const moviesService: MoviesService

    ghost predicate Valid()
      reads this
    {
      OneEntryPerPair(entries)
    }

    constructor (moviesService: MoviesService)
      ensures Valid() && entries == [] && this.moviesService == moviesService
    {
      entries := [];
      this.moviesService := moviesService;
    }

    /**
     * `addToWatchlist`: the movie must exist (checked first, so a missing movie is
     * NotFound even when an entry exists) and must not already be listed for the
     * user (Conflict); both failures leave the collection unchanged. Otherwise
     * exactly one entry is appended and returned.
     */
    method AddToWatchlist(userId: string, movieId: MovieId, now: int) returns (r: Result<WatchlistEntry>)
      requires Valid()
      modifies this
      ensures Valid()
      ensures IndexOf(moviesService.movies, movieId) < 0 ==>
                r == Err(NotFound(FindOneMessage(movieId))) && entries == old(entries)
      ensures IndexOf(moviesService.movies, movieId) >= 0 && Listed(old(entries), userId, movieId) ==>
                r == Err(Conflict(AlreadyInWatchlist)) && entries == old(entries)
      ensures IndexOf(moviesService.movies, movieId) >= 0 && !Listed(old(entries), userId, movieId) ==>
                r == Ok(WatchlistEntry(userId, movieId, now)) && entries == old(entries) + [r.value]
    {
      var existingMovie := moviesService.FindOne(movieId);
      if existingMovie.Err? {
        return Err(existingMovie.error);
      }
      if exists e :: e in entries && e.userId == userId && e.movieId == movieId {
        return Err(Conflict(AlreadyInWatchlist));
      }
      var watchlistEntry := WatchlistEntry(userId, movieId, now);
      AddKeepsOneEntryPerPair(entries, watchlistEntry);
      entries := entries + [watchlistEntry];
      r := Ok(watchlistEntry);
    }

    /** `getWatchlist`: exactly the user's entries. */
    method GetWatchlist(userId: string) returns (rs: seq<WatchlistEntry>)
      ensures rs == EntriesOf(entries, userId)
      ensures forall e :: e in rs <==> e in entries && e.userId == userId
    {
      rs := EntriesOf(entries, userId);
    }
  }
}
