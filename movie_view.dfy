/** `MovieView`: the projection of stored movie documents onto the public fields. */
module MovieView {
  import opened Objects

  /** The six fields a rendered movie may carry. */
  const MovieFields: set<string> := {"_id", "title", "overview", "genre_ids", "averageRating", "rateCount"}

  /**
   * `renderMovie`: the document's public fields with their values unchanged;
   * `original_title` and every other field are dropped.
   */
  function RenderMovie<V>(movie: map<string, V>): (r: map<string, V>)
    ensures r.Keys == movie.Keys * MovieFields
    ensures MovieFields <= movie.Keys ==> r.Keys == MovieFields
    ensures forall k :: k in movie && k in MovieFields ==> k in r && r[k] == movie[k]
    ensures "original_title" !in r && "password" !in r
  {
    Pick(movie, MovieFields)
  }

  /** `render`: a single document is rendered; an array is rendered element by element. */
  function Render<V>(data: OneOrMany<map<string, V>>): (r: OneOrMany<map<string, V>>)
    ensures data.One? ==> r == One(RenderMovie(data.item))
    ensures data.Many? ==> r.Many? && |r.items| == |data.items|
    ensures data.Many? ==> forall i :: 0 <= i < |data.items| ==> r.items[i] == RenderMovie(data.items[i])
  {
    match data
    case One(movie) => One(RenderMovie(movie))
    case Many(movies) => Many(MapAll(movies, RenderMovie))
  }
}
