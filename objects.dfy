/** Plain objects as key-to-value maps, and lodash's `pick` over them. */
module Objects {

  /** A view's input: one document, or an array of documents (`Array.isArray`). */
  datatype OneOrMany<T> = One(item: T) | Many(items: seq<T>)

  /**
   * `_.pick(doc, paths)`: the entries of `doc` whose key is one of `paths`, with
   * their values unchanged; paths the document lacks are skipped.
   */
  function Pick<V>(doc: map<string, V>, paths: set<string>): (r: map<string, V>)
    ensures r.Keys == doc.Keys * paths
    ensures forall k :: k in r ==> r[k] == doc[k]
  {
    map k | k in doc.Keys && k in paths :: doc[k]
  }

  /** `array.map(render)`: the same length and order, element by element. */
  function MapAll<T, U>(xs: seq<T>, f: T -> U): (r: seq<U>)
    ensures |r| == |xs|
    ensures forall i :: 0 <= i < |xs| ==> r[i] == f(xs[i])
  {
    seq(|xs|, i requires 0 <= i < |xs| => f(xs[i]))
  }
}
