/** `UserView`: the projection of stored user documents onto `name` and `username`. */
module UserView {
  import opened Objects

  const UserFields: set<string> := {"name", "username"}

  /** `renderUser`: at most `name` and `username`, copied; never `password` or `_id`. */
  function RenderUser<V>(user: map<string, V>): (r: map<string, V>)
    ensures r.Keys == user.Keys * UserFields
    ensures forall k :: k in user && k in UserFields ==> k in r && r[k] == user[k]
    ensures "password" !in r && "_id" !in r
  {
    Pick(user, UserFields)
  }

  /** `render`: a single document is rendered; an array is rendered element by element. */
  function Render<V>(data: OneOrMany<map<string, V>>): (r: OneOrMany<map<string, V>>)
    ensures data.One? ==> r == One(RenderUser(data.item))
    ensures data.Many? ==> r.Many? && |r.items| == |data.items|
    ensures data.Many? ==> forall i :: 0 <= i < |data.items| ==> r.items[i] == RenderUser(data.items[i])
  {
    match data
    case One(user) => One(RenderUser(user))
    case Many(users) => Many(MapAll(users, RenderUser))
  }
}
