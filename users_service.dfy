/**
 * The user service: registration with unique usernames and a bcrypt digest in
 * place of the password, lookup by username, and credential validation.
 */
module Users {
  import opened Http
  import UserView

  /** A stored user document; `password` holds the bcrypt digest. */
  datatype User = User(id: string, name: string, username: string, password: string)

  datatype CreateUserDto = CreateUserDto(name: string, username: string, password: string)

  const UserExists: string := "User already exists"
  const UserNotFound: string := "User not found"

  /** The user as the plain object the collection returns. */
  function Doc(u: User): map<string, string>
  {
    map["_id" := u.id, "name" := u.name, "username" := u.username, "password" := u.password]
  }

  predicate UniqueUsernames(users: seq<User>)
  {
    forall i, j :: 0 <= i < j < |users| ==> users[i].username != users[j].username
  }

  /** Appending a user whose username is not taken keeps usernames unique. */
  lemma AddKeepsUsernamesUnique(users: seq<User>, u: User)
    requires UniqueUsernames(users) && forall x :: x in users ==> x.username != u.username
    ensures UniqueUsernames(users + [u])
  {
    var users' := users + [u];
    forall i, j | 0 <= i < j < |users'| ensures users'[i].username != users'[j].username {
      if j == |users| {
        assert users'[i] in users;
      }
    }
  }

  /** `findOne({ username })`: the position of the user with that username, or -1. */
  function FindUser(users: seq<User>, username: string): (i: int)
    ensures -1 <= i < |users|
    ensures i >= 0 ==> users[i].username == username
    ensures i < 0 <==> forall u :: u in users ==> u.username != username
    decreases |users|
  {
    if users == [] then -1
    else if users[0].username == username then 0
    else
      var j := FindUser(users[1..], username);
      assert forall u :: u in users ==> u == users[0] || u in users[1..];
      if j < 0 then -1 else j + 1
  }

  /**
   * What `validateUser` resolves to, given bcrypt's `compare`: NotFound for an
   * unknown username, null for a wrong password, the stored user otherwise.
   */
  function Validate(users: seq<User>, compare: (string, string) -> bool, username: string, password: string)
    : (r: Result<Option<User>>)
    ensures FindUser(users, username) < 0 <==> r == Err(NotFound(UserNotFound))
    ensures r.Ok? && r.value.Some? ==>
              r.value.value in users && r.value.value.username == username && compare(password, r.value.value.password)
    ensures r.Ok? && r.value.None? ==> exists u :: u in users && u.username == username && !compare(password, u.password)
    ensures var i := FindUser(users, username);
            i >= 0 && compare(password, users[i].password) ==> r == Ok(Some(users[i]))
    ensures var i := FindUser(users, username);
            i >= 0 && !compare(password, users[i].password) ==> r == Ok(None)
  {
    var i := FindUser(users, username);
    if i < 0 then Err(NotFound(UserNotFound))
    else if compare(password, users[i].password) then Ok(Some(users[i]))
    else Ok(None)
  }

  /** bcrypt's correctness: a password matches every digest made from it. */
  ghost predicate DigestsMatch(hash: (string, string) -> string, compare: (string, string) -> bool)
  {
    forall password, salt :: compare(password, hash(password, salt))
  }

  /**
   * Registering a new username and then validating it with the same password
   * returns the user just stored, when `compare` accepts `hash`'s digests.
   */
  lemma ValidateAfterCreate(users: seq<User>, hash: (string, string) -> string,
                            compare: (string, string) -> bool, dto: CreateUserDto, id: string, salt: string)
    requires DigestsMatch(hash, compare)
    requires forall u :: u in users ==> u.username != dto.username
    ensures var u := User(id, dto.name, dto.username, hash(dto.password, salt));
            Validate(users + [u], compare, dto.username, dto.password) == Ok(Some(u))
  {
    var u := User(id, dto.name, dto.username, hash(dto.password, salt));
    FindUserAppend(users, u, dto.username);
  }

  /** Looking up a username after one more insertion. */
  lemma {:induction false} FindUserAppend(users: seq<User>, u: User, username: string)
    ensures FindUser(users + [u], username)
         == if FindUser(users, username) >= 0 then FindUser(users, username)
            else if u.username == username then |users| else -1
    decreases |users|
  {
    if users != [] {
      assert (users + [u])[1..] == users[1..] + [u];
      FindUserAppend(users[1..], u, username);
    }
  }

  class UsersService {
    /** The `users` collection, in insertion order. */
    var users: seq<User>
    /** `bcrypt.hash(password, 10)`, with the random salt made explicit. */
    const hash: (string, string) -> string
    /** `bcrypt.compare(password, digest)`. */
    const compare: (string, string) -> bool

    ghost predicate Valid()
      reads this
    {
      UniqueUsernames(users)
    }

    constructor (hash: (string, string) -> string, compare: (string, string) -> bool)
      ensures Valid() && users == [] && this.hash == hash && this.compare == compare
    {
      users := [];
      this.hash := hash;
      this.compare := compare;
    }

    /**
     * `createUser`: Conflict, with nothing inserted, when the username is taken;
     * otherwise one record holding the digest of the password is appended, and the
     * rendered record (name and username only) is returned. `newId` is the
     * `insertedId` the collection assigns; `salt` is bcrypt's random salt.
     */
    method CreateUser(dto: CreateUserDto, newId: string, salt: string) returns (r: Result<map<string, string>>)
      requires Valid()
      modifies this
      ensures Valid()
      ensures FindUser(old(users), dto.username) >= 0 ==>
                r == Err(Conflict(UserExists)) && users == old(users)
      ensures FindUser(old(users), dto.username) < 0 ==>
                users == old(users) + [User(newId, dto.name, dto.username, hash(dto.password, salt))]
                && r == Ok(map["name" := dto.name, "username" := dto.username])
    {
      var existingUser := FindUser(users, dto.username);
      if existingUser >= 0 {
        return Err(Conflict(UserExists));
      }
      var hashedPassword := hash(dto.password, salt);
      var user := User(newId, dto.name, dto.username, hashedPassword);
      AddKeepsUsernamesUnique(users, user);
      users := users + [user];
      var newUser := users[|users| - 1];
      var rendered := UserView.RenderUser(Doc(newUser));
      assert rendered.Keys == {"name", "username"};
      assert rendered["name"] == dto.name && rendered["username"] == dto.username;
      ghost var expected := map["name" := dto.name, "username" := dto.username];
      assert expected.Keys == rendered.Keys;
      assert rendered == expected;
      r := Ok(rendered);
    }

    /** `findByUsername`: the user with that username, or NotFound. */
    method FindByUsername(username: string) returns (r: Result<User>)
      requires Valid()
      ensures r.Err? <==> forall u :: u in users ==> u.username != username
      ensures r.Err? ==> r.error == NotFound(UserNotFound)
      ensures r.Ok? ==> r.value in users && r.value.username == username
    {
      var i := FindUser(users, username);
      if i < 0 {
        return Err(NotFound(UserNotFound));
      }
      return Ok(users[i]);
    }

    /** `validateUser`: see `Validate`. */
    method ValidateUser(username: string, password: string) returns (r: Result<Option<User>>)
      requires Valid()
      ensures r == Validate(users, compare, username, password)
    {
      var user := FindByUsername(username);
      if user.Err? {
        return Err(user.error);
      }
      assert user.value == users[FindUser(users, username)];
      var isPasswordValid := compare(password, user.value.password);
      if !isPasswordValid {
        return Ok(None);
      }
      return Ok(Some(user.value));
    }
  }
}
