/** `AuthResource.login`: the user lookup by name and the password check
    that decide between a token and 401. Signing the token is done by the
    token service, which is given here as the function `sign` of the user's
    name and role. */
module AuthResource {
  import opened Wrappers
  import opened Backend

  const Ok := 200
  const Unauthorized := 401

  /** An HTTP response: its status and its JSON object body (empty when
      there is none). */
  datatype Response = Response(status: int, body: map<string, string>)

  /** `findByUsername`: the first user with exactly that name. */
  function FindByUsername(users: seq<UserEntity>, username: string): (r: Option<UserEntity>)
    ensures r.Some? ==> r.value in users && r.value.username == username
    ensures r.None? <==> forall k :: 0 <= k < |users| ==> users[k].username != username
  {
    if users == [] then None
    else if users[0].username == username then Some(users[0])
    else FindByUsername(users[1..], username)
  }

  /** `login`. */
  function Login(users: seq<UserEntity>, dto: LoginDTO, sign: (string, string) -> string): (r: Response)
    ensures r.status == Ok <==>
      FindByUsername(users, dto.username).Some? && FindByUsername(users, dto.username).value.password == dto.password
    ensures r.status == Ok ==>
      var user := FindByUsername(users, dto.username).value;
      r.body == map["token" := sign(user.username, user.role)]
    ensures r.status != Ok ==> r == Response(Unauthorized, map[])
  {
    var found := FindByUsername(users, dto.username);
    if found.Some? && found.value.password == dto.password then
      Response(Ok, map["token" := sign(found.value.username, found.value.role)])
    else
      Response(Unauthorized, map[])
  }

  /** A wrong password and an unknown name get the same answer, so a caller
      cannot tell which names exist. */
  lemma UnknownLooksLikeWrongPassword(users: seq<UserEntity>, known: string, wrong: string, unknown: string, password: string, sign: (string, string) -> string)
    requires exists k :: 0 <= k < |users| && users[k].username == known
    requires FindByUsername(users, known).value.password != wrong
    requires forall k :: 0 <= k < |users| ==> users[k].username != unknown
    ensures Login(users, LoginDTO(unknown, password), sign) == Login(users, LoginDTO(known, wrong), sign)
    ensures Login(users, LoginDTO(unknown, password), sign).status == Unauthorized
  {
  }

  /** With unique names, the holder of a user's password gets a token
      signed for that user's name and role; the answer body has the single
      key "token". */
  lemma StoredPasswordLogsIn(users: seq<UserEntity>, k: int, sign: (string, string) -> string)
    requires 0 <= k < |users|
    requires forall i, j :: 0 <= i < j < |users| ==> users[i].username != users[j].username
    ensures Login(users, LoginDTO(users[k].username, users[k].password), sign) ==
      Response(Ok, map["token" := sign(users[k].username, users[k].role)])
    ensures Login(users, LoginDTO(users[k].username, users[k].password), sign).body.Keys == {"token"}
  {
    FindFirst(users, k);
  }

  /** With unique names, the lookup of a stored user's name finds that
      user. */
  lemma {:induction false} FindFirst(users: seq<UserEntity>, k: int)
    requires 0 <= k < |users|
    requires forall i, j :: 0 <= i < j < |users| ==> users[i].username != users[j].username
    ensures FindByUsername(users, users[k].username) == Some(users[k])
  {
    if k > 0 {
      var tail := users[1..];
      assert tail[k - 1] == users[k];
      forall i, j | 0 <= i < j < |tail| ensures tail[i].username != tail[j].username {
        assert tail[i] == users[i + 1] && tail[j] == users[j + 1];
      }
      FindFirst(tail, k - 1);
    }
  }
}
