/** The read-only handlers of the auth controller: login and reading the
    acting user's status. Signup and status updates change the store and are
    methods of `Store.Store`. Password comparison is the `matches` oracle
    (bcrypt's `compare`); signing is left abstract, so a token is the record of
    what it embeds. */
module Auth {
  import opened Common
  import opened UserModel
  import AuthRoutes

  /** `expiresIn: '1h'`, in seconds. */
  const TokenLifetime := 3600

  /** What `jwt.sign` embeds: the stored address, the user id, the lifetime. */
  datatype Token = Token(email: string, userId: UserId, expiresIn: nat)

  /** The login response body. */
  datatype Session = Session(token: Token, userId: UserId)

  const UnknownUserMessage := "Could not find user"
  /** Login reuses the post wording for a wrong password. */
  const WrongPasswordMessage := "Could not find post"

  /** Every set of naturals that is not empty has a least element. */
  lemma {:induction false} LeastOf(ids: set<UserId>) returns (m: UserId)
    requires ids != {}
    ensures m in ids && forall j :: j in ids ==> m <= j
    decreases |ids|
  {
    var x :| x in ids;
    var rest := ids - {x};
    if rest == {} {
      assert ids == {x};
      m := x;
    } else {
      var n := LeastOf(rest);
      m := if x < n then x else n;
      forall j | j in ids ensures m <= j {
        if j != x { assert j in rest; }
      }
    }
  }

  lemma LeastExists(ids: set<UserId>)
    requires ids != {}
    ensures exists m :: m in ids && forall j :: j in ids ==> m <= j
  {
    var m := LeastOf(ids);
  }

  /** `User.findOne({email})`: the earliest-created user with exactly this
      address, or nothing. */
  function FindByEmail(users: map<UserId, User>, email: string): (r: Option<UserId>)
    ensures r.None? <==> !AuthRoutes.EmailTaken(users, email)
    ensures r.Some? ==> r.value in users && users[r.value].email == email
    ensures r.Some? ==> forall j :: j in users && users[j].email == email ==> r.value <= j
  {
    var matching := set id | id in users && users[id].email == email;
    assert forall j :: j in users && users[j].email == email ==> j in matching;
    if matching == {} then None
    else
      LeastExists(matching);
      var id :| id in matching && forall j :: j in matching ==> id <= j;
      Some(id)
  }

  /** POST /auth/login: 404 for an unknown address, 401 when the password does
      not match the first user holding it, otherwise a one-hour token for that
      user and the user's id. */
  function Login(users: map<UserId, User>, email: string, password: string,
                 matches: (string, string) -> bool): (r: Result<Session>)
    ensures r.Err? && r.error.statusCode == Some(404) <==> !AuthRoutes.EmailTaken(users, email)
    ensures r.Err? && r.error.statusCode == Some(401) <==>
      AuthRoutes.EmailTaken(users, email) && !matches(password, users[FindByEmail(users, email).value].password)
    ensures r.Err? ==> r.error.statusCode in {Some(401), Some(404)} && r.error.data == None
    ensures r.Err? ==>
              r.error.message == (if r.error.statusCode == Some(404) then UnknownUserMessage else WrongPasswordMessage)
    ensures r.Ok? ==> r.status == 200 && r.value.userId in users
    ensures r.Ok? ==> users[r.value.userId].email == email && matches(password, users[r.value.userId].password)
    ensures r.Ok? ==> r.value.token == Token(email, r.value.userId, TokenLifetime)
    ensures r.Ok? ==> forall j :: j in users && users[j].email == email ==> r.value.userId <= j
  {
    match FindByEmail(users, email)
    case None => Fail(404, UnknownUserMessage)
    case Some(id) =>
      if !matches(password, users[id].password) then Fail(401, WrongPasswordMessage)
      else
        var user := users[id];
        Ok(200, Session(Token(user.email, id, TokenLifetime), id))
  }

  /** GET /auth/status: the acting user's stored status, 401 for an id with no user. */
  function GetStatus(users: map<UserId, User>, userId: UserId): (r: Result<string>)
    ensures r.Ok? <==> userId in users
    ensures r.Ok? ==> r.status == 200 && r.value == users[userId].status
    ensures r.Err? ==> r.error.statusCode == Some(401)
  {
    if userId !in users then Fail(401, UnknownUserMessage)
    else Ok(200, users[userId].status)
  }
}
