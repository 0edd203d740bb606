/** The authorization gate of the serverless API (`verifyToken`), the login
    endpoint that issues tokens and the endpoint that checks one.

    Signing and checking a JSON Web Token and comparing a password with its
    bcrypt hash are done by libraries; here they are parameters: `sign` maps a
    claim to a token, `verify` maps a token to the claim it carries or to None
    when its signature is wrong or it has expired, and `passwordMatches`
    answers bcrypt's comparison. */
module ApiAuth {
  import opened Http
  import opened Text
  import ApiStore

  /** What a token carries: `{ userId, username }`. */
  datatype Claim = Claim(userId: int, username: string)

  const BearerPrefix := "Bearer "

  /** The token in an `Authorization` header: present only when the header
      starts with exactly "Bearer " (same case, one space), and then it is
      everything after those 7 characters. */
  function BearerToken(header: Option<string>): (token: Option<string>)
    ensures token.Some? <==> header.Some? && StartsWith(header.value, BearerPrefix)
    ensures token.Some? ==> header.value == BearerPrefix + token.value
  {
    if header.Some? && StartsWith(header.value, BearerPrefix) then
      assert header.value == header.value[..7] + header.value[7..];
      Some(header.value[7..])
    else None
  }

  /** The prefix is case- and space-sensitive. */
  lemma BearerPrefixIsExact()
    ensures BearerToken(Some("bearer abc")).None?
    ensures BearerToken(Some("Bearer")).None?
    ensures BearerToken(Some("Bearer  abc")) == Some(" abc")
    ensures BearerToken(None).None?
  {
    assert !StartsWith("bearer abc", BearerPrefix) by {
      assert "bearer abc"[0] != BearerPrefix[0];
    }
  }

  /** The gate's outcome: the decoded claim, or why there is none. */
  datatype Gate = Pass(claim: Claim) | BadHeader | BadToken

  /** `verifyToken(req.headers.authorization)`: it throws on a missing or
      malformed header and when `jwt.verify` throws; otherwise it returns
      the decoded claim. */
  function Authorize(header: Option<string>, verify: string -> Option<Claim>): (g: Gate)
    ensures g.BadHeader? <==> BearerToken(header).None?
    ensures g.Pass? <==> exists t :: header == Some(BearerPrefix + t) && verify(t).Some?
    ensures g.Pass? ==> exists t :: header == Some(BearerPrefix + t) && verify(t) == Some(g.claim)
  {
    match BearerToken(header)
    case None =>
      BadHeader
    case Some(t) =>
      assert forall u :: header == Some(BearerPrefix + u) ==> u == t by {
        forall u | header == Some(BearerPrefix + u) ensures u == t {
          assert (BearerPrefix + u)[7..] == u;
          assert (BearerPrefix + t)[7..] == t;
        }
      }
      match verify(t)
      case None => BadToken
      case Some(c) => Pass(c)
  }

  /** Where a protected handler sends a request. */
  datatype Route = Preflight | Denied | Handle(m: Method) | NotAllowed

  /** The order every protected handler follows: OPTIONS is answered 200
      before anything else, then the gate refuses with 401, then a method the
      handler supports is served, and any other gets 405. */
  function Dispatch(m: Method, supported: set<Method>, header: Option<string>,
                    verify: string -> Option<Claim>): (r: Route)
    ensures r == Preflight <==> m == Options
    ensures m != Options && !Authorize(header, verify).Pass? ==> r == Denied
    ensures r == Handle(m) <==> m != Options && Authorize(header, verify).Pass? && m in supported
    ensures r == NotAllowed <==> m != Options && Authorize(header, verify).Pass? && m !in supported
    ensures r.Handle? ==> r.m == m
  {
    if m == Options then Preflight
    else if !Authorize(header, verify).Pass? then Denied
    else if m in supported then Handle(m)
    else NotAllowed
  }

  /** A failed gate is a 401 whatever the method, even one the handler does
      not support: no method is looked at before the gate passes. */
  lemma DeniedBeforeAnyMethod(m1: Method, m2: Method, s1: set<Method>, s2: set<Method>,
                              header: Option<string>, verify: string -> Option<Claim>)
    requires m1 != Options && m2 != Options
    requires !Authorize(header, verify).Pass?
    ensures Dispatch(m1, s1, header, verify) == Dispatch(m2, s2, header, verify) == Denied
  {
  }

  datatype LoginBody = LoginBody(username: Option<string>, password: Option<string>)

  datatype UserSummary = UserSummary(id: int, username: string)

  datatype Session = Session(token: string, user: UserSummary)

  const MissingLogin := "Thiếu username hoặc password"
  const BadLogin := "Sai tên đăng nhập hoặc mật khẩu"
  const BadHeaderMessage := "Token không hợp lệ"
  const BadTokenMessage := "Token không hợp lệ hoặc đã hết hạn"

  /** `SELECT * FROM users WHERE username = $1`, first row. */
  function FindUser(users: seq<ApiStore.User>, name: string): (r: Option<ApiStore.User>)
    ensures r.Some? ==> r.value in users && r.value.username == name
    ensures r.None? ==> forall u :: u in users ==> u.username != name
  {
    if users == [] then None
    else if users[0].username == name then Some(users[0])
    else FindUser(users[1..], name)
  }

  /** POST /api/auth. `queryFails` stands for a storage error on the lookup. */
  function Login(body: LoginBody, users: seq<ApiStore.User>, queryFails: bool,
                 passwordMatches: (string, string) -> bool, sign: Claim -> string): (r: Reply<Session>)
    // an empty username or password is refused before any lookup
    ensures !(TruthyString(body.username) && TruthyString(body.password)) ==> r == Failure(400, MissingLogin)
    // a storage error on the lookup is a 500
    ensures TruthyString(body.username) && TruthyString(body.password) && queryFails ==> r == Failure(500, ServerError)
    // an unknown user and a wrong password get the very same answer
    ensures TruthyString(body.username) && TruthyString(body.password) && !queryFails ==>
              (r == Failure(401, BadLogin) <==>
                 FindUser(users, body.username.value).None?
                 || !passwordMatches(body.password.value, FindUser(users, body.username.value).value.passwordHash))
    ensures r.Success? <==>
              && TruthyString(body.username) && TruthyString(body.password) && !queryFails
              && FindUser(users, body.username.value).Some?
              && passwordMatches(body.password.value, FindUser(users, body.username.value).value.passwordHash)
    // on success the token's claim and the returned summary name the same user
    ensures r.Success? ==>
              && r.status == 200
              && r.value.token == sign(Claim(r.value.user.id, r.value.user.username))
              && r.value.user.username == body.username.value
              && FindUser(users, body.username.value) == Some(ApiStore.User(r.value.user.id, r.value.user.username, FindUser(users, body.username.value).value.passwordHash))
  {
    if !TruthyString(body.username) || !TruthyString(body.password) then Failure(400, MissingLogin)
    else if queryFails then Failure(500, ServerError)
    else match FindUser(users, body.username.value)
      case None => Failure(401, BadLogin)
      case Some(user) =>
        if !passwordMatches(body.password.value, user.passwordHash) then Failure(401, BadLogin)
        else Success(200, Session(sign(Claim(user.id, user.username)), UserSummary(user.id, user.username)))
  }

  datatype Verified = Verified(valid: bool, user: Claim)

  /** GET /api/auth: 401 with one message for a malformed header and with
      another when the token does not verify; otherwise the decoded claim. */
  function CheckToken(header: Option<string>, verify: string -> Option<Claim>): (r: Reply<Verified>)
    ensures r.Success? <==> Authorize(header, verify).Pass?
    ensures r.Success? ==> r.status == 200 && r.value == Verified(true, Authorize(header, verify).claim)
    ensures r.Failure? ==> r.status == 401
    ensures BearerToken(header).None? ==> r == Failure(401, BadHeaderMessage)
    ensures Authorize(header, verify).BadToken? ==> r == Failure(401, BadTokenMessage)
  {
    match BearerToken(header)
    case None => Failure(401, BadHeaderMessage)
    case Some(t) =>
      match verify(t)
      case None => Failure(401, BadTokenMessage)
      case Some(c) => Success(200, Verified(true, c))
  }

  datatype AuthPayload = Preflighted | LoggedIn(session: Session) | TokenChecked(verified: Verified)

  /** The whole /api/auth handler: OPTIONS, POST (login), GET (check), else 405.
      This endpoint has no gate of its own. */
  function HandleAuth(m: Method, body: LoginBody, header: Option<string>, users: seq<ApiStore.User>,
                      queryFails: bool, passwordMatches: (string, string) -> bool,
                      sign: Claim -> string, verify: string -> Option<Claim>): (r: Reply<AuthPayload>)
    ensures m == Options ==> r == Success(200, Preflighted)
    ensures m == Post ==>
              var login := Login(body, users, queryFails, passwordMatches, sign);
              && r.status == login.status
              && (r.Success? <==> login.Success?)
              && (r.Success? ==> r.value == LoggedIn(login.value))
              && (r.Failure? ==> r.error == login.error)
    ensures m == Get ==>
              var check := CheckToken(header, verify);
              && r.status == check.status
              && (r.Success? <==> check.Success?)
              && (r.Success? ==> r.value == TokenChecked(check.value))
              && (r.Failure? ==> r.error == check.error)
    ensures m !in {Options, Post, Get} ==> r == Failure(405, MethodNotAllowed)
  {
    match m
    case Options => Success(200, Preflighted)
    case Post =>
      (match Login(body, users, queryFails, passwordMatches, sign)
       case Success(s, v) => Success(s, LoggedIn(v))
       case Failure(s, e) => Failure(s, e))
    case Get =>
      (match CheckToken(header, verify)
       case Success(s, v) => Success(s, TokenChecked(v))
       case Failure(s, e) => Failure(s, e))
    case _ => Failure(405, MethodNotAllowed)
  }
}
