/** The `/auth` routes: registration, login and the current user's record. Password hashing
    and token signing are the oracles of `Crypto`. */
module AuthRoutes {
  import opened Common
  import opened Store
  import opened AuthMiddleware

  /** The user fields the auth routes return: everything but the password hash. */
  datatype UserSummary = UserSummary(
    id: int, username: string, email: string, avatarUrl: Option<string>, bio: Option<string>, createdAt: int)

  function Summary(u: UserRow): UserSummary {
    UserSummary(u.id, u.username, u.email, u.avatarUrl, u.bio, u.createdAt)
  }

  /** The answers of register and login: a failure status with its message, or a success status
      with the user and a signed token. */
  datatype AuthReply =
    | AuthFailed(status: int, message: string)
    | Authenticated(status: int, user: UserSummary, token: string)

  datatype RegisterRequest = RegisterRequest(
    username: Option<string>, email: Option<string>, password: Option<string>,
    avatarUrl: Option<string>, bio: Option<string>)

  /** `!username || !email || !password` is false. */
  predicate HasRequiredFields(req: RegisterRequest) {
    Present(req.username) && Present(req.email) && Present(req.password)
  }

  /** The reply and the user table after a registration. */
  datatype RegisterOutcome = RegisterOutcome(reply: AuthReply, users: seq<UserRow>, nextUserId: int)

  /** POST /auth/register; `now` is the store's clock for `createdAt`. */
  function Register(users: seq<UserRow>, nextId: int, req: RegisterRequest, crypto: Crypto, now: int): (r: RegisterOutcome)
    ensures r.reply == AuthFailed(400, "Missing required fields") <==> !HasRequiredFields(req)
    ensures r.reply == AuthFailed(400, "Email already registered") <==>
      HasRequiredFields(req) && exists u :: u in users && u.email == req.email.value
    ensures r.reply.Authenticated? <==>
      HasRequiredFields(req) && forall u :: u in users ==> u.email != req.email.value
    ensures r.reply.AuthFailed? ==> r.users == users && r.nextUserId == nextId
    ensures r.reply.Authenticated? ==>
      var created := UserRow(nextId, req.username.value, req.email.value, crypto.hash(req.password.value),
                             req.avatarUrl, req.bio, now);
      && r.users == users + [created]
      && r.nextUserId == nextId + 1
      && r.reply == Authenticated(201, Summary(created), crypto.sign(nextId, now))
  {
    if !HasRequiredFields(req) then
      RegisterOutcome(AuthFailed(400, "Missing required fields"), users, nextId)
    else if FindUserByEmail(users, req.email.value).Some? then
      RegisterOutcome(AuthFailed(400, "Email already registered"), users, nextId)
    else
      var created := UserRow(nextId, req.username.value, req.email.value, crypto.hash(req.password.value),
                             req.avatarUrl, req.bio, now);
      RegisterOutcome(Authenticated(201, Summary(created), crypto.sign(nextId, now)), users + [created], nextId + 1)
  }

  /** Registration keeps ids and emails unique, and the stored password is the hash of the one sent. */
  lemma RegisterKeepsValid(users: seq<UserRow>, nextId: int, req: RegisterRequest, crypto: Crypto, now: int)
    requires UsersValid(users, nextId)
    ensures var r := Register(users, nextId, req, crypto, now);
      && UsersValid(r.users, r.nextUserId)
      && (r.reply.Authenticated? ==> r.users[|users|].password == crypto.hash(req.password.value))
  {
    var r := Register(users, nextId, req, crypto, now);
    if r.reply.Authenticated? {
      var created := r.users[|users|];
      assert r.users == users + [created];
      forall y | y in users ensures UserId(y) != UserId(created) {
        var i :| 0 <= i < |users| && users[i] == y;
        assert UserId(users[i]) < nextId;
      }
      AppendDistinct(users, created, UserId);
      forall y | y in users ensures UserEmail(y) != UserEmail(created) {
        assert !HasEmail(req.email.value)(y);
      }
      AppendDistinct(users, created, UserEmail);
    }
  }

  datatype LoginRequest = LoginRequest(email: Option<string>, password: Option<string>)

  /** POST /auth/login. */
  function Login(users: seq<UserRow>, req: LoginRequest, crypto: Crypto, now: int): (r: AuthReply)
    ensures r == AuthFailed(400, "Email and password required") <==> !(Present(req.email) && Present(req.password))
    ensures r.Authenticated? <==>
      && Present(req.email) && Present(req.password)
      && FindUserByEmail(users, req.email.value).Some?
      && crypto.compare(req.password.value, FindUserByEmail(users, req.email.value).value.password)
    ensures r.Authenticated? ==>
      var u := FindUserByEmail(users, req.email.value).value;
      r == Authenticated(200, Summary(u), crypto.sign(u.id, now))
    ensures r.AuthFailed? && Present(req.email) && Present(req.password) ==> r == AuthFailed(401, "Invalid credentials")
  {
    if !(Present(req.email) && Present(req.password)) then
      AuthFailed(400, "Email and password required")
    else
      match FindUserByEmail(users, req.email.value)
      case None => AuthFailed(401, "Invalid credentials")
      case Some(u) =>
        if !crypto.compare(req.password.value, u.password) then AuthFailed(401, "Invalid credentials")
        else Authenticated(200, Summary(u), crypto.sign(u.id, now))
  }

  /** An unknown email and a wrong password for a known one get the same answer. */
  lemma LoginHidesWhichCheckFailed(users: seq<UserRow>, unknown: LoginRequest, wrong: LoginRequest, crypto: Crypto, now: int)
    requires Present(unknown.email) && Present(unknown.password)
    requires forall u :: u in users ==> u.email != unknown.email.value
    requires Present(wrong.email) && Present(wrong.password)
    requires exists u :: u in users && u.email == wrong.email.value && !crypto.compare(wrong.password.value, u.password)
    requires Distinct(users, UserEmail)
    ensures Login(users, unknown, crypto, now) == Login(users, wrong, crypto, now) == AuthFailed(401, "Invalid credentials")
  {
    var u :| u in users && u.email == wrong.email.value && !crypto.compare(wrong.password.value, u.password);
    var found := FindUserByEmail(users, wrong.email.value).value;
    DistinctSame(users, UserEmail, u, found);
    assert !HasEmail(unknown.email.value)(u);
  }

  /** After a successful registration at `now`, logging in at `later` with the same email and
      password succeeds for the new user, provided the hash oracle accepts its own hashes. The
      login answers with the same user and a token freshly signed for that user at `later`. */
  lemma RegisterThenLogin(users: seq<UserRow>, nextId: int, req: RegisterRequest, crypto: Crypto, now: int, later: int)
    requires Register(users, nextId, req, crypto, now).reply.Authenticated?
    requires crypto.compare(req.password.value, crypto.hash(req.password.value))
    ensures var r := Register(users, nextId, req, crypto, now);
      && r.reply.user.id == nextId
      && Login(r.users, LoginRequest(req.email, req.password), crypto, later)
           == Authenticated(200, r.reply.user, crypto.sign(r.reply.user.id, later))
  {
    var r := Register(users, nextId, req, crypto, now);
    var created := r.users[|users|];
    assert r.users == users + [created];
    FindPastMisses(users, [created], HasEmail(req.email.value));
  }

  /** GET /auth/me for the token's user: the user's summary, or 404 "User not found". */
  datatype MeReply = MeFound(user: UserSummary) | MeNotFound

  function Me(users: seq<UserRow>, claims: Claims): (r: MeReply)
    ensures r.MeNotFound? <==> forall u :: u in users ==> u.id != claims.userId
    ensures r.MeFound? ==> r.user.id == claims.userId && exists u :: u in users && Summary(u) == r.user
  {
    match FindUser(users, claims.userId)
    case None => MeNotFound
    case Some(u) => MeFound(Summary(u))
  }

  /** The whole GET /auth/me: the gate, then the lookup. */
  datatype MeRouteReply = MeRejected(status: int, message: string) | MeAnswered(reply: MeReply)

  function MeRoute(users: seq<UserRow>, header: Option<string>, verify: string -> Option<Claims>): (r: MeRouteReply)
    ensures r.MeRejected? <==> Gate(header, verify).Rejected?
    ensures r.MeAnswered? ==> r.reply == Me(users, Gate(header, verify).user)
  {
    match Gate(header, verify)
    case Rejected(status, message) => MeRejected(status, message)
    case Admitted(claims) => MeAnswered(Me(users, claims))
  }

  /** The token a registration hands out, sent back as a bearer header, reaches the new user's
      record, provided the verifier accepts the signer's tokens and tokens carry no spaces. */
  lemma RegisterThenMe(users: seq<UserRow>, nextId: int, req: RegisterRequest, crypto: Crypto, now: int)
    requires UsersValid(users, nextId)
    requires Register(users, nextId, req, crypto, now).reply.Authenticated?
    requires ' ' !in crypto.sign(nextId, now) && crypto.verify(crypto.sign(nextId, now)) == Some(Claims(nextId))
    ensures var r := Register(users, nextId, req, crypto, now);
      MeRoute(r.users, Some(BearerPrefix + r.reply.token), crypto.verify) == MeAnswered(MeFound(r.reply.user))
  {
    var r := Register(users, nextId, req, crypto, now);
    var created := r.users[|users|];
    assert r.users == users + [created];
    BearerTokenOfSent(crypto.sign(nextId, now));
    forall y | y in users ensures !HasId(nextId)(y) {
      var i :| 0 <= i < |users| && users[i] == y;
      assert UserId(users[i]) < nextId;
    }
    FindPastMisses(users, [created], HasId(nextId));
  }

  /** POST /auth/register. */
  method RegisterRoute(db: Database, req: RegisterRequest, crypto: Crypto, now: int) returns (reply: AuthReply)
    requires db.Valid()
    modifies db`users, db`nextUserId
    ensures db.Valid()
    ensures var o := Register(old(db.users), old(db.nextUserId), req, crypto, now);
      reply == o.reply && db.users == o.users && db.nextUserId == o.nextUserId
  {
    RegisterKeepsValid(db.users, db.nextUserId, req, crypto, now);
    if !HasRequiredFields(req) {
      return AuthFailed(400, "Missing required fields");
    }
    var existing := FindUserByEmail(db.users, req.email.value);
    if existing.Some? {
      return AuthFailed(400, "Email already registered");
    }
    var hashed := crypto.hash(req.password.value);
    var user := UserRow(db.nextUserId, req.username.value, req.email.value, hashed, req.avatarUrl, req.bio, now);
    db.users := db.users + [user];
    db.nextUserId := db.nextUserId + 1;
    var token := crypto.sign(user.id, now);
    reply := Authenticated(201, Summary(user), token);
  }
}
