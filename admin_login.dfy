/**
 * POST /api/admin/auth: the admin login. Credentials must be present, the
 * account must exist and have role 'ADMIN' (checked before the password), the
 * password must match; then a token is issued, one session row is stored and
 * the token is returned in the body and in the `admin-token` cookie.
 */
module AdminLogin {
  import opened Wrappers
  import opened Json
  import opened Store
  import opened Http
  import opened Auth
  import Cookie
  import Gate

  /** `7 * 24 * 60 * 60 * 1000`: the session window in milliseconds. */
  const SessionMillis := 7 * 24 * 60 * 60 * 1000

  const MissingCredentials := Error(400, "Email and password are required")
  const InvalidCredentials := Error(401, "Invalid credentials")

  /** The `adminSession` row: `{ token, userId, expiresAt: new Date(now + 7 days) }`. */
  function SessionRow(token: string, user: Json, now: nat): (row: Body)
    ensures row.Keys == {"token", "userId", "expiresAt"} || row.Keys == {"token", "expiresAt"}
    ensures row["token"] == JStr(token)
    ensures row["expiresAt"] == JConv(ToDate, JNum(now + SessionMillis))
    ensures Get(row, "userId") == Field(user, "id")
  {
    Put(map["token" := JStr(token)], "userId", Field(user, "id"))["expiresAt" := JConv(ToDate, JNum(now + SessionMillis))]
  }

  function SessionCookie(token: string): string {
    Cookie.SetCookie(Gate.AdminCookie, token, Cookie.AdminLoginAttributes)
  }

  /** The success body: `{ success: true, user: { id, email, name, role }, token }`. */
  function Welcome(user: Json, token: string): Json {
    JObj(map["success" := JBool(true), "user" := PublicUser(user), "token" := JStr(token)])
  }

  /** The account may log in here: it exists, is an admin and the password matches. */
  predicate Accepted(db: Db, bcrypt: Bcrypt, email: Json, password: Json) {
    var found := db.found(FindUserByEmail(email));
    && found.Ok? && found.value.Some? && Gate.IsAdmin(found.value.value)
    && bcrypt.compare(password, Field(found.value.value, "password")) == Ok(true)
  }

  /** The admin login, for a request body (Threw: not a JSON object) at time `now` in milliseconds. */
  function Login(db: Db, bcrypt: Bcrypt, jwt: Jwt, now: nat, body: Fallible<Body>): (o: Outcome)
    // A body that cannot be read is a server error; missing credentials are refused before the store is touched.
    ensures body.Threw? ==> o == Respond(InternalError)
    ensures body.Ok? && !(Truthy(Get(body.value, "email")) && Truthy(Get(body.value, "password"))) ==>
      o == Respond(MissingCredentials)
    ensures o.response.status in {200, 400, 401, 500}
    // The 400 is exactly the missing-credentials case; every other failure inside the try block is the 500.
    ensures o.response.status == 400 <==>
      body.Ok? && !(Truthy(Get(body.value, "email")) && Truthy(Get(body.value, "password")))
    ensures o.response.status == 500 ==> o.response == InternalError
    // Unknown account, a non-admin account and a wrong password all get the same 401.
    ensures o.response.status == 401 ==> o.response == InvalidCredentials && o.calls == [FindUserByEmail(body.value["email"])]
    ensures o.response.status == 401 <==>
      body.Ok? && Truthy(Get(body.value, "email")) && Truthy(Get(body.value, "password")) &&
      (var found := db.found(FindUserByEmail(body.value["email"]));
       found.Ok? &&
       (found.value.None? || !Gate.IsAdmin(found.value.value) ||
        bcrypt.compare(body.value["password"], Field(found.value.value, "password")) == Ok(false)))
    // Success needs an accepted admin, a signed token and a stored session row.
    ensures o.response.status == 200 <==>
      body.Ok? && Truthy(Get(body.value, "email")) && Truthy(Get(body.value, "password")) &&
      Accepted(db, bcrypt, body.value["email"], body.value["password"]) &&
      (var user := db.found(FindUserByEmail(body.value["email"])).value.value;
       var signed := jwt.sign(PublicUser(user), TokenLifetimeSeconds);
       signed.Ok? && db.written(Create(AdminSessions, SessionRow(signed.value, user, now))).Ok?)
    // Success: exactly one session row, holding the issued token, the user id and now + 7 days.
    ensures o.response.status == 200 ==>
      var email := body.value["email"];
      var user := db.found(FindUserByEmail(email)).value.value;
      var token := jwt.sign(PublicUser(user), TokenLifetimeSeconds).value;
      && o.calls == [FindUserByEmail(email), Create(AdminSessions, SessionRow(token, user, now))]
      && o.response == Response(200, Welcome(user, token), Some(SessionCookie(token)))
  {
    match body
    case Threw => Respond(InternalError)
    case Ok(fields) =>
      var email := Get(fields, "email");
      var password := Get(fields, "password");
      if !Truthy(email) || !Truthy(password) then Respond(MissingCredentials)
      else
        var find := FindUserByEmail(email.value);
        match db.found(find)
        case Threw => Outcome(InternalError, [find])
        case Ok(None) => Outcome(InvalidCredentials, [find])
        case Ok(Some(user)) =>
          if !Gate.IsAdmin(user) then Outcome(InvalidCredentials, [find])
          else
            match bcrypt.compare(password.value, Field(user, "password"))
            case Threw => Outcome(InternalError, [find])
            case Ok(false) => Outcome(InvalidCredentials, [find])
            case Ok(true) =>
              match GenerateToken(jwt, PublicUser(user))
              case Threw => Outcome(InternalError, [find])
              case Ok(token) =>
                var session := Create(AdminSessions, SessionRow(token, user, now));
                match db.written(session)
                case Threw => Outcome(InternalError, [find, session])
                case Ok(_) => Outcome(Response(200, Welcome(user, token), Some(SessionCookie(token))), [find, session])
  }

  /** Rebuilding `{ id, email, name, role }` from an object that already has that shape changes nothing,
      so the token signs exactly the public fields of the stored account. */
  lemma PublicUserIdempotent(row: Json)
    ensures PublicUser(PublicUser(row)) == PublicUser(row)
  {
    var u := PublicUser(row);
    var v := PublicUser(u);
    assert forall k :: k in v.fields <==> k in u.fields by {
      assert forall k :: k in {"id", "email", "name", "role"} ==> Field(v, k) == Field(u, k);
    }
  }

  /** A successful login signs the stored account's public fields, and the body never carries the password hash. */
  lemma LoginSignsPublicFields(db: Db, bcrypt: Bcrypt, jwt: Jwt, now: nat, body: Fallible<Body>)
    requires Login(db, bcrypt, jwt, now, body).response.status == 200
    ensures var user := db.found(FindUserByEmail(body.value["email"])).value.value;
      && GenerateToken(jwt, PublicUser(user)) == jwt.sign(PublicUser(user), TokenLifetimeSeconds)
      && Field(Login(db, bcrypt, jwt, now, body).response.body.fields["user"], "password").None?
  {
    var user := db.found(FindUserByEmail(body.value["email"])).value.value;
    PublicUserIdempotent(user);
    PublicUserHidesPassword(user);
  }

  /** The session row and the cookie share the seven-day window: Max-Age seconds times 1000 is the row's offset. */
  lemma SessionWindowMatchesCookie()
    ensures SessionMillis == Cookie.LoginMaxAge * 1000
    ensures Cookie.LoginMaxAge == TokenLifetimeSeconds
  {
  }
}
