/**
 * POST /api/auth/login: the site login. Any account whose password matches
 * gets a token, whatever its role; the token goes in the `auth-token` cookie
 * and no session row is written.
 */
module UserLogin {
  import opened Wrappers
  import opened Json
  import opened Store
  import opened Http
  import opened Auth
  import Cookie
  import Gate

  const MissingCredentials := Error(400, "Email and password are required")
  const InvalidCredentials := Error(401, "Invalid credentials")

  function LoginCookie(token: string): string {
    Cookie.SetCookie(Gate.AuthCookie, token, Cookie.UserLoginAttributes)
  }

  function Login(db: Db, bcrypt: Bcrypt, jwt: Jwt, body: Fallible<Body>): (o: Outcome)
    ensures body.Threw? ==> o == Respond(InternalError)
    ensures body.Ok? && !(Truthy(Get(body.value, "email")) && Truthy(Get(body.value, "password"))) ==>
      o == Respond(MissingCredentials)
    ensures o.response.status in {200, 400, 401, 500}
    // The 400 is exactly the missing-credentials case; every other failure inside the try block is the 500.
    ensures o.response.status == 400 <==>
      body.Ok? && !(Truthy(Get(body.value, "email")) && Truthy(Get(body.value, "password")))
    ensures o.response.status == 500 ==> o.response == InternalError
    // Whatever made authenticateUser give null (unknown email, wrong password, a store error), the answer is 401.
    ensures o.response.status == 401 <==>
      body.Ok? && Truthy(Get(body.value, "email")) && Truthy(Get(body.value, "password")) &&
      AuthenticateUser(db, bcrypt, body.value["email"], body.value["password"]).0.None?
    ensures o.response.status == 401 ==> o.response == InvalidCredentials
    ensures o.response.status == 200 <==>
      body.Ok? && Truthy(Get(body.value, "email")) && Truthy(Get(body.value, "password")) &&
      (var user := AuthenticateUser(db, bcrypt, body.value["email"], body.value["password"]).0;
       user.Some? && GenerateToken(jwt, user.value).Ok?)
    // The body's user is the object the token was generated from; the only store request is the look-up.
    ensures o.response.status == 200 ==>
      var user := AuthenticateUser(db, bcrypt, body.value["email"], body.value["password"]).0.value;
      var token := GenerateToken(jwt, user).value;
      && o.calls == [FindUserByEmail(body.value["email"])]
      && o.response == Response(200, JObj(map["success" := JBool(true), "user" := user, "token" := JStr(token)]),
                                Some(LoginCookie(token)))
  {
    match body
    case Threw => Respond(InternalError)
    case Ok(fields) =>
      var email := Get(fields, "email");
      var password := Get(fields, "password");
      if !Truthy(email) || !Truthy(password) then Respond(MissingCredentials)
      else
        var (user, calls) := AuthenticateUser(db, bcrypt, email.value, password.value);
        match user
        case None => Outcome(InvalidCredentials, calls)
        case Some(u) =>
          match GenerateToken(jwt, u)
          case Threw => Outcome(InternalError, calls)
          case Ok(token) =>
            Outcome(Response(200, JObj(map["success" := JBool(true), "user" := u, "token" := JStr(token)]),
                             Some(LoginCookie(token))), calls)
  }

  /** There is no role check: an account with role 'USER' logs in exactly like an admin. */
  lemma NoRoleRestriction(db: Db, bcrypt: Bcrypt, jwt: Jwt, body: Fallible<Body>)
    requires body.Ok? && Truthy(Get(body.value, "email")) && Truthy(Get(body.value, "password"))
    requires var found := db.found(FindUserByEmail(body.value["email"]));
      && found.Ok? && found.value.Some?
      && Field(found.value.value, "role") == Some(JStr("USER"))
      && bcrypt.compare(body.value["password"], Field(found.value.value, "password")) == Ok(true)
      && GenerateToken(jwt, PublicUser(found.value.value)).Ok?
    ensures Login(db, bcrypt, jwt, body).response.status == 200
    ensures !Gate.IsAdmin(Login(db, bcrypt, jwt, body).response.body.fields["user"])
  {
  }

  /** The user login never writes to the store. */
  lemma NoSessionRow(db: Db, bcrypt: Bcrypt, jwt: Jwt, body: Fallible<Body>)
    ensures forall k :: 0 <= k < |Login(db, bcrypt, jwt, body).calls| ==> Login(db, bcrypt, jwt, body).calls[k].FindUnique?
  {
  }
}
