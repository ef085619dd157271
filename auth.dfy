/**
 * Password hashing, token issuance and verification and the user look-up of
 * src/lib/auth.ts. bcrypt and jsonwebtoken are foreign libraries: the model
 * takes them as oracles and states only what this code adds around them.
 */
module Auth {
  import opened Wrappers
  import opened Json
  import opened Store

  /** The bcrypt cost factor passed on every hash. */
  const BcryptCost := 12

  /** `expiresIn: '7d'`, in seconds (the `exp` claim of section 4.1.4 of RFC 7519 is issue time plus this). */
  const TokenLifetimeSeconds := 7 * 24 * 60 * 60

  /** jsonwebtoken: `sign(payload, secret, { expiresIn })` and `verify(token, secret)`, the secret fixed. */
  datatype Jwt = Jwt(sign: (Json, nat) -> Fallible<string>, verify: string -> Fallible<Json>)

  /** bcryptjs: `hash(password, cost)` and `compare(password, hashed)`. */
  datatype Bcrypt = Bcrypt(hash: (Json, nat) -> Fallible<string>, compare: (Json, Option<Json>) -> Fallible<bool>)

  /** The account fields handed to clients: `{ id, email, name, role }`. */
  function PublicUser(row: Json): (u: Json)
    ensures u.JObj? && u.fields.Keys <= {"id", "email", "name", "role"}
    ensures forall k :: k in {"id", "email", "name", "role"} ==> Field(u, k) == Field(row, k)
  {
    var m := Put(map[], "id", Field(row, "id"));
    var m := Put(m, "email", Field(row, "email"));
    var m := Put(m, "name", Field(row, "name"));
    JObj(Put(m, "role", Field(row, "role")))
  }

  /** `hashPassword`: the cost is 12 whatever the password. */
  function HashPassword(bcrypt: Bcrypt, password: Json): Fallible<string> {
    bcrypt.hash(password, BcryptCost)
  }

  /** `generateToken`: signs exactly `{ id, email, name, role }` of the user, valid for seven days. */
  function GenerateToken(jwt: Jwt, user: Json): Fallible<string> {
    jwt.sign(PublicUser(user), TokenLifetimeSeconds)
  }

  /** The token depends only on the four public fields: the password hash and every other member
      of the row leave it unchanged, and the lifetime is always seven days. */
  lemma TokenIgnoresOtherFields(jwt: Jwt, a: Json, b: Json)
    requires forall k :: k in {"id", "email", "name", "role"} ==> Field(a, k) == Field(b, k)
    ensures GenerateToken(jwt, a) == GenerateToken(jwt, b)
    ensures GenerateToken(jwt, a) == jwt.sign(PublicUser(a), 604800)
  {
    assert PublicUser(a).fields == PublicUser(b).fields by {
      forall k | k in {"id", "email", "name", "role"} ensures Field(PublicUser(a), k) == Field(PublicUser(b), k) {
      }
    }
  }

  /** `verifyToken`: total; every failure of `jwt.verify` becomes None. */
  function VerifyToken(jwt: Jwt, token: string): (r: Option<Json>)
    ensures r.None? <==> jwt.verify(token).Threw?
    ensures r.Some? ==> r.value == jwt.verify(token).value
  {
    match jwt.verify(token)
    case Ok(claims) => Some(claims)
    case Threw => None
  }

  /** `findUnique({ where: { email } })` on users. */
  function FindUserByEmail(email: Json): Request {
    FindUnique(Users, "email", email)
  }

  /**
   * `authenticateUser`: the public fields of the account with this email when
   * the password matches its stored hash; None for an unknown email, a
   * failed comparison or anything that throws. It issues exactly one store
   * request, the look-up by email.
   */
  function AuthenticateUser(db: Db, bcrypt: Bcrypt, email: Json, password: Json): (r: (Option<Json>, seq<Request>))
    ensures r.1 == [FindUserByEmail(email)]
    ensures r.0.Some? <==>
      (var found := db.found(FindUserByEmail(email));
       found.Ok? && found.value.Some? &&
       bcrypt.compare(password, Field(found.value.value, "password")) == Ok(true))
    ensures r.0.Some? ==> r.0.value == PublicUser(db.found(FindUserByEmail(email)).value.value)
  {
    var call := FindUserByEmail(email);
    var user :=
      match db.found(call)
      case Threw => None
      case Ok(None) => None
      case Ok(Some(row)) =>
        if bcrypt.compare(password, Field(row, "password")) == Ok(true) then Some(PublicUser(row)) else None;
    (user, [call])
  }

  /** The users row `createUser` inserts: the hash in place of the password, role 'USER' by default. */
  function NewUserData(email: Json, hashed: string, name: Json, role: Option<Json>): (data: Body)
    ensures data.Keys == {"email", "password", "name", "role"}
    ensures data["password"] == JStr(hashed)
    ensures data["email"] == email && data["name"] == name
    ensures data["role"] == role.GetOr(JStr("USER"))
  {
    map["email" := email, "password" := JStr(hashed), "name" := name, "role" := role.GetOr(JStr("USER"))]
  }

  /**
   * `createUser`: hashes the password with cost 12 and inserts one users row
   * holding the hash, never the plaintext; a failed hash or insert rejects.
   */
  function CreateUser(db: Db, bcrypt: Bcrypt, email: Json, password: Json, name: Json, role: Option<Json>)
    : (r: (Fallible<Json>, seq<Request>))
    ensures bcrypt.hash(password, BcryptCost).Threw? ==> r == (Threw, [])
    ensures bcrypt.hash(password, BcryptCost).Ok? ==>
      var call := Create(Users, NewUserData(email, bcrypt.hash(password, 12).value, name, role));
      r == (db.written(call), [call])
  {
    match HashPassword(bcrypt, password)
    case Threw => (Threw, [])
    case Ok(hashed) =>
      var call := Create(Users, NewUserData(email, hashed, name, role));
      (db.written(call), [call])
  }

  /** The account fields handed out never include the password hash. */
  lemma PublicUserHidesPassword(row: Json)
    ensures Field(PublicUser(row), "password").None?
  {
  }
}
