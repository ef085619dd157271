/**
 * The authorisation check every admin-only handler repeats inline before it
 * touches the store: no token cookie gives 401 'Unauthorized'; a token that
 * `verifyToken` rejects, or whose role is not 'ADMIN', gives 403 'Forbidden'.
 * The handlers differ in the cookie they read.
 */
module Gate {
  import opened Wrappers
  import opened Json
  import opened Http
  import opened Auth

  /** The cookie set by the admin login and read by the posts, members, products and dashboard handlers. */
  const AdminCookie := "admin-token"

  /** The cookie set by the user login and read by the category, tag and video creators. */
  const AuthCookie := "auth-token"

  const Unauthorized := Error(401, "Unauthorized")
  const Forbidden := Error(403, "Forbidden")

  /** `user.role === 'ADMIN'`. */
  predicate IsAdmin(user: Json) {
    Field(user, "role") == Some(JStr("ADMIN"))
  }

  datatype Verdict = Admitted(user: Json) | Refused(response: Response)

  function Check(cookies: Cookies, name: string, jwt: Jwt): (v: Verdict)
    ensures v.Refused? ==> v.response == Unauthorized || v.response == Forbidden
    ensures v.Refused? && v.response == Unauthorized <==> !HasCookie(cookies, name)
    ensures v.Refused? && v.response == Forbidden <==>
      HasCookie(cookies, name) &&
      (jwt.verify(cookies[name]).Threw? || !IsAdmin(jwt.verify(cookies[name]).value))
    ensures v.Admitted? <==>
      HasCookie(cookies, name) && jwt.verify(cookies[name]).Ok? && IsAdmin(jwt.verify(cookies[name]).value)
    ensures v.Admitted? ==> v.user == jwt.verify(cookies[name]).value
  {
    if !HasCookie(cookies, name) then Refused(Unauthorized)
    else
      match VerifyToken(jwt, cookies[name])
      case None => Refused(Forbidden)
      case Some(user) => if IsAdmin(user) then Admitted(user) else Refused(Forbidden)
  }

  /** Two handlers that read different cookies can disagree on the same request:
      an admin token held only in `auth-token` passes the category gate and is
      refused by the posts gate. */
  lemma CookieNamesMatter(cookies: Cookies, jwt: Jwt)
    requires AuthCookie in cookies && cookies[AuthCookie] != []
    requires jwt.verify(cookies[AuthCookie]).Ok? && IsAdmin(jwt.verify(cookies[AuthCookie]).value)
    requires AdminCookie !in cookies
    ensures Check(cookies, AuthCookie, jwt).Admitted?
    ensures Check(cookies, AdminCookie, jwt) == Refused(Unauthorized)
  {
  }
}
