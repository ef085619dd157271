/**
 * POST /api/auth/logout: a constant answer that clears the `auth-token`
 * cookie. It reads nothing from the request.
 */
module Logout {
  import opened Wrappers
  import opened Json
  import opened Http
  import Cookie
  import Gate
  import Text

  const ClearingCookie := Cookie.SetCookie(Gate.AuthCookie, "", Cookie.LogoutAttributes)

  /** The handler takes no input, so every call gives this same response, logged in or not. */
  function Logout(): (r: Response)
    ensures r.status == 200 && r.body == Success
    ensures r.setCookie == Some(ClearingCookie)
  {
    Response(200, Success, Some(ClearingCookie))
  }

  /** The header removes `auth-token` and leaves `admin-token` alone: its pair names only `auth-token`. */
  lemma LogoutClearsOnlyAuthToken()
    ensures Cookie.Clears(Gate.AuthCookie, "", Cookie.LogoutAttributes, Gate.AuthCookie)
    ensures !Cookie.Clears(Gate.AuthCookie, "", Cookie.LogoutAttributes, Gate.AdminCookie)
    ensures Text.Split(Logout().setCookie.value, ';')[0] == Gate.AuthCookie + "="
  {
    assert Cookie.LogoutAttributes[2] == "Max-Age=0";
    assert Gate.AuthCookie + "=" + "" == Gate.AuthCookie + "=";
    assert forall k :: 0 <= k < |Cookie.LogoutAttributes| ==> ';' !in Cookie.LogoutAttributes[k];
    Cookie.SetCookieParts(Gate.AuthCookie, "", Cookie.LogoutAttributes);
  }
}
