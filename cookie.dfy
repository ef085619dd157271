/**
 * `Set-Cookie` header values as the login and logout handlers write them:
 * a `name=value` pair followed by `; `-separated attributes, in the syntax of
 * section 4.1 of RFC 6265. A `Max-Age` of 0 or less removes the cookie at the
 * client (section 5.2.2 of RFC 6265).
 */
module Cookie {
  import opened Text

  /** `name=value; attr1; attr2; ...`. */
  function SetCookie(name: string, value: string, attributes: seq<string>): string {
    name + "=" + value + "; " + Join(attributes, "; ")
  }

  /** The attributes as they appear after splitting the header at `;`: each keeps its leading space. */
  function Spaced(attributes: seq<string>): (r: seq<string>)
    ensures |r| == |attributes|
    ensures forall k :: 0 <= k < |r| ==> r[k] == " " + attributes[k]
  {
    seq(|attributes|, k requires 0 <= k < |attributes| => " " + attributes[k])
  }

  lemma {:induction false} JoinSpaced(attributes: seq<string>)
    requires |attributes| >= 1
    ensures Join(Spaced(attributes), ";") == " " + Join(attributes, "; ")
    decreases |attributes|
  {
    if |attributes| > 1 {
      JoinSpaced(attributes[1..]);
      assert Spaced(attributes)[1..] == Spaced(attributes[1..]);
    }
  }

  /**
   * Splitting the header at `;` yields the `name=value` pair and then each
   * attribute, in order, provided neither the pair nor an attribute holds a `;`.
   */
  lemma SetCookieParts(name: string, value: string, attributes: seq<string>)
    requires |attributes| >= 1
    requires ';' !in name + "=" + value
    requires forall k :: 0 <= k < |attributes| ==> ';' !in attributes[k]
    ensures Split(SetCookie(name, value, attributes), ';') == [name + "=" + value] + Spaced(attributes)
  {
    var pair := name + "=" + value;
    var parts := [pair] + Spaced(attributes);
    JoinSpaced(attributes);
    assert Join(parts, ";") == pair + ";" + Join(Spaced(attributes), ";") by {
      assert parts[1..] == Spaced(attributes);
    }
    assert SetCookie(name, value, attributes) == Join(parts, ";");
    forall k | 0 <= k < |parts| ensures ';' !in parts[k] {
      if k > 0 {
        assert parts[k] == " " + attributes[k - 1];
      }
    }
    SplitJoin(parts, ';');
  }

  /** The attributes of the two login cookies and of the logout cookie. */
  const AdminLoginAttributes: seq<string> := ["HttpOnly", "Path=/", "Max-Age=604800", "SameSite=Strict", "Secure"]
  const UserLoginAttributes: seq<string> := ["HttpOnly", "Path=/", "Max-Age=604800", "SameSite=Strict"]
  const LogoutAttributes: seq<string> := ["HttpOnly", "Path=/", "Max-Age=0", "SameSite=Strict"]

  /** The lifetime both login cookies announce, in seconds. */
  const LoginMaxAge := 604800

  /** The header tells the client to drop cookie `name`: empty value and `Max-Age=0`. */
  predicate Clears(name: string, value: string, attributes: seq<string>, target: string) {
    name == target && value == [] && "Max-Age=0" in attributes
  }

  /** The admin cookie is marked `Secure`; the user cookie is not. Both live seven days. */
  lemma LoginCookieAttributes()
    ensures "Secure" in AdminLoginAttributes && "Secure" !in UserLoginAttributes
    ensures "Max-Age=" + NatToString(LoginMaxAge) in AdminLoginAttributes
    ensures "Max-Age=" + NatToString(LoginMaxAge) in UserLoginAttributes
    ensures LoginMaxAge == 7 * 24 * 60 * 60
  {
    assert NatToString(LoginMaxAge) == "604800";
    assert "Max-Age=" + "604800" == "Max-Age=604800";
    assert AdminLoginAttributes[2] == "Max-Age=604800";
    assert UserLoginAttributes[2] == "Max-Age=604800";
  }
}
