/**
 * The route guards of src/lib/loader.ts: `getCookie` over the cookie
 * string (the browser's `document.cookie` is a parameter) and the two
 * loaders built on it.
 */
module Loader {
  import opened Wrappers
  import opened Strings

  /** The separator `getCookie` splits on: `; name=`. */
  function Marker(name: string): (m: string)
    ensures |m| == |name| + 3 && m[0] == ';' && m[1] == ' '
  {
    "; " + name + "="
  }

  /** `getCookie(name)` for `document.cookie == cookie`: the text after the
      only `; name=` in `"; " + cookie`, up to the next `;`, with an empty
      value, a missing name and a repeated name all giving `null`. */
  function GetCookie(cookie: string, name: string): Option<string> {
    var parts := Split("; " + cookie, Marker(name));
    if |parts| == 2 then
      var v := Split(parts[1], ";")[0];
      if v == "" then None else Some(v)
    else None
  }

  /** No `; name=` anywhere: `null`. */
  lemma GetCookieAbsent(cookie: string, name: string)
    requires !Contains("; " + cookie, Marker(name))
    ensures GetCookie(cookie, name) == None
  {
    SplitAbsent("; " + cookie, Marker(name));
  }

  /** Two non-overlapping `; name=`: three pieces or more, so `null`. */
  lemma GetCookieRepeated(cookie: string, name: string, i: nat, j: nat)
    requires OccursAt(Marker(name), "; " + cookie, i) && OccursAt(Marker(name), "; " + cookie, j)
    requires i + |Marker(name)| <= j
    ensures GetCookie(cookie, name) == None
  {
    SplitTwice("; " + cookie, Marker(name), i, j);
  }

  /** Exactly one `; name=`: the text after it up to the first `;`, or
      `null` when that text is empty. */
  lemma GetCookieUnique(cookie: string, name: string, i: nat)
    requires OccursAt(Marker(name), "; " + cookie, i)
    requires forall j :: j != i ==> !OccursAt(Marker(name), "; " + cookie, j)
    ensures var rest := ("; " + cookie)[i + |Marker(name)|..];
      var v := rest[..FirstIndexOr(rest, ';')];
      GetCookie(cookie, name) == if v == "" then None else Some(v)
  {
    var value := "; " + cookie;
    var rest := value[i + |Marker(name)|..];
    SplitOnce(value, Marker(name), i);
    SplitFirstPiece(rest, ';');
  }

  /** A value found by `getCookie` is non-empty and holds no `;`. */
  lemma GetCookieValue(cookie: string, name: string)
    requires GetCookie(cookie, name).Some?
    ensures var v := GetCookie(cookie, name).value; v != "" && forall k :: 0 <= k < |v| ==> v[k] != ';'
  {
    var parts := Split("; " + cookie, Marker(name));
    SplitFirstPiece(parts[1], ';');
  }

  /** `; name=` is found in `"; " + cookie` exactly when the cookie string
      starts with `name=` or has `; name=` inside it: a cookie whose name
      merely ends with `name` does not match. */
  lemma MarkerPositions(cookie: string, name: string)
    ensures Contains("; " + cookie, Marker(name)) <==>
      StartsWith(cookie, name + "=") || Contains(cookie, Marker(name))
  {
    var value := "; " + cookie;
    var m := Marker(name);
    assert value[2..] == cookie;
    if Contains(value, m) {
      var i :| 0 <= i <= |value| && OccursAt(m, value, i);
      if i == 0 {
        assert value[2..|m|] == m[2..];
        assert m[2..] == name + "=";
        assert cookie[..|name| + 1] == value[2..|m|];
      } else {
        assert value[i] == m[0] && value[1] == ' ' && m[0] == ';';
        assert i != 1;
        OccursInSuffix(m, value, 2, i - 2);
      }
    }
    if StartsWith(cookie, name + "=") {
      assert value[..|m|] == "; " + cookie[..|name| + 1];
      assert OccursAt(m, value, 0);
    }
    if Contains(cookie, m) {
      var j :| 0 <= j <= |cookie| && OccursAt(m, cookie, j);
      OccursInSuffix(m, value, 2, j);
      assert OccursAt(m, value, j + 2);
    }
  }

  /** `xauth_token=abc` does not hold an `auth_token`. */
  lemma SuffixNameDoesNotMatch()
    ensures GetCookie("xauth_token=abc", "auth_token") == None
  {
    var c := "xauth_token=abc";
    var m := Marker("auth_token");
    assert !StartsWith(c, "auth_token=") by { assert c[0] != ("auth_token=")[0]; }
    assert !Contains(c, m);
    MarkerPositions(c, "auth_token");
    GetCookieAbsent(c, "auth_token");
  }

  /** What a route loader does: let the route load, or throw a redirect. */
  datatype LoaderOutcome = Proceed | Redirect(to: string)

  /** `authLoader`: protected routes need a non-empty `auth_token`. */
  function AuthLoader(cookie: string): (r: LoaderOutcome)
    ensures r.Redirect? <==> GetCookie(cookie, "auth_token").None?
    ensures r.Redirect? ==> r.to == "/auth/login"
  {
    if GetCookie(cookie, "auth_token").None? then Redirect("/auth/login") else Proceed
  }

  /** `nonAuthLoader`: the login pages send a signed-in user home. */
  function NonAuthLoader(cookie: string): (r: LoaderOutcome)
    ensures r.Redirect? <==> GetCookie(cookie, "auth_token").Some?
    ensures r.Redirect? ==> r.to == "/"
    ensures r.Redirect? <==> AuthLoader(cookie).Proceed?
  {
    if GetCookie(cookie, "auth_token").Some? then Redirect("/") else Proceed
  }
}
