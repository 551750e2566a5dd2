/**
 * The Next.js route gate (agent-starter-react/middleware.ts): a decision from
 * the request path, the cookies present, NODE_ENV and the `next` query
 * parameter to "let the request through" or one of two redirects.
 */
module RouteGate {
  import opened Wrappers
  import opened Text

  const AuthCookie := "auth_token"
  const LoginPage := "/auth/login"

  /** The NextAuth session cookie carries the `__Secure-` prefix in production only. */
  function NextAuthCookieName(nodeEnv: string): (name: string)
    ensures name == "__Secure-next-auth.session-token" <==> nodeEnv == "production"
    ensures name == "next-auth.session-token" <==> nodeEnv != "production"
  {
    if nodeEnv == "production" then "__Secure-next-auth.session-token" else "next-auth.session-token"
  }

  datatype Decision =
    | Pass                          // NextResponse.next()
    | RedirectToLogin(next: string) // to /auth/login?next=<next>
    | RedirectTo(target: string)    // to the given location

  /** `startsWith('/auth')`: also true of "/authors" and the like. */
  predicate IsAuthPath(pathname: string)
  {
    "/auth" <= pathname
  }

  predicate IsApi(pathname: string)
  {
    "/api" <= pathname
  }

  /** The regular expression `/\.[a-zA-Z0-9]+$/`: a dot followed by one or more ASCII letters or digits at the very end. */
  predicate HasFileExtension(pathname: string)
  {
    exists i :: 0 <= i < |pathname| - 1 && pathname[i] == '.' &&
      forall j :: i < j < |pathname| ==> IsAsciiAlnum(pathname[j])
  }

  predicate IsAsset(pathname: string)
  {
    "/_next" <= pathname || "/favicon" <= pathname || HasFileExtension(pathname)
  }

  predicate IsPublic(pathname: string)
  {
    pathname == "/" || IsApi(pathname) || IsAsset(pathname)
  }

  /** A cookie counts only when present with a non-empty value. */
  predicate HasCookie(cookies: map<string, string>, name: string)
  {
    name in cookies && cookies[name] != ""
  }

  predicate Authenticated(cookies: map<string, string>, nodeEnv: string)
  {
    HasCookie(cookies, AuthCookie) || HasCookie(cookies, NextAuthCookieName(nodeEnv))
  }

  /** `middleware(req)`. */
  function Middleware(pathname: string, cookies: map<string, string>, nodeEnv: string, nextParam: Option<string>): (d: Decision)
    ensures IsPublic(pathname) ==> d == Pass
    ensures d.RedirectToLogin? <==> !IsPublic(pathname) && !Authenticated(cookies, nodeEnv)
                                    && !IsAuthPath(pathname)
    ensures d.RedirectToLogin? ==> d.next == pathname
    ensures d.RedirectTo? <==> !IsPublic(pathname) && Authenticated(cookies, nodeEnv) && IsAuthPath(pathname)
    ensures d.RedirectTo? ==> d.target == (if nextParam.Some? && nextParam.value != "" then nextParam.value else "/")
  {
    var token := HasCookie(cookies, AuthCookie);
    var session := HasCookie(cookies, NextAuthCookieName(nodeEnv));
    if IsPublic(pathname) then Pass
    else if IsAuthPath(pathname) && !token && !session then Pass
    else if !token && !session then RedirectToLogin(pathname)
    else if (token || session) && IsAuthPath(pathname) then
      RedirectTo(if nextParam.Some? && nextParam.value != "" then nextParam.value else "/")
    else Pass
  }

  lemma LoginPageIsNotPublic()
    ensures !IsPublic(LoginPage) && IsAuthPath(LoginPage)
  {
    assert LoginPage[..5] == "/auth";
    assert LoginPage[2] == 'u' && LoginPage[1] == 'a';
    assert !HasFileExtension(LoginPage) by {
      assert forall k :: 0 <= k < |LoginPage| ==> LoginPage[k] != '.';
    }
  }

  /**
   * No redirect loop: the login redirect leads to a page that the same
   * unauthenticated client is let through to.
   */
  lemma LoginRedirectTerminates(pathname: string, cookies: map<string, string>, nodeEnv: string, nextParam: Option<string>)
    requires Middleware(pathname, cookies, nodeEnv, nextParam).RedirectToLogin?
    ensures Middleware(LoginPage, cookies, nodeEnv, Some(pathname)) == Pass
  {
    LoginPageIsNotPublic();
  }

  /** An authenticated client on any non-public, non-auth path is let through. */
  lemma AuthenticatedPassesOutsideAuth(pathname: string, cookies: map<string, string>, nodeEnv: string, nextParam: Option<string>)
    requires Authenticated(cookies, nodeEnv) && !IsAuthPath(pathname)
    ensures Middleware(pathname, cookies, nodeEnv, nextParam) == Pass
  {
  }
}
