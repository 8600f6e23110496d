/** The route guard run ahead of page requests: paths under `/dashboard`
    need a session cookie holding a token that verifies. It reads no user
    array. */
module Middleware {
  import opened Js
  import opened Http
  import Jwt

  datatype Decision = Next | Redirect(location: string)

  const ProtectedPrefix: string := "/dashboard"
  const LoginPath: string := "/login"

  predicate Protected(pathname: string)
  {
    StartsWith(pathname, ProtectedPrefix)
  }

  /** `middleware(request)` for a request to `pathname` carrying
      `cookies`, at time `now`. */
  function Guard(pathname: string, cookies: map<string, Jwt.Token>, now: int, env: Env): (d: Decision)
    ensures !Protected(pathname) ==> d == Next
    ensures Protected(pathname) && SessionToken(cookies).None? ==> d == Redirect(LoginPath)
    ensures d.Redirect? ==> d.location == LoginPath
    ensures d == Next <==>
              !Protected(pathname) ||
              (SessionToken(cookies).Some? &&
               Jwt.Verify(SessionToken(cookies).value, Jwt.Key(env.jwtSecret), now).Some?)
  {
    if Protected(pathname) then
      var token := SessionToken(cookies);
      if token.None? then Redirect(LoginPath)
      else if Jwt.Verify(token.value, Jwt.Key(env.jwtSecret), now).None? then Redirect(LoginPath)
      else Next
    else Next
  }

  /** The decision depends on the path, whether a token is present and
      whether it verifies, and on nothing else. */
  lemma DecidedByPathAndVerification(pathname: string, c1: map<string, Jwt.Token>, c2: map<string, Jwt.Token>,
                                     now1: int, now2: int, env1: Env, env2: Env)
    requires SessionToken(c1).Some? <==> SessionToken(c2).Some?
    requires SessionToken(c1).Some? ==>
               (Jwt.Verify(SessionToken(c1).value, Jwt.Key(env1.jwtSecret), now1).Some? <==>
                Jwt.Verify(SessionToken(c2).value, Jwt.Key(env2.jwtSecret), now2).Some?)
    ensures Guard(pathname, c1, now1, env1) == Guard(pathname, c2, now2, env2)
  {
  }

  /** The prefix test is on raw characters: `/dashboardX` is guarded, and
      `/Dashboard` is not. */
  lemma RawPrefix(cookies: map<string, Jwt.Token>, now: int, env: Env)
    requires CookieName !in cookies
    ensures Guard("/dashboardX", cookies, now, env) == Redirect(LoginPath)
    ensures Guard("/Dashboard", cookies, now, env) == Next
  {
    assert "/dashboardX"[..|ProtectedPrefix|] == ProtectedPrefix;
    assert "/Dashboard"[1] != ProtectedPrefix[1];
  }

  /** A cookie that is not a token is answered with a redirect, not an
      error. */
  lemma GarbageCookieRedirects(pathname: string, text: string, now: int, env: Env)
    requires Protected(pathname)
    ensures Guard(pathname, map[CookieName := Jwt.Text(text)], now, env) == Redirect(LoginPath)
  {
  }
}
