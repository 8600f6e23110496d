/** The request and response shapes of the route handlers, with the
    framework plumbing reduced to values. */
module Http {
  import opened Js
  import opened Users
  import Jwt

  /** The environment variables the routes read. */
  datatype Env = Env(jwtSecret: Option<string>, nodeEnv: Option<string>)

  /** The name of the session cookie. */
  const CookieName: string := "token"

  /** `maxAge: 7 * 24 * 60 * 60 * 1000`, the literal the routes pass. */
  const CookieMaxAge: int := 7 * 24 * 60 * 60 * 1000

  datatype CookieOptions = CookieOptions(httpOnly: bool, secure: bool, sameSite: string, maxAge: int)

  datatype SetCookie = SetCookie(name: string, value: Jwt.Token, options: CookieOptions)

  /** A JSON response: its status, its `message` (absent on the who-am-I
      success), its `user` and the cookie it sets. */
  datatype Response = Response(status: nat, message: Option<string>, user: Option<PublicUser>,
                               cookie: Option<SetCookie>)

  /** A response carrying only a message. */
  function Fail(status: nat, message: string): Response
  {
    Response(status, Some(message), None, None)
  }

  /** The catch-all of the signup and signin handlers. */
  const InternalError: Response := Fail(500, "Internal server error")

  /** `response.cookies.set('token', token, {...})` as both token-issuing
      routes write it. */
  function SessionCookie(token: Jwt.Token, env: Env): (c: SetCookie)
    ensures c.name == CookieName && c.value == token
    ensures c.options.httpOnly && c.options.sameSite == "lax"
    ensures c.options.secure <==> env.nodeEnv == Some("production")
    ensures c.options.maxAge == 604800000
  {
    SetCookie(CookieName, token, CookieOptions(true, env.nodeEnv == Some("production"), "lax", CookieMaxAge))
  }

  /** Whether a browser that received `c` at time `setAt` (seconds) still
      sends it at time `t`: a cookie's Max-Age counts seconds. The caps
      browsers put on Max-Age (400 days in current ones) are not modelled. */
  predicate Held(c: SetCookie, setAt: int, t: int)
  {
    setAt <= t < setAt + c.options.maxAge
  }

  /** As written, the session cookie set with a fresh token is still sent
      after its token stops verifying: at the first second the token is
      expired, the cookie is held. */
  lemma CookieOutlivesToken(userId: string, email: string, iat: int, env: Env)
    ensures var key := Jwt.Key(env.jwtSecret);
            var c := SessionCookie(Jwt.Sign(userId, email, key, iat), env);
            var t := iat + Jwt.Lifetime;
            Held(c, iat, t) && Jwt.Verify(c.value, key, t).None?
  {
  }

  /** The cookie the `// 7 days` comment describes: `maxAge` in seconds. */
  function IntendedSessionCookie(token: Jwt.Token, env: Env): (c: SetCookie)
    ensures c.name == CookieName && c.value == token
    ensures c.options.httpOnly && c.options.sameSite == "lax"
    ensures c.options.secure <==> env.nodeEnv == Some("production")
    ensures c.options.maxAge == 604800
  {
    var c := SessionCookie(token, env);
    c.(options := c.options.(maxAge := Jwt.Lifetime))
  }

  /** With a seven-day max-age, the browser sends the cookie exactly as
      long as the token it carries verifies. */
  lemma IntendedCookieMatchesToken(userId: string, email: string, iat: int, t: int, env: Env)
    requires iat <= t
    ensures var key := Jwt.Key(env.jwtSecret);
            var c := IntendedSessionCookie(Jwt.Sign(userId, email, key, iat), env);
            Held(c, iat, t) <==> Jwt.Verify(c.value, key, t).Some?
  {
  }

  /** `request.cookies.get('token')?.value`, kept only when truthy: `None`
      is the `!token` case of the handlers. */
  function SessionToken(cookies: map<string, Jwt.Token>): (t: Option<Jwt.Token>)
    ensures t.Some? <==> CookieName in cookies && cookies[CookieName] != Jwt.Text("")
    ensures t.Some? ==> t.value == cookies[CookieName]
  {
    if CookieName in cookies && cookies[CookieName] != Jwt.Text("") then Some(cookies[CookieName]) else None
  }
}
