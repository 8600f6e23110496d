/** `GET /api/auth/me`: reads the session cookie, verifies the token and
    resolves its `userId` against the module's own in-memory array. The
    handler only reads the array. */
module Me {
  import opened Js
  import opened Users
  import opened Http
  import Jwt

  /** This module's own `users` array: declared empty and never written by
      any code. */
  const Store: seq<User> := []

  const NotAuthenticated: Response := Fail(401, "Not authenticated")
  const InvalidToken: Response := Fail(401, "Invalid token")
  const NotFound: Response := Fail(404, "User not found")

  /** The handler run against the array `users`; `cookies` are the
      request's cookies and `now` the clock `jwt.verify` reads. */
  function Get(users: seq<User>, cookies: map<string, Jwt.Token>, now: int, env: Env): (r: Response)
    ensures SessionToken(cookies).None? ==> r == NotAuthenticated
    ensures SessionToken(cookies).Some? && Jwt.Verify(SessionToken(cookies).value, Jwt.Key(env.jwtSecret), now).None? ==>
              r == InvalidToken
    ensures r.status == 404 <==>
              SessionToken(cookies).Some? &&
              var claims := Jwt.Verify(SessionToken(cookies).value, Jwt.Key(env.jwtSecret), now);
              claims.Some? && forall i :: 0 <= i < |users| ==> users[i].id != claims.value.userId
    ensures r.status == 404 ==> r == NotFound
    // a verified token whose user is stored gets that user's profile
    ensures SessionToken(cookies).Some? ==>
              var claims := Jwt.Verify(SessionToken(cookies).value, Jwt.Key(env.jwtSecret), now);
              claims.Some? && FindById(users, claims.value.userId).Some? ==>
                r == Response(200, None, Some(Profile(FindById(users, claims.value.userId).value)), None)
    ensures r.status in {200, 401, 404}
    ensures r.cookie.None?
    // a success shows the first record whose id the verified token names
    ensures r.status == 200 ==>
              r.message.None? &&
              var claims := Jwt.Verify(SessionToken(cookies).value, Jwt.Key(env.jwtSecret), now).value;
              exists k :: 0 <= k < |users| && users[k].id == claims.userId &&
                (forall j :: 0 <= j < k ==> users[j].id != claims.userId) &&
                r.user == Some(Profile(users[k]))
  {
    var token := SessionToken(cookies);
    if token.None? then NotAuthenticated
    else
      var decoded := Jwt.Verify(token.value, Jwt.Key(env.jwtSecret), now);
      if decoded.None? then InvalidToken
      else
        var user := FindById(users, decoded.value.userId);
        if user.None? then NotFound
        else Response(200, None, Some(Profile(user.value)), None)
  }

  /** The handler as the module runs it, against its own empty array:
      no request ever succeeds, and a verified token always ends in 404. */
  function GetAsWritten(cookies: map<string, Jwt.Token>, now: int, env: Env): (r: Response)
    ensures r.status != 200
    ensures SessionToken(cookies).Some? && Jwt.Verify(SessionToken(cookies).value, Jwt.Key(env.jwtSecret), now).Some? ==>
              r == NotFound
  {
    Get(Store, cookies, now, env)
  }
}
