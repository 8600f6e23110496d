/** What a client sees when it moves through the routes in turn: sign up,
    then ask who it is, sign in, or open the dashboard. Each route module
    keeps its own array; the lemmas below compare the routes as written
    with the same routes reading the array signup writes. */
module Flows {
  import opened Js
  import opened Users
  import opened Http
  import Jwt
  import Signup
  import Signin
  import Me
  import Middleware

  /** The cookies a browser sends back after storing `c`. */
  function Returned(c: SetCookie): map<string, Jwt.Token>
  {
    map[c.name := c.value]
  }

  /** A successful signup's cookie, sent back before the token expires,
      makes the who-am-I route answer 404 as written: its own array is
      empty. */
  lemma SignupThenMeAsWritten(users: seq<User>, body: Signup.Body, id: string, salt: string, now: int,
                              later: int, env: Env)
    requires Signup.Handle(users, Some(body), id, salt, now, env).response.status == 201
    requires now <= later < now + Jwt.Lifetime
    ensures var o := Signup.Handle(users, Some(body), id, salt, now, env);
            Me.GetAsWritten(Returned(o.response.cookie.value), later, env) == Me.NotFound
  {
  }

  /** Reading the array signup writes, the who-am-I route returns the
      profile signup returned, provided no earlier user has the same id
      (`Date.now()` ids are not guaranteed distinct). */
  lemma SignupThenMeShared(users: seq<User>, body: Signup.Body, id: string, salt: string, now: int,
                           later: int, env: Env)
    requires Signup.Handle(users, Some(body), id, salt, now, env).response.status == 201
    requires forall i :: 0 <= i < |users| ==> users[i].id != id
    requires now <= later < now + Jwt.Lifetime
    ensures var o := Signup.Handle(users, Some(body), id, salt, now, env);
            Me.Get(o.users, Returned(o.response.cookie.value), later, env) ==
            Response(200, None, o.response.user, None)
  {
  }

  /** A user who has just signed up cannot sign in as written, whatever the
      password: the signin route's own array is empty. */
  lemma SignupThenSigninAsWritten(users: seq<User>, body: Signup.Body, id: string, salt: string, now: int,
                                  password: string, later: int, env: Env)
    requires Signup.Handle(users, Some(body), id, salt, now, env).response.status == 201
    requires password != ""
    ensures Signin.PostAsWritten(Some(Signin.Body(body.email, Some(password))), later, env) ==
            Signin.InvalidCredentials
  {
  }

  /** Reading the array signup writes, signing in with the signup's email
      and password succeeds with the same profile, and any other password
      is refused. */
  lemma SignupThenSigninShared(users: seq<User>, body: Signup.Body, id: string, salt: string, now: int,
                               password: string, later: int, env: Env)
    requires Signup.Handle(users, Some(body), id, salt, now, env).response.status == 201
    requires password != ""
    ensures var o := Signup.Handle(users, Some(body), id, salt, now, env);
            var r := Signin.Post(o.users, Some(Signin.Body(body.email, Some(password))), later, env);
            (r.status == 200 <==> password == body.password.value) &&
            (r.status == 200 ==> r.user == o.response.user) &&
            (r.status != 200 ==> r == Signin.InvalidCredentials)
  {
  }

  /** As written, the dashboard lets a fresh signup in while the who-am-I
      route it calls answers 404: the guard only checks the token. */
  lemma DashboardAdmitsUnknownUser(users: seq<User>, body: Signup.Body, id: string, salt: string, now: int,
                                   later: int, pathname: string, env: Env)
    requires Signup.Handle(users, Some(body), id, salt, now, env).response.status == 201
    requires now <= later < now + Jwt.Lifetime
    ensures var cookies := Returned(Signup.Handle(users, Some(body), id, salt, now, env).response.cookie.value);
            Middleware.Guard(pathname, cookies, later, env) == Middleware.Next &&
            Me.GetAsWritten(cookies, later, env).status == 404
  {
  }

  /** A token issued at `iat` and presented one second after its seven
      days is refused by the guard and by the who-am-I route. */
  lemma ExpiredTokenRefused(userId: string, email: string, iat: int, store: seq<User>, pathname: string, env: Env)
    requires Middleware.Protected(pathname)
    ensures var cookies := map[CookieName := Jwt.Sign(userId, email, Jwt.Key(env.jwtSecret), iat)];
            var late := iat + Jwt.Lifetime + 1;
            Middleware.Guard(pathname, cookies, late, env) == Middleware.Redirect(Middleware.LoginPath) &&
            Me.Get(store, cookies, late, env) == Me.InvalidToken
  {
  }
}
