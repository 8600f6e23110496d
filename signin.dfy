/** `POST /api/auth/signin`: checks the two fields, looks the email up in
    the module's own in-memory array, compares the password and answers
    with the public profile and a session cookie. The handler only reads
    the array. */
module Signin {
  import opened Js
  import opened Users
  import opened Http
  import Bcrypt
  import Jwt

  /** The fields destructured from the JSON body. */
  datatype Body = Body(email: Option<string>, password: Option<string>)

  /** This module's own `users` array: declared empty and never appended
      to by any code. */
  const Store: seq<User> := []

  const FieldsRequired: string := "Email and password are required"
  const LoginSuccessful: string := "Login successful"

  /** The one answer to an unknown email and to a wrong password alike. */
  const InvalidCredentials: Response := Fail(401, "Invalid credentials")

  /** Whether `email`/`password` name a stored user: the first record with
      that email exists and its hash matches. */
  predicate Authentic(users: seq<User>, email: string, password: string)
  {
    var u := FindByEmail(users, email);
    u.Some? && Bcrypt.Compare(password, u.value.password)
  }

  /** The handler run against the array `users`; `body` is `None` when
      `request.json()` throws or yields `null`; any other JSON value that
      is not an object destructures to `Body(None, None)`. */
  function Post(users: seq<User>, body: Option<Body>, now: int, env: Env): (r: Response)
    ensures body.None? ==> r == InternalError
    ensures body.Some? && !(Truthy(body.value.email) && Truthy(body.value.password)) ==>
              r == Fail(400, FieldsRequired)
    // an unknown email and a wrong password both give the same 401
    ensures body.Some? && Truthy(body.value.email) && Truthy(body.value.password) &&
            !Authentic(users, body.value.email.value, body.value.password.value) ==>
              r == InvalidCredentials
    ensures r.status == 401 ==> r == InvalidCredentials
    ensures r.status in {200, 400, 401, 500}
    ensures r.status == 200 <==>
              body.Some? && Truthy(body.value.email) && Truthy(body.value.password) &&
              Authentic(users, body.value.email.value, body.value.password.value)
    ensures r.status == 200 ==>
              exists k :: 0 <= k < |users| && users[k].email == body.value.email.value &&
                (forall j :: 0 <= j < k ==> users[j].email != body.value.email.value) &&
                r == Response(200, Some(LoginSuccessful), Some(Profile(users[k])),
                              Some(SessionCookie(Jwt.Sign(users[k].id, users[k].email, Jwt.Key(env.jwtSecret), now), env)))
  {
    if body.None? then InternalError
    else
      var b := body.value;
      if !Truthy(b.email) || !Truthy(b.password) then Fail(400, FieldsRequired)
      else
        var user := FindByEmail(users, b.email.value);
        if user.None? then InvalidCredentials
        else if !Bcrypt.Compare(b.password.value, user.value.password) then InvalidCredentials
        else
          var u := user.value;
          var token := Jwt.Sign(u.id, u.email, Jwt.Key(env.jwtSecret), now);
          Response(200, Some(LoginSuccessful), Some(Profile(u)), Some(SessionCookie(token, env)))
  }

  /** The handler as the module runs it, against its own empty array. */
  function PostAsWritten(body: Option<Body>, now: int, env: Env): (r: Response)
    ensures r.status != 200
    ensures body.Some? && Truthy(body.value.email) && Truthy(body.value.password) ==> r == InvalidCredentials
  {
    Post(Store, body, now, env)
  }

  /** An unknown email and a known email with the wrong password cannot be
      told apart by the response. */
  lemma NoAccountEnumeration(unknown: seq<User>, known: seq<User>, email: string, password: string,
                             now: int, env: Env)
    requires email != "" && password != ""
    requires forall i :: 0 <= i < |unknown| ==> unknown[i].email != email
    requires FindByEmail(known, email).Some? && !Bcrypt.Compare(password, FindByEmail(known, email).value.password)
    ensures Post(unknown, Some(Body(Some(email), Some(password))), now, env) ==
            Post(known, Some(Body(Some(email), Some(password))), now, env)
  {
  }
}
